/** The accumulator as an object: fields grown in place by `Consume`, proved to do what Stream.dfy says. */
module HostToolReply {
  import opened Prelude
  import opened Text
  import S = Stream

  class HostToolReply {
    var pending: Bytes
    var content: string
    var reasoning: string
    var calls: seq<S.Call>
    var finished: bool
    var reason: string
    var emitted: seq<S.Delta>

    ghost function Abs(): S.Reply
      reads this
    {
      S.Reply(pending, content, reasoning, calls, finished, reason, emitted)
    }

    constructor ()
      ensures Abs() == S.Silent
    {
      pending, content, reasoning, calls, finished, reason, emitted := [], "", "", [], false, "", [];
    }

    /** Each piece of a tool call lands on the call it names, which is made room for first. */
    method AddCalls(ds: seq<S.CallDelta>) returns (err: Option<S.Error>)
      modifies this`calls
      ensures (calls, err) == S.AddCalls(old(calls), ds)
    {
      var i := 0;
      assert ds[0..] == ds;
      while i < |ds|
        invariant 0 <= i <= |ds| && S.AddCalls(calls, ds[i..]) == S.AddCalls(old(calls), ds)
      {
        var d := ds[i];
        if d.index < 0 || d.index >= S.MAX_CALLS {
          return Some(S.ManyCalls);
        }
        ghost var before := calls;
        while |calls| <= d.index
          invariant S.Padded(calls, d.index + 1) == S.Padded(before, d.index + 1)
          decreases d.index + 1 - |calls|
        {
          calls := calls + [S.Call("", "", "")];
        }
        var c := calls[d.index];
        if d.id != "" && d.id != c.id {
          c := c.(id := c.id + d.id);
        }
        if d.name != "" && d.name != c.name {
          c := c.(name := c.name + d.name);
        }
        calls := calls[d.index := c.(args := c.args + d.args)];
        assert calls == S.AddCall(before, d);
        i := i + 1;
      }
      return None;
    }

    method OnChoice(c: S.Choice, env: S.Env) returns (err: Option<S.Error>)
      modifies this
      ensures (Abs(), err) == S.OnChoice(old(Abs()), c, env)
    {
      if c.index != 0 {
        return Some(S.BadIndex);
      }
      if c.finish.Some? {
        reason := c.finish.value;
      }
      content := content + c.delta.content;
      reasoning := reasoning + c.delta.reasoning;
      err := AddCalls(c.delta.calls);
      if err.Some? {
        return;
      }
      if c.delta.content != "" || c.delta.reasoning != "" {
        if !env.takes(|emitted|) {
          return Some(S.Gone);
        }
        emitted := emitted + [c.delta.(calls := [])];
      }
    }

    method OnLine(line: Bytes, env: S.Env) returns (err: Option<S.Error>)
      modifies this
      ensures (Abs(), err) == S.OnLine(old(Abs()), line, env)
    {
      var value := S.Payload(line, env);
      if value.None? {
        return None;
      }
      if value.value == S.DONE {
        finished := reason != "";
        return None;
      }
      var chunk := env.decode(value.value);
      if chunk.None? {
        return Some(S.Invalid);
      }
      if chunk.value.error {
        return Some(S.Failed);
      }
      if |chunk.value.choices| > 1 {
        return Some(S.ManyReplies);
      }
      err := None;
      if chunk.value.choices != [] {
        err := OnChoice(chunk.value.choices[0], env);
      }
    }

    method Consume(raw: Bytes, env: S.Env) returns (err: Option<S.Error>)
      modifies this
      ensures (Abs(), err) == S.Feed(old(Abs()), raw, env)
    {
      pending := pending + raw;
      if |pending| > env.limit {
        return Some(S.Limit);
      }
      ghost var all := Abs();
      while true
        invariant S.Drain(Abs(), env) == S.Drain(all, env)
        decreases |pending|
      {
        var i := Newline(pending);
        if i == |pending| {
          return None;
        }
        var line := pending[..i];
        pending := pending[i + 1..];
        ghost var before := Abs();
        err := OnLine(line, env);
        assert Abs().pending == before.pending;
        if err.Some? {
          return;
        }
      }
    }
  }
}
