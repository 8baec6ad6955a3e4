/** The input items of a Responses request as chat messages, and back. */
module ResponsesInput {
  import opened Prelude
  import R = Responses

  /** An input item as decoded; a role or kind the route does not know is some other string. */
  datatype Item =
    | Reasoning
    | Message(role: string, content: Raw)
    | FunctionCall(namespace: string, name: string, callId: string, args: Option<string>)
    | CallOutput(callId: string, output: Raw)
    | Unknown

  /** Content before and after its conversion, which is a parameter. */
  type Raw = string
  type Content = string

  datatype Call = Call(id: string, alias: string, args: string)

  datatype Chat =
    | Say(role: string, content: Content)
    | Calls(calls: seq<Call>)
    | Result(id: string, content: Content)

  datatype Env = Env(tools: R.Tools, order: seq<string>, convert: Raw -> Option<Content>)

  ghost predicate Usable(env: Env) {
    R.Enumerates(env.order, env.tools)
  }

  /** What one item says, by itself: one message with one call at most; nothing for reasoning. */
  datatype Meaning = Nothing | Bad | Is(m: Chat)

  function Role(role: string): Option<string> {
    if role == "developer" then Some("system")
    else if role == "user" || role == "assistant" || role == "system" then Some(role)
    else None
  }

  function MeaningOf(item: Item, env: Env): Meaning
    requires forall a <- env.order :: a in env.tools
  {
    match item
    case Reasoning => Nothing
    case Message(role, content) =>
      if Role(role).None? || env.convert(content).None? then Bad
      else Is(Say(Role(role).value, env.convert(content).value))
    case FunctionCall(namespace, name, callId, args) =>
      var found := R.Search(env.order, env.tools, namespace, name, R.Missing);
      if !found.Means? || args.None? || callId == "" then Bad
      else Is(Calls([Call(callId, found.alias, args.value)]))
    case CallOutput(callId, output) =>
      if callId == "" || env.convert(output).None? then Bad else Is(Result(callId, env.convert(output).value))
    case Unknown => Bad
  }

  /** A call joins the turn before it, if that is one of calls. */
  function Join(ms: seq<Chat>, m: Chat): seq<Chat> {
    if m.Calls? && ms != [] && ms[|ms| - 1].Calls?
    then ms[..|ms| - 1] + [Calls(ms[|ms| - 1].calls + m.calls)]
    else ms + [m]
  }

  /** The loop over the input, on the messages so far. */
  function Translate(items: seq<Item>, ms: seq<Chat>, env: Env): Option<seq<Chat>>
    requires forall a <- env.order :: a in env.tools
    decreases items
  {
    if items == [] then Some(ms)
    else
      match MeaningOf(items[0], env)
      case Nothing => Translate(items[1..], ms, env)
      case Bad => None
      case Is(m) => Translate(items[1..], Join(ms, m), env)
  }

  /** The items one by one, without the reasoning. */
  function Meanings(items: seq<Item>, env: Env): Option<seq<Chat>>
    requires forall a <- env.order :: a in env.tools
  {
    if items == [] then Some([])
    else
      var rest := Meanings(items[1..], env);
      match MeaningOf(items[0], env)
      case Nothing => rest
      case Bad => None
      case Is(m) => if rest.None? then None else Some([m] + rest.value)
  }

  // ---- taking the turns apart again ----

  function Singles(calls: seq<Call>): seq<Chat> {
    if calls == [] then [] else [Calls([calls[0]])] + Singles(calls[1..])
  }

  /** Each turn of calls as one message per call. */
  function Split(ms: seq<Chat>): seq<Chat> {
    if ms == [] then []
    else (if ms[0].Calls? then Singles(ms[0].calls) else [ms[0]]) + Split(ms[1..])
  }

  ghost predicate NoTwoTurns(ms: seq<Chat>) {
    forall i :: 0 <= i < |ms| - 1 ==> !(ms[i].Calls? && ms[i + 1].Calls?)
  }

  lemma {:induction false} SinglesJoin(a: seq<Call>, b: seq<Call>)
    ensures Singles(a + b) == Singles(a) + Singles(b)
  {
    if a == [] {
      assert a + b == b;
    } else {
      HeadTail(a[0], a[1..], b);
      assert a == [a[0]] + a[1..];
      SinglesJoin(a[1..], b);
    }
  }

  lemma {:induction false} SplitJoin(a: seq<Chat>, b: seq<Chat>)
    ensures Split(a + b) == Split(a) + Split(b)
  {
    if a == [] {
      assert a + b == b;
    } else {
      HeadTail(a[0], a[1..], b);
      assert a == [a[0]] + a[1..];
      SplitJoin(a[1..], b);
    }
  }

  lemma SplitOne(m: Chat)
    ensures Split([m]) == if m.Calls? then Singles(m.calls) else [m]
  {
    assert Split([]) == [];
  }

  /** A turn of calls and more of them, split. */
  lemma TurnSplits(init: seq<Chat>, calls: seq<Call>, more: seq<Call>)
    ensures Split(init + [Calls(calls + more)]) == Split(init + [Calls(calls)]) + Split([Calls(more)])
  {
    SplitJoin(init, [Calls(calls)]);
    SplitJoin(init, [Calls(calls + more)]);
    SinglesJoin(calls, more);
    SplitOne(Calls(calls + more));
    SplitOne(Calls(calls));
    SplitOne(Calls(more));
    Assoc(Split(init), Singles(calls), Singles(more));
  }

  lemma JoinApart(ms: seq<Chat>, m: Chat)
    requires NoTwoTurns(ms)
    ensures NoTwoTurns(Join(ms, m))
  {
  }

  /** Joining a message to a chat and splitting gives back the chat split and the message. */
  lemma JoinSplits(ms: seq<Chat>, m: Chat)
    ensures Split(Join(ms, m)) == Split(ms) + Split([m])
    ensures NoTwoTurns(ms) ==> NoTwoTurns(Join(ms, m))
  {
    if NoTwoTurns(ms) {
      JoinApart(ms, m);
    }
    if m.Calls? && ms != [] && ms[|ms| - 1].Calls? {
      var init, last := ms[..|ms| - 1], ms[|ms| - 1];
      assert ms == init + [last];
      TurnSplits(init, last.calls, m.calls);
    } else {
      SplitJoin(ms, [m]);
    }
  }

  /**
   The translation keeps the meaning: it is refused exactly when some item is, and otherwise taking its
   turns apart gives, after the messages it began with, every item but the reasoning, in order and
   one for one; and no two turns of calls stand side by side.
   */
  lemma {:induction false} TranslationKeepsMeaning(items: seq<Item>, ms: seq<Chat>, env: Env)
    requires (forall a <- env.order :: a in env.tools) && NoTwoTurns(ms)
    ensures Translate(items, ms, env).None? <==> Meanings(items, env).None?
    ensures Translate(items, ms, env).Some? ==>
              && Split(Translate(items, ms, env).value) == Split(ms) + Split(Meanings(items, env).value)
              && NoTwoTurns(Translate(items, ms, env).value)
    decreases items
  {
    if items == [] {
      assert Split(ms) + [] == Split(ms);
    } else {
      var rest := items[1..];
      match MeaningOf(items[0], env) {
        case Nothing => TranslationKeepsMeaning(rest, ms, env);
        case Bad =>
        case Is(m) =>
          JoinSplits(ms, m);
          TranslationKeepsMeaning(rest, Join(ms, m), env);
          if Meanings(rest, env).Some? {
            SplitJoin([m], Meanings(rest, env).value);
            Assoc(Split(ms), Split([m]), Split(Meanings(rest, env).value));
          }
      }
    }
  }

  /** One item by itself is already apart. */
  lemma {:induction false} MeaningsAreSingle(items: seq<Item>, env: Env)
    requires forall a <- env.order :: a in env.tools
    ensures Meanings(items, env).Some? ==> Split(Meanings(items, env).value) == Meanings(items, env).value
  {
    if items != [] {
      MeaningsAreSingle(items[1..], env);
      match MeaningOf(items[0], env) {
        case Nothing =>
        case Bad =>
        case Is(m) =>
          if Meanings(items[1..], env).Some? {
            SplitJoin([m], Meanings(items[1..], env).value);
            SplitOne(m);
            assert m.Calls? ==> Singles(m.calls) == [m] + Singles([]);
          }
      }
    }
  }

  /** A call says the function it was declared as: its alias leads back to the name it was called by. */
  lemma CallMeansDeclared(item: Item, env: Env)
    requires Usable(env) && item.FunctionCall? && MeaningOf(item, env).Is?
    ensures var c := MeaningOf(item, env).m.calls[0];
            && c.alias in env.tools
            && env.tools[c.alias].name == item.name
            && (item.namespace != "" ==> env.tools[c.alias].namespace == item.namespace)
            && c.id == item.callId && item.args == Some(c.args)
            && (forall a <- env.tools :: R.Matches(env.tools[a], item.namespace, item.name) ==> a == c.alias)
  {
    R.OrderDoesNotMatter(env.order, env.order, env.tools, item.namespace, item.name);
    var alias := MeaningOf(item, env).m.calls[0].alias;
    assert alias in R.Matching(env.tools, item.namespace, item.name);
    forall a | a in env.tools && R.Matches(env.tools[a], item.namespace, item.name) ensures a == alias {
      assert a in R.Matching(env.tools, item.namespace, item.name);
    }
  }

  /** A request's `input`; anything but a text or a list is some other value. */
  datatype Input = Text(text: string) | Items(items: seq<Item>) | OtherInput

  function Opening(instructions: Option<string>): seq<Chat> {
    if instructions.Some? then [Say("system", instructions.value)] else []
  }

  /** The messages of a request. */
  function TranslateWhole(instructions: Option<string>, input: Input, env: Env): Option<seq<Chat>>
    requires forall a <- env.order :: a in env.tools
  {
    match input
    case Text(text) => Some(Opening(instructions) + [Say("user", text)])
    case Items(items) => Translate(items, Opening(instructions), env)
    case OtherInput => None
  }

  /**
   A whole input, its instructions first: refused exactly when it is neither text nor a list or has an
   item that is bad by itself; and text means what the one message of the user with that text means.
   */
  lemma WholeInput(instructions: Option<string>, input: Input, env: Env)
    requires Usable(env)
    ensures var r := TranslateWhole(instructions, input, env);
            && (r.Some? <==> input.Text? || (input.Items? && Meanings(input.items, env).Some?))
            && (r.Some? && input.Items? ==>
                  Split(r.value) == Opening(instructions) + Meanings(input.items, env).value && NoTwoTurns(r.value))
    ensures forall raw :: input.Text? && env.convert(raw) == Some(input.text) ==>
              TranslateWhole(instructions, input, env)
              == TranslateWhole(instructions, Items([Message("user", raw)]), env)
  {
    if input.Items? {
      TranslationKeepsMeaning(input.items, Opening(instructions), env);
      MeaningsAreSingle(input.items, env);
    }
    OpeningIsApart(instructions);
    if input.Text? {
      forall raw | env.convert(raw) == Some(input.text)
        ensures TranslateWhole(instructions, input, env)
                == TranslateWhole(instructions, Items([Message("user", raw)]), env)
      {
        JoinsNone(Opening(instructions), Say("user", input.text));
        OneItem(Message("user", raw), Say("user", input.text), Opening(instructions), env);
      }
    }
  }

  lemma OpeningIsApart(instructions: Option<string>)
    ensures Split(Opening(instructions)) == Opening(instructions) && NoTwoTurns(Opening(instructions))
  {
    if instructions.Some? {
      SplitOne(Opening(instructions)[0]);
    }
  }

  /** The declared functions a call can mean: those of its name, in its namespace if it gives one. */
  function Meant(item: Item, tools: R.Tools): set<string>
    requires item.FunctionCall?
  {
    set a <- tools | tools[a].name == item.name && (item.namespace == "" || item.namespace == tools[a].namespace)
  }

  /** What an item needs to be understood. */
  ghost predicate Understood(item: Item, env: Env) {
    match item
    case Reasoning => true
    case Message(role, content) =>
      role in {"user", "assistant", "system", "developer"} && env.convert(content).Some?
    case FunctionCall(_, _, callId, args) => callId != "" && args.Some? && exists a :: Meant(item, env.tools) == {a}
    case CallOutput(callId, output) => callId != "" && env.convert(output).Some?
    case Unknown => false
  }

  /** An item is refused exactly when it lacks something it needs, and only reasoning says nothing. */
  lemma UnderstoodExactly(item: Item, env: Env)
    requires Usable(env)
    ensures MeaningOf(item, env) != Bad <==> Understood(item, env)
    ensures MeaningOf(item, env) == Nothing <==> item.Reasoning?
    ensures item.CallOutput? && Understood(item, env) ==>
              MeaningOf(item, env) == Is(Result(item.callId, env.convert(item.output).value))
  {
    if item.FunctionCall? {
      R.OrderDoesNotMatter(env.order, env.order, env.tools, item.namespace, item.name);
      assert Meant(item, env.tools) == R.Matching(env.tools, item.namespace, item.name);
      OneMeant(R.Search(env.order, env.tools, item.namespace, item.name, R.Missing), Meant(item, env.tools));
    }
  }

  lemma OneMeant(found: R.Found, meant: set<string>)
    requires R.Resolves(found, meant)
    ensures found.Means? <==> exists a :: meant == {a}
  {
    if found.Ambiguous? {
      var a, b :| a in meant && b in meant && a != b;
      assert forall c :: meant == {c} ==> a == c && b == c;
    }
  }

  /** The instructions come first, as the system's, and a text is the user's. */
  lemma WholeBegins(instructions: Option<string>, input: Input, env: Env)
    requires Usable(env)
    ensures var r := TranslateWhole(instructions, input, env);
            && (r.Some? && instructions.Some? ==> r.value != [] && r.value[0] == Say("system", instructions.value))
            && (input.Text? ==> r.Some? && r.value == r.value[..|r.value| - 1] + [Say("user", input.text)]
                                && |r.value| == if instructions.Some? then 2 else 1)
  {
    if input.Items? && instructions.Some? {
      FirstStays(input.items, Opening(instructions), env);
    }
  }

  /** What was first stays first, unless it is a turn of calls. */
  lemma {:induction false} FirstStays(items: seq<Item>, ms: seq<Chat>, env: Env)
    requires (forall a <- env.order :: a in env.tools) && ms != [] && !ms[0].Calls?
    ensures var r := Translate(items, ms, env); r.Some? ==> r.value != [] && r.value[0] == ms[0]
    decreases items
  {
    if items != [] {
      match MeaningOf(items[0], env) {
        case Nothing => FirstStays(items[1..], ms, env);
        case Bad =>
        case Is(m) => FirstStays(items[1..], Join(ms, m), env);
      }
    }
  }

  // ---- a chat as input, and back ----

  /** A call under its declared name; an alias nobody declared is a bare name. */
  function CallItem(c: Call, tools: R.Tools): Item {
    var t := if c.alias in tools then tools[c.alias] else R.Tool("", c.alias);
    FunctionCall(t.namespace, t.name, c.id, Some(c.args))
  }

  function CallItems(calls: seq<Call>, tools: R.Tools): seq<Item> {
    if calls == [] then [] else [CallItem(calls[0], tools)] + CallItems(calls[1..], tools)
  }

  /** The items that say a message of a chat, its content written as `raw` writes it. */
  function ItemsOf(m: Chat, tools: R.Tools, raw: Content -> Raw): seq<Item> {
    match m
    case Say(role, content) => [Message(role, raw(content))]
    case Calls(calls) => CallItems(calls, tools)
    case Result(id, content) => [CallOutput(id, raw(content))]
  }

  function AllItems(ms: seq<Chat>, tools: R.Tools, raw: Content -> Raw): seq<Item> {
    if ms == [] then [] else ItemsOf(ms[0], tools, raw) + AllItems(ms[1..], tools, raw)
  }

  /** The call's declaration is the only one its full name matches. */
  ghost predicate Plainly(c: Call, tools: R.Tools) {
    && c.id != "" && c.alias in tools
    && R.Matching(tools, tools[c.alias].namespace, tools[c.alias].name) == {c.alias}
  }

  ghost predicate AllPlainly(calls: seq<Call>, tools: R.Tools) {
    calls == [] || (Plainly(calls[0], tools) && AllPlainly(calls[1..], tools))
  }

  /** A message a chat engine could be given. */
  ghost predicate Sayable(m: Chat, tools: R.Tools) {
    match m
    case Say(role, _) => role in {"user", "assistant", "system"}
    case Calls(calls) => calls != [] && AllPlainly(calls, tools)
    case Result(id, _) => id != ""
  }

  ghost predicate Writes(env: Env, raw: Content -> Raw) {
    forall content :: env.convert(raw(content)) == Some(content)
  }

  lemma CallMeans(c: Call, env: Env)
    requires Usable(env) && Plainly(c, env.tools)
    ensures MeaningOf(CallItem(c, env.tools), env) == Is(Calls([c]))
  {
    var t := env.tools[c.alias];
    R.OrderDoesNotMatter(env.order, env.order, env.tools, t.namespace, t.name);
    R.OneResolution(R.Search(env.order, env.tools, t.namespace, t.name, R.Missing), R.Means(c.alias), {c.alias});
  }

  /** Translating a list after another is going on from where that one has come to. */
  lemma {:induction false} TranslateJoin(a: seq<Item>, b: seq<Item>, ms: seq<Chat>, env: Env)
    requires forall x <- env.order :: x in env.tools
    ensures Translate(a + b, ms, env)
            == if Translate(a, ms, env).None? then None else Translate(b, Translate(a, ms, env).value, env)
    decreases a
  {
    if a == [] {
      assert a + b == b;
    } else {
      assert (a + b)[0] == a[0] && (a + b)[1..] == a[1..] + b;
      match MeaningOf(a[0], env) {
        case Nothing => TranslateJoin(a[1..], b, ms, env);
        case Bad =>
        case Is(m) => TranslateJoin(a[1..], b, Join(ms, m), env);
      }
    }
  }

  lemma OneItem(item: Item, m: Chat, ms: seq<Chat>, env: Env)
    requires (forall a <- env.order :: a in env.tools) && MeaningOf(item, env) == Is(m)
    ensures Translate([item], ms, env) == Some(Join(ms, m))
  {
    assert [item][1..] == [];
    assert Translate([], Join(ms, m), env) == Some(Join(ms, m));
  }

  lemma JoinsLast(ms: seq<Chat>, before: seq<Call>, more: seq<Call>)
    ensures Join(ms + [Calls(before)], Calls(more)) == ms + [Calls(before + more)]
  {
  }

  lemma JoinsNone(ms: seq<Chat>, m: Chat)
    requires m.Calls? && ms != [] ==> !ms[|ms| - 1].Calls?
    ensures Join(ms, m) == ms + [m]
  {
  }

  /** The items of a turn of calls join the turn before. */
  lemma {:induction false} CallsReturn(calls: seq<Call>, before: seq<Call>, ms: seq<Chat>, env: Env)
    requires Usable(env) && AllPlainly(calls, env.tools)
    ensures Translate(CallItems(calls, env.tools), ms + [Calls(before)], env) == Some(ms + [Calls(before + calls)])
    decreases calls
  {
    if calls == [] {
      assert before + calls == before;
    } else {
      var c := calls[0];
      CallMeans(c, env);
      JoinsLast(ms, before, [c]);
      OneItem(CallItem(c, env.tools), Calls([c]), ms + [Calls(before)], env);
      CallsReturn(calls[1..], before + [c], ms, env);
      TranslateJoin([CallItem(c, env.tools)], CallItems(calls[1..], env.tools), ms + [Calls(before)], env);
      assert before + [c] + calls[1..] == before + calls;
    }
  }

  lemma TurnReturns(calls: seq<Call>, ms: seq<Chat>, env: Env)
    requires Usable(env) && calls != [] && AllPlainly(calls, env.tools)
    requires ms != [] ==> !ms[|ms| - 1].Calls?
    ensures Translate(CallItems(calls, env.tools), ms, env) == Some(ms + [Calls(calls)])
  {
    var c := calls[0];
    CallMeans(c, env);
    JoinsNone(ms, Calls([c]));
    OneItem(CallItem(c, env.tools), Calls([c]), ms, env);
    CallsReturn(calls[1..], [c], ms, env);
    TranslateJoin([CallItem(c, env.tools)], CallItems(calls[1..], env.tools), ms, env);
    assert [c] + calls[1..] == calls;
  }

  lemma MessageReturns(m: Chat, ms: seq<Chat>, env: Env, raw: Content -> Raw)
    requires Usable(env) && Sayable(m, env.tools) && Writes(env, raw)
    requires m.Calls? && ms != [] ==> !ms[|ms| - 1].Calls?
    ensures Translate(ItemsOf(m, env.tools, raw), ms, env) == Some(ms + [m])
  {
    if m.Calls? {
      TurnReturns(m.calls, ms, env);
    } else {
      JoinsNone(ms, m);
      OneItem(ItemsOf(m, env.tools, raw)[0], m, ms, env);
    }
  }

  /**
   A chat comes back: written as input, each call under the full name of the function it was declared as,
   any chat of the roles an engine knows, in which no two turns of calls stand side by side, is translated
   to itself.
   */
  lemma {:induction false} ChatReturns(ms: seq<Chat>, before: seq<Chat>, env: Env, raw: Content -> Raw)
    requires Usable(env) && Writes(env, raw) && NoTwoTurns(before + ms)
    requires forall m <- ms :: Sayable(m, env.tools)
    ensures Translate(AllItems(ms, env.tools, raw), before, env) == Some(before + ms)
    decreases ms
  {
    if ms == [] {
      assert before + ms == before;
    } else {
      var m, rest := ms[0], ms[1..];
      assert before + ms == before + [m] + rest;
      if m.Calls? && before != [] {
        assert (before + ms)[|before| - 1] == before[|before| - 1] && (before + ms)[|before|] == m;
      }
      MessageReturns(m, before, env, raw);
      ChatReturns(rest, before + [m], env, raw);
      TranslateJoin(ItemsOf(m, env.tools, raw), AllItems(rest, env.tools, raw), before, env);
    }
  }

  /** A developer's message is the system's; and a role the route does not know is refused. */
  lemma RolesAre(role: string, content: Raw, env: Env)
    requires Usable(env) && env.convert(content).Some?
    ensures role in {"user", "assistant", "system"} ==>
              MeaningOf(Message(role, content), env) == Is(Say(role, env.convert(content).value))
    ensures role == "developer" ==>
              MeaningOf(Message(role, content), env) == MeaningOf(Message("system", content), env)
    ensures MeaningOf(Message(role, content), env) == Bad <==>
            role !in {"user", "assistant", "system", "developer"}
  {
  }

  // ---- the adapter as it is kept for one request ----

  /** Aliases are learned as tools are declared; a message list grows, and its last turn in place. */
  class Adapter {
    var tools: R.Tools
    var messages: seq<Chat>

    constructor ()
      ensures tools == map[] && messages == []
    {
      tools, messages := map[], [];
    }

    method Name(t: R.Tool, hash: (string, string) -> string) returns (alias: Option<string>)
      modifies this`tools
      ensures var r := R.Name(old(tools), t, hash);
              && tools == (if r.Some? then r.value.0 else old(tools))
              && alias == if r.Some? then Some(r.value.1) else None
    {
      alias := R.Alias(t, hash);
      if alias.None? {
        return;
      }
      if alias.value in tools && tools[alias.value] != t {
        return None;
      }
      tools := tools[alias.value := t];
    }

    method DeclareAll(ts: seq<R.Tool>, hash: (string, string) -> string) returns (aliases: Option<seq<string>>)
      requires tools == map[]
      modifies this`tools
      ensures var r := R.Declare(ts, map[], [], hash);
              && (aliases.Some? <==> r.Some?)
              && (r.Some? ==> r.value == (tools, aliases.value))
    {
      var seen := [];
      var i := 0;
      assert ts[0..] == ts;
      while i < |ts|
        invariant 0 <= i <= |ts|
        invariant R.Declare(ts[i..], tools, seen, hash) == R.Declare(ts, map[], [], hash)
      {
        var alias := Name(ts[i], hash);
        if alias.None? || alias.value in seen {
          return None;
        }
        seen := seen + [alias.value];
        i := i + 1;
      }
      return Some(seen);
    }

    /** The map is gone through in no particular order, and it makes no difference. */
    method HistoryName(namespace: string, name: string, ghost order: seq<string>) returns (found: R.Found)
      requires R.Enumerates(order, tools)
      ensures found == R.Search(order, tools, namespace, name, R.Missing)
    {
      found := R.Missing;
      var known, left := tools, tools.Keys;
      assert known.Keys - left == {};
      while left != {}
        invariant R.Partial(known, left, namespace, name, found)
        decreases |left|
      {
        var alias :| alias in left;
        R.PartialStep(known, left, namespace, name, found, alias);
        if R.Matches(known[alias], namespace, name) {
          if found != R.Missing {
            R.SearchIs(R.Ambiguous, order, known, namespace, name);
            return R.Ambiguous;
          }
          found := R.Means(alias);
        }
        left := left - {alias};
      }
      R.PartialEnds(known, namespace, name, found);
      R.SearchIs(found, order, known, namespace, name);
    }

    method Append(m: Chat)
      modifies this`messages
      ensures messages == Join(old(messages), m)
    {
      if m.Calls? && |messages| > 0 {
        var prev := messages[|messages| - 1];
        if prev.Calls? {
          messages := messages[|messages| - 1 := Calls(prev.calls + m.calls)];
          return;
        }
      }
      messages := messages + [m];
    }

    method TranslateInput(items: seq<Item>, env: Env) returns (ok: bool)
      requires (forall a <- env.order :: a in env.tools)
      modifies this`messages
      ensures ok <==> Translate(items, old(messages), env).Some?
      ensures ok ==> messages == Translate(items, old(messages), env).value
    {
      var i := 0;
      assert items[0..] == items;
      while i < |items|
        invariant 0 <= i <= |items|
        invariant Translate(items[i..], messages, env) == Translate(items, old(messages), env)
      {
        match MeaningOf(items[i], env) {
          case Nothing =>
          case Bad => return false;
          case Is(m) => Append(m);
        }
        i := i + 1;
      }
      return true;
    }

    /** The messages from the first: instructions, and the text or the items. */
    method TranslateBody(instructions: Option<string>, input: Input, env: Env) returns (ok: bool)
      requires messages == [] && forall a <- env.order :: a in env.tools
      modifies this`messages
      ensures ok <==> TranslateWhole(instructions, input, env).Some?
      ensures ok ==> messages == TranslateWhole(instructions, input, env).value
    {
      if instructions.Some? {
        messages := messages + [Say("system", instructions.value)];
      }
      assert messages == Opening(instructions);
      match input {
        case Text(text) =>
          messages := messages + [Say("user", text)];
          return true;
        case Items(items) => ok := TranslateInput(items, env);
        case OtherInput => return false;
      }
    }
  }
}
