/**
 The output cap of a chat: clamped to the key's, shrunk to the context and to the budgets, written
 back into the body wherever the body has one, and reserved. A body is a map from its top-level
 names; of a value only matters whether it is a number, and which whole one.
 */
module Caps {
  import opened Prelude
  import L = Limits
  import T = LimitsTheorems
  import K = KeyState

  /** `whole` is none for a number that is not a 64-bit integer. */
  datatype Value = Number(whole: Option<int>) | Other

  type Body = map<string, Value>

  const MAX := "max_tokens"
  const COMPLETION := "max_completion_tokens"

  /** A cap the engine takes as one: a positive whole number. */
  function Cap(body: Body, f: string): nat {
    if f in body && body[f].Number? && body[f].whole.Some? && body[f].whole.value > 0 then body[f].whole.value else 0
  }

  /** The smallest cap in the body; 0 when there is none. */
  function Smallest(body: Body): nat {
    var a, b := Cap(body, MAX), Cap(body, COMPLETION);
    if a == 0 then b else if b == 0 then a else Min(a, b)
  }

  /** Without the override names, and without caps that are no numbers. */
  function Strip(body: Body, overrides: set<string>): Body {
    map k | k in body && k !in overrides && (k in {MAX, COMPLETION} ==> body[k].Number?) :: body[k]
  }

  function ClampField(body: Body, f: string, most: int): Body {
    if f in body && body[f].Number? && most > 0 && (Cap(body, f) == 0 || Cap(body, f) > most)
    then body[f := Number(Some(most))] else body
  }

  predicate HasNumber(body: Body) {
    (MAX in body && body[MAX].Number?) || (COMPLETION in body && body[COMPLETION].Number?)
  }

  /** `clampMaxTokens`. */
  function Clamp(body: Body, most: int): Body {
    if !HasNumber(body) && most > 0 then body[MAX := Number(Some(most))]
    else ClampField(ClampField(body, MAX, most), COMPLETION, most)
  }

  /** `setMaxTok`. */
  function SetCap(body: Body, n: int): Body {
    var v := Number(Some(n));
    var a := if MAX in body then body[MAX := v] else body;
    var b := if COMPLETION in body then a[COMPLETION := v] else a;
    if MAX !in body && COMPLETION !in body then b[MAX := v] else b
  }

  /** The smaller of the key's and the model's context, ignoring zeros. */
  function EffContext(engine: int, model: int, key: int): int {
    var eff := if model > 0 then model else engine;
    if key > 0 && (eff == 0 || key < eff) then key else eff
  }

  datatype Shaped = Shaped(body: Body, maxTok: int)

  /** `fitContext`; none when the prompt alone is too long. */
  function FitContext(s: Shaped, prompt: int, eff: int): Option<Shaped> {
    if eff == 0 then Some(s)
    else if prompt > eff then None
    else if s.maxTok > 0 && prompt + s.maxTok > eff then
      var n := Max(eff - prompt, L.MIN_OUTPUT);
      Some(Shaped(SetCap(s.body, n), n))
    else Some(s)
  }

  /** The output `checkBudgets` asks the limiter for: a chat with no cap anywhere is unbounded. */
  function Asked(s: Shaped, chat: bool): int {
    if chat && s.maxTok == 0 then -1 else s.maxTok
  }

  /** What the body becomes when `fitted` was granted. */
  function Fitted(s: Shaped, fitted: int): Shaped {
    if fitted > 0 && fitted != s.maxTok then Shaped(SetCap(s.body, fitted), fitted) else s
  }

  /** The record's copy of the cap is the body's. */
  predicate Matches(s: Shaped) {
    s.maxTok == Smallest(s.body)
  }

  // ---- what shaping keeps ----

  lemma SetCapSets(body: Body, n: int)
    requires n > 0
    ensures Smallest(SetCap(body, n)) == n
    ensures Cap(SetCap(body, n), MAX) in {0, n} && Cap(SetCap(body, n), COMPLETION) in {0, n}
    ensures forall k :: k != MAX && k != COMPLETION ==> (k in SetCap(body, n) <==> k in body)
    ensures forall k :: k in body && k != MAX && k != COMPLETION ==> SetCap(body, n)[k] == body[k]
  {
  }

  lemma NamesDiffer()
    ensures MAX != COMPLETION
  {
    assert |MAX| != |COMPLETION|;
  }

  /** After clamping to a key's cap there is a cap, and none in the body is over the key's. */
  lemma ClampHolds(body: Body, most: int)
    requires most > 0
    ensures var b := Clamp(body, most);
            0 < Smallest(b) <= most && Cap(b, MAX) <= most && Cap(b, COMPLETION) <= most
  {
    NamesDiffer();
  }

  /** Clamping never raises a cap that was within the key's, and touches nothing else. */
  lemma ClampKeeps(body: Body, most: int, f: string)
    ensures var b := Clamp(body, most);
            && (f in body && f != MAX && f != COMPLETION ==> f in b && b[f] == body[f])
            && (f in {MAX, COMPLETION} && 0 < Cap(body, f) && (most <= 0 || Cap(body, f) <= most) ==>
                  Cap(b, f) == Cap(body, f))
            && (most <= 0 ==> b == body)
  {
    NamesDiffer();
  }

  /**
   Clamping decides each cap by itself: one within the key's stays, one over it or that is no cap becomes the
   key's, and a body without any is given the key's; everything else is as it was.
   */
  lemma ClampExact(body: Body, most: int, f: string)
    requires most > 0
    ensures var b := Clamp(body, most);
            if f != MAX && f != COMPLETION then (f in b <==> f in body) && (f in body ==> b[f] == body[f])
            else if f in body && body[f].Number? then Cap(b, f) ==
                     if 0 < Cap(body, f) <= most then Cap(body, f) else most
            else if f == MAX && !HasNumber(body) then Cap(b, f) == most
            else (f in b <==> f in body) && (f in body ==> b[f] == body[f])
  {
    NamesDiffer();
  }

  /** Stripping takes the overrides and the caps that are no numbers, and leaves all else as it was. */
  lemma StripExact(body: Body, overrides: set<string>, f: string)
    ensures var b := Strip(body, overrides);
            && (f in overrides ==> f !in b)
            && (f in {MAX, COMPLETION} && f in body && !body[f].Number? ==> f !in b)
            && (f in body && f !in overrides && (f !in {MAX, COMPLETION} || body[f].Number?) ==>
                  f in b && b[f] == body[f])
            && (f in b ==> f in body)
  {
  }

  lemma ContextKeeps(s: Shaped, prompt: int, eff: int, most: int)
    requires Matches(s) && FitContext(s, prompt, eff).Some?
    ensures var t := FitContext(s, prompt, eff).value;
            && Matches(t)
            && (most > 0 && 0 < s.maxTok <= most ==> 0 < t.maxTok <= Max(most, L.MIN_OUTPUT))
  {
    if s.maxTok > 0 && eff != 0 && prompt + s.maxTok > eff {
      SetCapSets(s.body, Max(eff - prompt, L.MIN_OUTPUT));
    }
  }

  /** The context in force is within the key's and the model's own, one of those given, and none only when none is. */
  lemma EffContextIs(engine: nat, model: nat, key: nat)
    ensures var eff := EffContext(engine, model, key);
            && (key > 0 ==> 0 < eff <= key) && (model > 0 ==> 0 < eff <= model)
            && (model == 0 && engine > 0 ==> 0 < eff <= engine)
            && eff in {engine, model, key} && (eff == 0 <==> engine == 0 && model == 0 && key == 0)
            && (model > 0 ==> eff in {model, key})
  {
  }

  /** The context has room for the prompt and `c` tokens after it. */
  predicate HasRoom(prompt: int, c: int, eff: int) {
    prompt + c <= eff
  }

  /**
   Fitting the context refuses exactly a prompt that alone is over it. A cap there is room for stays; any
   other becomes the largest there is room for, or the floor of 16 tokens when there is none for those.
   */
  lemma FittedCapIs(s: Shaped, prompt: int, eff: int)
    requires Matches(s)
    ensures var r := FitContext(s, prompt, eff);
            && (r.None? <==> eff != 0 && prompt > eff)
            && (r.Some? ==>
                  var c := r.value.maxTok;
                  && Matches(r.value)
                  && (eff == 0 || s.maxTok == 0 || HasRoom(prompt, s.maxTok, eff) ==> r.value == s)
                  && (eff != 0 && s.maxTok > 0 && !HasRoom(prompt, s.maxTok, eff) ==>
                        if HasRoom(prompt, L.MIN_OUTPUT, eff)
                        then c < s.maxTok && forall n: int :: HasRoom(prompt, n, eff) <==> n <= c
                        else c == L.MIN_OUTPUT))
  {
    if eff != 0 && s.maxTok > 0 && prompt <= eff && prompt + s.maxTok > eff {
      SetCapSets(s.body, Max(eff - prompt, L.MIN_OUTPUT));
    }
  }

  /**
   What is left of the context holds the prompt and the cap exactly when it did before, or when the
   context leaves the floor of 16 tokens: the floor is granted even where there is no room for it.
   */
  lemma ContextFits(s: Shaped, prompt: int, eff: int)
    requires eff > 0 && s.maxTok > 0 && FitContext(s, prompt, eff).Some?
    ensures prompt + FitContext(s, prompt, eff).value.maxTok <= eff
            <==> prompt + s.maxTok <= eff || prompt + L.MIN_OUTPUT <= eff
  {
  }

  /** Fitting the context raises a cap exactly when there is no room for it and it is under the floor. */
  lemma ContextRaises(s: Shaped, prompt: int, eff: int)
    requires FitContext(s, prompt, eff).Some?
    ensures FitContext(s, prompt, eff).value.maxTok > s.maxTok
            <==> eff != 0 && 0 < s.maxTok < L.MIN_OUTPUT && prompt + s.maxTok > eff
  {
  }

  /** A context of 110 tokens, a prompt of 108 and a cap of 5: the cap becomes 16, and they need 124. */
  lemma FloorExceeds()
    ensures var s := Shaped(map[MAX := Number(Some(5))], 5);
            var r := FitContext(s, 108, 110);
            Matches(s) && r.Some? && r.value.maxTok == 16 > s.maxTok && 108 + r.value.maxTok > 110
  {
    NamesDiffer();
  }

  /**
   The reservation is what the engine is asked for. A chat that passes the budgets holds its prompt
   and the smallest cap its body leaves with, and that cap is at most the key's, or 16 when the
   key's is less; a body that leaves without a cap holds its prompt alone, and then neither the key
   nor a budget sets any.
   */
  lemma ReservationIsAsked(body: Body, overrides: set<string>, most: int, prompt: int, eff: int,
                           k: L.Key, a: L.Admission, now: int, lim: L.KeyLimits)
    ensures var b := Clamp(Strip(body, overrides), most);
            var fit := FitContext(Shaped(b, Smallest(b)), prompt, eff);
            fit.Some? ==>
              var r := L.Reserve(k, a, now, lim, prompt, Asked(fit.value, true)).1;
              r.Granted? ==>
                var s := Fitted(fit.value, r.value.1);
                && Matches(s)
                && r.value.0.reserved == prompt + Smallest(s.body)
                && (most > 0 ==> 0 < Smallest(s.body) <= Max(most, L.MIN_OUTPUT))
                && (Smallest(s.body) == 0 ==> most <= 0 && lim.tpm <= 0 && lim.daily <= 0)
  {
    var b := Clamp(Strip(body, overrides), most);
    var start := Shaped(b, Smallest(b));
    var fit := FitContext(start, prompt, eff);
    if most > 0 {
      ClampHolds(Strip(body, overrides), most);
    }
    if fit.Some? {
      ContextKeeps(start, prompt, eff, most);
      FittedIs(fit.value, k, a, now, lim, prompt);
    }
  }

  /** From a chat's cap to its reservation. */
  lemma FittedIs(s: Shaped, k: L.Key, a: L.Admission, now: int, lim: L.KeyLimits, prompt: int)
    requires Matches(s)
    ensures var r := L.Reserve(k, a, now, lim, prompt, Asked(s, true)).1;
            r.Granted? ==>
              var t := Fitted(s, r.value.1);
              && Matches(t) && r.value.0.reserved == prompt + t.maxTok
              && (s.maxTok > 0 ==> 0 < t.maxTok <= s.maxTok)
              && (t.maxTok == 0 ==> s.maxTok == 0 && lim.tpm <= 0 && lim.daily <= 0)
  {
    var r := L.Reserve(k, a, now, lim, prompt, Asked(s, true)).1;
    GrantedCap(k, a, now, lim, prompt, Asked(s, true));
    if r.Granted? && r.value.1 > 0 {
      SetCapSets(s.body, r.value.1);
    }
  }

  /**
   The cap a chat leaves with is the largest that is not over the one it came to the budgets with and that
   the minute and the day have room for.
   */
  lemma CapIsLargest(s: Shaped, k: L.Key, a: L.Admission, now: int, lim: L.KeyLimits, prompt: int)
    requires Matches(s)
    ensures var m := L.Prune(k, now).tokens;
            var r := L.Reserve(k, a, now, lim, prompt, Asked(s, true)).1;
            r.Granted? ==>
              var t := Fitted(s, r.value.1);
              && (t.maxTok > 0 ==> T.Fits(m, lim, prompt, t.maxTok))
              && (s.maxTok > 0 ==> t.maxTok <= s.maxTok)
              && (s.maxTok > 0 || lim.tpm > 0 || lim.daily > 0 ==>
                    forall c: int :: T.Fits(m, lim, prompt, c) && (s.maxTok == 0 || c <= s.maxTok) ==> c <= t.maxTok)
  {
    T.GrantIsLargest(k, a, now, lim, prompt, Asked(s, true));
    GrantedCap(k, a, now, lim, prompt, Asked(s, true));
  }

  lemma GrantedCap(k: L.Key, a: L.Admission, now: int, lim: L.KeyLimits, prompt: int, out: int)
    requires out != 0
    ensures var r := L.Reserve(k, a, now, lim, prompt, out).1;
            r.Granted? ==>
              && r.value.0.reserved == prompt + Max(r.value.1, 0)
              && (out > 0 ==> 0 < r.value.1 <= out)
              && (out < 0 ==> r.value.1 > 0 || (r.value.1 == out && lim.tpm <= 0 && lim.daily <= 0))
  {
  }

  function WithoutField(body: Body, f: string): Body {
    if f in body && !body[f].Number? then body - {f} else body
  }

  /** Taking out the override names and then the caps that are no numbers is stripping. */
  lemma StripIs(body: Body, kept: Body, bare: Body, left: Body, overrides: set<string>)
    requires kept == body - overrides && bare == WithoutField(kept, MAX) && left == WithoutField(bare, COMPLETION)
    ensures left == Strip(body, overrides)
  {
    WithoutIs(kept, MAX);
    WithoutIs(bare, COMPLETION);
  }

  function Names(names: seq<string>): set<string> {
    set k <- names
  }

  lemma NamesGrow(names: seq<string>, i: nat)
    requires i < |names|
    ensures Names(names[..i + 1]) == Names(names[..i]) + {names[i]}
  {
    assert names[..i + 1] == names[..i] + [names[i]];
  }

  lemma OneLess(body: Body, gone: set<string>, name: string)
    ensures (body - gone) - {name} == body - (gone + {name}) && (body - gone).Keys <= body.Keys
  {
  }

  lemma WithoutIs(body: Body, f: string)
    ensures WithoutField(body, f) == map k | k in body && (k == f ==> body[k].Number?) :: body[k]
  {
  }

  // ---- names in order ----

  predicate Before(a: string, b: string) {
    a == "" || (b != "" && (a[0] < b[0] || (a[0] == b[0] && Before(a[1..], b[1..]))))
  }

  ghost predicate Ascending(names: seq<string>) {
    forall i :: 0 <= i < |names| - 1 ==> Before(names[i], names[i + 1])
  }

  lemma {:induction false} BeforeIsTotal(a: string, b: string)
    ensures Before(a, b) || Before(b, a)
  {
    if a != "" && b != "" && a[0] == b[0] {
      BeforeIsTotal(a[1..], b[1..]);
    }
  }

  function Insert(name: string, names: seq<string>): (r: seq<string>)
    requires Ascending(names)
    ensures Ascending(r) && multiset(r) == multiset(names) + multiset{name}
    ensures r[0] == name || (names != [] && r[0] == names[0])
  {
    if names == [] then [name]
    else
      assert names == [names[0]] + names[1..];
      BeforeIsTotal(name, names[0]);
      if Before(name, names[0]) then [name] + names else [names[0]] + Insert(name, names[1..])
  }

  /** The names sorted. */
  function InOrder(names: seq<string>): (r: seq<string>)
    ensures Ascending(r) && multiset(r) == multiset(names)
  {
    if names == [] then []
    else
      assert names == [names[0]] + names[1..];
      Insert(names[0], InOrder(names[1..]))
  }

  // ---- the record as the stages change it ----

  class ChatRequest {
    var body: Body
    var maxTok: int

    ghost function Abs(): Shaped
      reads this
    {
      Shaped(body, maxTok)
    }

    constructor (body: Body)
      ensures Abs() == Shaped(body, 0)
    {
      this.body, maxTok := body, 0;
    }

    /** Deletes as it goes; what was removed is the host's to log, in order. */
    method StripOverrides(overrides: seq<string>) returns (removed: seq<string>)
      modifies this`body
      ensures body == Strip(old(body), Names(overrides))
      ensures Ascending(removed) && multiset(removed) == multiset(old(body).Keys - body.Keys)
    {
      ghost var before := body;
      removed := StripNames(overrides);
      ghost var kept := body;
      removed := StripField(MAX, removed, before);
      ghost var bare := body;
      removed := StripField(COMPLETION, removed, before);
      StripIs(before, kept, bare, body, Names(overrides));
      removed := InOrder(removed);
    }

    method StripNames(overrides: seq<string>) returns (removed: seq<string>)
      modifies this`body
      ensures body == old(body) - Names(overrides) && Noted(removed, old(body))
    {
      ghost var before, gone := body, {};
      removed := [];
      for i := 0 to |overrides|
        invariant gone == Names(overrides[..i])
        invariant body == before - gone && Noted(removed, before)
      {
        NamesGrow(overrides, i);
        OneLess(before, gone, overrides[i]);
        removed := Remove(overrides[i], removed, before);
        gone := gone + {overrides[i]};
      }
      assert overrides[..|overrides|] == overrides;
    }

    method StripField(f: string, removed: seq<string>, ghost before: Body) returns (noted: seq<string>)
      requires body.Keys <= before.Keys && Noted(removed, before)
      modifies this`body
      ensures body == WithoutField(old(body), f) && Noted(noted, before)
    {
      noted := removed;
      if f in body && !body[f].Number? {
        noted := Remove(f, removed, before);
      }
    }

    /** The names noted are those that are no longer in the body, each once. */
    ghost predicate Noted(removed: seq<string>, before: Body)
      reads this
    {
      multiset(removed) == multiset(before.Keys - body.Keys)
    }

    /** One name out of the body, and noted if it was there. */
    method Remove(name: string, removed: seq<string>, ghost before: Body) returns (noted: seq<string>)
      requires body.Keys <= before.Keys && Noted(removed, before)
      modifies this`body
      ensures body == old(body) - {name} && Noted(noted, before)
    {
      noted := removed;
      if name in body {
        assert before.Keys - (body.Keys - {name}) == (before.Keys - body.Keys) + {name};
        body := body - {name};
        noted := noted + [name];
      }
    }

    method ClampOne(f: string, most: int) returns (present: bool, cap: nat)
      modifies this`body
      ensures body == ClampField(old(body), f, most)
      ensures present <==> f in old(body) && old(body)[f].Number?
      ensures cap == Cap(body, f)
    {
      present, cap := false, 0;
      if f in body && body[f].Number? {
        present := true;
        var v := if body[f].whole.Some? && body[f].whole.value > 0 then body[f].whole.value else 0;
        if most > 0 && (v == 0 || v > most) {
          v := most;
          body := body[f := Number(Some(v))];
        }
        cap := v;
      }
    }

    /** The loop over the two names, and the cap in force. */
    method ClampMaxTokens(most: int) returns (inForce: nat)
      modifies this`body
      ensures body == Clamp(old(body), most) && inForce == Smallest(body)
    {
      NamesDiffer();
      var first, a := ClampOne(MAX, most);
      var second, b := ClampOne(COMPLETION, most);
      inForce := if a == 0 then b else if b == 0 then a else Min(a, b);
      if !first && !second && most > 0 {
        body := body[MAX := Number(Some(most))];
        inForce := most;
      }
    }

    method SetMaxTok(n: int)
      modifies this
      ensures Abs() == Shaped(SetCap(old(body), n), n)
    {
      NamesDiffer();
      var v := Number(Some(n));
      var done := false;
      if MAX in body {
        body := body[MAX := v];
        done := true;
      }
      if COMPLETION in body {
        body := body[COMPLETION := v];
        done := true;
      }
      if !done {
        body := body[MAX := v];
      }
      maxTok := n;
    }

    method FitContextTo(prompt: int, eff: int) returns (ok: bool)
      modifies this
      ensures ok <==> FitContext(old(Abs()), prompt, eff).Some?
      ensures Abs() == if ok then FitContext(old(Abs()), prompt, eff).value else old(Abs())
    {
      if eff == 0 {
        return true;
      }
      if prompt > eff {
        return false;
      }
      if maxTok > 0 && prompt + maxTok > eff {
        SetMaxTok(Max(eff - prompt, L.MIN_OUTPUT));
      }
      return true;
    }

    /** `checkBudgets` after the context: reserve on the key, and write the cap granted into the body. */
    method Reserve(st: K.KeyState, a: L.Admission, now: int, lim: L.KeyLimits, prompt: int, chat: bool)
      returns (r: L.Result<(L.Admission, int)>)
      modifies this, st
      ensures (st.Abs(), r) == L.Reserve(old(st.Abs()), a, now, lim, prompt, Asked(old(Abs()), chat))
      ensures Abs() == if r.Granted? then Fitted(old(Abs()), r.value.1) else old(Abs())
    {
      var out := if chat && maxTok == 0 then -1 else maxTok;
      r := st.Reserve(a, now, lim, prompt, out);
      if r.Granted? && r.value.1 > 0 && r.value.1 != maxTok {
        SetMaxTok(r.value.1);
      }
    }
  }
}
