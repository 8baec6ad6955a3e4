/**
 A destination's queue and the requests around it, as a concurrent step system. What a mutex guards
 is one step; what happens between - a channel closed under a waiter that is just giving up, a
 waiter woken but not yet resumed - are states of their own. Requests are numbered as they enter.
 The cap is read anew at every step that needs it.
 */
module Queue {
  import opened Prelude
  import opened Outcomes

  /** What the mutex guards: slots taken, and who waits, oldest first. */
  datatype Line = Line(inFlight: int, waiters: seq<nat>)

  /** Where one request is; `Leaving` has decided to go and not yet said so under the mutex. */
  datatype Phase = Waiting | Leaving | Holding | Gone(how: Outcome)

  /** `closed` are the channels through which a slot was handed over; `grants` who got one, in order. */
  datatype Sys = Sys(line: Line, phase: map<nat, Phase>, closed: set<nat>, next: nat, grants: seq<nat>)

  datatype Event =
    | Enter(cap: int)
    | Wake(id: nat, left: bool)
    | GiveUp(id: nat)
    | Depart(id: nat, cap: int)
    | Release(id: nat, cap: int)

  const Empty := Sys(Line(0, []), map[], {}, 0, [])

  /** `limit`: the cap, never below one. */
  function Limit(cap: int): int {
    Max(1, cap)
  }

  /** `fill`: hand slots over, oldest first, while there is room; who got one comes back. */
  function Fill(q: Line, limit: int): (Line, seq<nat>)
    decreases |q.waiters|
  {
    if q.waiters == [] || q.inFlight >= limit then (q, [])
    else
      var (r, more) := Fill(Line(q.inFlight + 1, q.waiters[1..]), limit);
      (r, [q.waiters[0]] + more)
  }

  function Remove(s: seq<nat>, id: nat): seq<nat> {
    if s == [] then [] else if s[0] == id then s[1..] else [s[0]] + Remove(s[1..], id)
  }

  /** The first critical section of `acquire`. */
  function Entering(q: Line, id: nat, cap: int): (Line, seq<nat>, Phase) {
    var (f, granted) := Fill(q, Limit(cap));
    if f.inFlight < Limit(cap) then (f.(inFlight := f.inFlight + 1), granted, Holding)
    else if |f.waiters| >= Max(2, 2 * Limit(cap)) then (f, granted, Gone(Rejected))
    else (f.(waiters := f.waiters + [id]), granted, Waiting)
  }

  /** The second: a waiter that gave up takes itself out, or passes on the slot it was just handed. */
  function Departing(q: Line, id: nat, cap: int): (Line, seq<nat>) {
    if id in q.waiters then (q.(waiters := Remove(q.waiters, id)), [])
    else Fill(q.(inFlight := q.inFlight - 1), Limit(cap))
  }

  function Releasing(q: Line, cap: int): (Line, seq<nat>) {
    Fill(q.(inFlight := q.inFlight - 1), Limit(cap))
  }

  predicate Enabled(s: Sys, e: Event) {
    match e
    case Enter(_) => true
    case Wake(id, _) => id in s.phase && s.phase[id] == Waiting && id in s.closed
    case GiveUp(id) => id in s.phase && s.phase[id] == Waiting
    case Depart(id, _) => id in s.phase && s.phase[id] == Leaving
    case Release(id, _) => id in s.phase && s.phase[id] == Holding
  }

  function Elems(ids: seq<nat>): set<nat> {
    set id <- ids
  }

  /** The channels of those just granted a slot are closed. */
  function Granting(s: Sys, line: Line, granted: seq<nat>): Sys {
    s.(line := line, closed := s.closed + Elems(granted), grants := s.grants + granted)
  }

  function Do(s: Sys, e: Event): Sys
    requires Enabled(s, e)
  {
    match e
    case Enter(cap) =>
      var (line, granted, phase) := Entering(s.line, s.next, cap);
      var m := Granting(s, line, granted);
      m.(phase := m.phase[s.next := phase], next := s.next + 1,
         grants := if phase == Holding then m.grants + [s.next] else m.grants)
    case Wake(id, left) => s.(phase := s.phase[id := if left then Leaving else Holding])
    case GiveUp(id) => s.(phase := s.phase[id := Leaving])
    case Depart(id, cap) =>
      var (line, granted) := Departing(s.line, id, cap);
      Granting(s.(phase := s.phase[id := Gone(QueueLost)]), line, granted)
    case Release(id, cap) =>
      var (line, granted) := Releasing(s.line, cap);
      Granting(s.(phase := s.phase[id := Gone(Served)]), line, granted)
  }

  predicate Runs(s: Sys, es: seq<Event>)
    decreases es
  {
    es == [] || (Enabled(s, es[0]) && Runs(Do(s, es[0]), es[1..]))
  }

  function Run(s: Sys, es: seq<Event>): Sys
    requires Runs(s, es)
    decreases es
  {
    if es == [] then s else Run(Do(s, es[0]), es[1..])
  }

  // ---- what fill does ----

  /**
   `fill` hands slots to a prefix of the line, one each, takes no slot at or above the limit, and
   stops only when the line is empty or the slots are. Nothing else meets these clauses.
   */
  lemma {:induction false} FillExact(q: Line, limit: int)
    ensures var (r, granted) := Fill(q, limit);
            && granted + r.waiters == q.waiters
            && r.inFlight == q.inFlight + |granted|
            && (granted != [] ==> r.inFlight <= limit)
            && (r.waiters != [] ==> r.inFlight >= limit)
    decreases |q.waiters|
  {
    if q.waiters != [] && q.inFlight < limit {
      var rest := Line(q.inFlight + 1, q.waiters[1..]);
      FillExact(rest, limit);
      var (r, more) := Fill(rest, limit);
      assert Fill(q, limit) == (r, [q.waiters[0]] + more);
      assert q.waiters == [q.waiters[0]] + rest.waiters;
      Assoc([q.waiters[0]], more, r.waiters);
    }
  }

  ghost predicate Increasing(s: seq<nat>) {
    forall i, j :: 0 <= i < j < |s| ==> s[i] < s[j]
  }

  lemma IncreasingJoin(a: seq<nat>, b: seq<nat>)
    requires Increasing(a) && Increasing(b)
    requires forall x <- a, y <- b :: x < y
    ensures Increasing(a + b)
  {
    forall i, j | 0 <= i < j < |a + b| ensures (a + b)[i] < (a + b)[j] {
      if i < |a| && |a| <= j {
        assert a[i] in a && b[j - |a|] in b;
      }
    }
  }

  lemma IncreasingSplit(a: seq<nat>, b: seq<nat>)
    requires Increasing(a + b)
    ensures Increasing(a) && Increasing(b)
    ensures forall x <- a, y <- b :: x < y
  {
    forall i, j | 0 <= i < j < |a| ensures a[i] < a[j] {
      assert (a + b)[i] < (a + b)[j];
    }
    forall i, j | 0 <= i < j < |b| ensures b[i] < b[j] {
      assert (a + b)[|a| + i] < (a + b)[|a| + j];
    }
    forall x, y | x in a && y in b ensures x < y {
      var i :| 0 <= i < |a| && a[i] == x;
      var j :| 0 <= j < |b| && b[j] == y;
      assert (a + b)[i] < (a + b)[|a| + j];
    }
  }

  lemma {:induction false} RemoveExact(s: seq<nat>, id: nat)
    requires Increasing(s)
    ensures Increasing(Remove(s, id))
    ensures forall x :: x in Remove(s, id) <==> x in s && x != id
    ensures |Remove(s, id)| == |s| - (if id in s then 1 else 0)
  {
    if s != [] {
      var h, t := [s[0]], s[1..];
      assert s == h + t;
      IncreasingSplit(h, t);
      RemoveExact(t, id);
      if s[0] != id {
        IncreasingJoin(h, Remove(t, id));
      }
    }
  }

  // ---- the invariant ----

  /** Who has a slot: the holders, and those handed one who have not resumed. */
  predicate Owns(s: Sys, id: nat)
    requires id in s.phase
  {
    s.phase[id] == Holding || (id in s.closed && s.phase[id] in {Waiting, Leaving})
  }

  function Owners(s: Sys): set<nat> {
    set id <- s.phase | Owns(s, id)
  }

  ghost predicate InLine(s: Sys) {
    && Increasing(s.line.waiters)
    && (forall id: nat :: id in s.phase <==> id < s.next)
    && (forall id <- s.closed :: id < s.next)
    && (forall id <- s.line.waiters :: id < s.next)
    && (forall id <- s.phase :: id in s.line.waiters <==> s.phase[id] in {Waiting, Leaving} && id !in s.closed)
  }

  /** Grants follow arrival, and whoever still waits arrived after everyone granted so far. */
  ghost predicate InTurn(s: Sys) {
    && Increasing(s.grants)
    && (forall g <- s.grants :: g < s.next)
    && (forall g <- s.grants, w <- s.line.waiters :: g < w)
  }

  ghost predicate Inv(s: Sys) {
    InLine(s) && InTurn(s) && Granted(s) && s.line.inFlight == |Owners(s)|
  }

  /** Nobody has a slot that was not granted it. */
  ghost predicate Granted(s: Sys) {
    forall id <- s.phase :: Owns(s, id) ==> id in s.grants
  }

  // ---- sets of owners, one step at a time ----

  lemma DisjointSize(a: set<nat>, b: set<nat>)
    requires a !! b
    ensures |a + b| == |a| + |b|
  {
  }

  lemma {:induction false} SeqSetSize(s: seq<nat>)
    requires Increasing(s)
    ensures |Elems(s)| == |s|
  {
    if s != [] {
      var h, t := [s[0]], s[1..];
      assert s == h + t;
      IncreasingSplit(h, t);
      SeqSetSize(t);
      assert s[0] in h && s[0] !in t;
      assert Elems(s) == {s[0]} + Elems(t);
      DisjointSize({s[0]}, Elems(t));
    }
  }

  lemma GrantingSplits(s: Sys, limit: int)
    requires Increasing(s.line.waiters)
    ensures var (line, granted) := Fill(s.line, limit);
            && Increasing(line.waiters) && Increasing(granted)
            && (forall id :: id in s.line.waiters <==> id in granted || id in line.waiters)
            && (forall id <- granted, w <- line.waiters :: id < w)
            && (forall id <- granted :: id !in line.waiters)
  {
    var (line, granted) := Fill(s.line, limit);
    FillExact(s.line, limit);
    IncreasingSplit(granted, line.waiters);
    forall id ensures id in s.line.waiters <==> id in granted || id in line.waiters {
      assert s.line.waiters == granted + line.waiters;
    }
  }

  lemma OwnersGrow(s: Sys, m: Sys, granted: seq<nat>)
    requires m.phase == s.phase && m.closed == s.closed + Elems(granted)
    requires forall id <- granted :: id in s.phase && s.phase[id] in {Waiting, Leaving} && id !in s.closed
    ensures Owners(m) == Owners(s) + Elems(granted) && Owners(s) !! Elems(granted)
  {
    forall id | id in s.phase ensures Owns(m, id) <==> Owns(s, id) || id in granted {
    }
  }

  /** Handing slots to the head of the line: the granted become owners, and nobody else changes. */
  lemma GrantingOwners(s: Sys, limit: int)
    requires InLine(s)
    ensures var (line, granted) := Fill(s.line, limit);
            var m := Granting(s, line, granted);
            Owners(m) == Owners(s) + Elems(granted) && |Owners(m)| == |Owners(s)| + |granted|
  {
    var (line, granted) := Fill(s.line, limit);
    GrantingSplits(s, limit);
    forall id | id in granted
      ensures id in s.phase && s.phase[id] in {Waiting, Leaving} && id !in s.closed
    {
      assert id in s.line.waiters;
    }
    OwnersGrow(s, Granting(s, line, granted), granted);
    SeqSetSize(granted);
    DisjointSize(Owners(s), Elems(granted));
  }

  lemma GrantingLine(s: Sys, limit: int)
    requires InLine(s)
    ensures var (line, granted) := Fill(s.line, limit); InLine(Granting(s, line, granted))
  {
    var (line, granted) := Fill(s.line, limit);
    var m := Granting(s, line, granted);
    GrantingSplits(s, limit);
    forall id | id in s.phase
      ensures id in line.waiters <==> s.phase[id] in {Waiting, Leaving} && id !in m.closed
    {
      assert id in s.line.waiters <==> id in granted || id in line.waiters;
    }
  }

  lemma GrantingTurn(s: Sys, limit: int)
    requires InLine(s) && InTurn(s)
    ensures var (line, granted) := Fill(s.line, limit); InTurn(Granting(s, line, granted))
  {
    var (line, granted) := Fill(s.line, limit);
    GrantingSplits(s, limit);
    IncreasingJoin(s.grants, granted);
  }

  /** Two sets that differ in one element at most. */
  lemma SizeBut(a: set<nat>, b: set<nat>, id: nat)
    requires a - {id} == b - {id}
    ensures |b| == |a| - (if id in a then 1 else 0) + (if id in b then 1 else 0)
  {
    assert id in a ==> a == (a - {id}) + {id};
    assert id !in a ==> a == a - {id};
    assert id in b ==> b == (b - {id}) + {id};
    assert id !in b ==> b == b - {id};
  }

  /** One request moves: it loses its slot, or gains one. */
  lemma OwnersMove(s: Sys, id: nat, phase: Phase)
    ensures var m := s.(phase := s.phase[id := phase]);
            |Owners(m)| == |Owners(s)| - (if id in Owners(s) then 1 else 0) + (if Owns(m, id) then 1 else 0)
  {
    var m := s.(phase := s.phase[id := phase]);
    forall x | x in s.phase && x != id ensures Owns(m, x) <==> Owns(s, x) {
    }
    SizeBut(Owners(s), Owners(m), id);
  }

  // ---- what every step keeps ----

  /** A request that gives its slot up, before `fill`. */
  lemma FreeingKeeps(s: Sys, id: nat, how: Outcome)
    requires Inv(s) && id in s.phase && Owns(s, id)
    ensures var m := s.(phase := s.phase[id := Gone(how)], line := s.line.(inFlight := s.line.inFlight - 1));
            Inv(m)
  {
    OwnersMove(s, id, Gone(how));
    var t := s.(phase := s.phase[id := Gone(how)]);
    assert Owners(t.(line := s.line.(inFlight := s.line.inFlight - 1))) == Owners(t);
  }

  lemma FillKeeps(s: Sys, limit: int)
    requires Inv(s)
    ensures var (line, granted) := Fill(s.line, limit); Inv(Granting(s, line, granted))
  {
    FillExact(s.line, limit);
    GrantingOwners(s, limit);
    GrantingLine(s, limit);
    GrantingTurn(s, limit);
  }

  /** The rest of the first critical section, once the line has been filled. */
  function Joining(s: Sys, cap: int): Sys {
    var id := s.next;
    if s.line.inFlight < Limit(cap) then
      s.(line := s.line.(inFlight := s.line.inFlight + 1), phase := s.phase[id := Holding], next := id + 1,
         grants := s.grants + [id])
    else if |s.line.waiters| >= Max(2, 2 * Limit(cap)) then
      s.(phase := s.phase[id := Gone(Rejected)], next := id + 1)
    else
      s.(line := s.line.(waiters := s.line.waiters + [id]), phase := s.phase[id := Waiting], next := id + 1)
  }

  /** A newcomer is an owner exactly when it holds. */
  lemma NewcomerOwners(s: Sys, m: Sys, phase: Phase)
    requires s.next !in s.phase && s.next !in s.closed
    requires m.phase == s.phase[s.next := phase] && m.closed == s.closed
    ensures |Owners(m)| == |Owners(s)| + (if phase == Holding then 1 else 0)
  {
    var id := s.next;
    forall x | x in s.phase ensures Owns(m, x) <==> Owns(s, x) {
    }
    assert Owners(m) == Owners(s) + (if phase == Holding then {id} else {});
    if phase == Holding {
      DisjointSize(Owners(s), {id});
    }
  }

  lemma NewcomerTurn(s: Sys, cap: int)
    requires InLine(s) && InTurn(s) && (s.line.waiters != [] ==> s.line.inFlight >= Limit(cap))
    ensures InTurn(Joining(s, cap))
  {
    IncreasingJoin(s.grants, [s.next]);
  }

  lemma NewcomerLine(s: Sys, cap: int)
    requires InLine(s)
    ensures InLine(Joining(s, cap))
  {
    var m := Joining(s, cap);
    IncreasingJoin(s.line.waiters, [s.next]);
    forall id | id in m.phase
      ensures id in m.line.waiters <==> m.phase[id] in {Waiting, Leaving} && id !in m.closed
    {
      assert id in m.line.waiters <==> id in s.line.waiters || (id == s.next && m.phase[id] == Waiting);
    }
  }

  /** A newcomer, after `fill`. */
  lemma JoinKeeps(s: Sys, cap: int)
    requires Inv(s) && (s.line.waiters != [] ==> s.line.inFlight >= Limit(cap))
    ensures Inv(Joining(s, cap))
  {
    NewcomerLine(s, cap);
    NewcomerTurn(s, cap);
    NewcomerOwners(s, Joining(s, cap), Joining(s, cap).phase[s.next]);
  }

  lemma EnterKeeps(s: Sys, cap: int)
    requires Inv(s)
    ensures Inv(Do(s, Enter(cap)))
  {
    var (line, granted) := Fill(s.line, Limit(cap));
    FillIsFull(s.line, Limit(cap), line, granted);
    FillKeeps(s, Limit(cap));
    JoinKeeps(Granting(s, line, granted), cap);
    EnterShape(s, cap, line, granted);
  }

  lemma FillIsFull(q: Line, limit: int, line: Line, granted: seq<nat>)
    requires (line, granted) == Fill(q, limit)
    ensures line.waiters != [] ==> line.inFlight >= limit
  {
    FillExact(q, limit);
  }

  /** An arrival is a hand-over and then the newcomer. */
  lemma EnterShape(s: Sys, cap: int, line: Line, granted: seq<nat>)
    requires (line, granted) == Fill(s.line, Limit(cap))
    ensures Do(s, Enter(cap)) == Joining(Granting(s, line, granted), cap)
  {
  }

  lemma MoveKeeps(s: Sys, id: nat, phase: Phase)
    requires Inv(s) && id in s.phase && s.phase[id] == Waiting
    requires phase == Leaving || (phase == Holding && id in s.closed)
    ensures Inv(s.(phase := s.phase[id := phase]))
  {
    OwnersMove(s, id, phase);
  }

  lemma DepartKeeps(s: Sys, id: nat, cap: int)
    requires Inv(s) && Enabled(s, Depart(id, cap))
    ensures Inv(Do(s, Depart(id, cap)))
  {
    if id in s.line.waiters {
      RemoveExact(s.line.waiters, id);
      OwnersMove(s, id, Gone(QueueLost));
      var m := Do(s, Depart(id, cap));
      assert Owners(m) == Owners(s.(phase := s.phase[id := Gone(QueueLost)]));
      assert m.grants == s.grants;
    } else {
      FreeingKeeps(s, id, QueueLost);
      FillKeeps(s.(phase := s.phase[id := Gone(QueueLost)], line := s.line.(inFlight := s.line.inFlight - 1)),
                Limit(cap));
    }
  }

  /** Every step keeps the invariant, at any cap. */
  lemma StepKeeps(s: Sys, e: Event)
    requires Inv(s) && Enabled(s, e)
    ensures Inv(Do(s, e))
  {
    match e
    case Enter(cap) => EnterKeeps(s, cap);
    case Wake(id, left) => MoveKeeps(s, id, if left then Leaving else Holding);
    case GiveUp(id) => MoveKeeps(s, id, Leaving);
    case Depart(id, cap) => DepartKeeps(s, id, cap);
    case Release(id, cap) =>
      FreeingKeeps(s, id, Served);
      FillKeeps(s.(phase := s.phase[id := Gone(Served)], line := s.line.(inFlight := s.line.inFlight - 1)), Limit(cap));
  }

  lemma {:induction false} RunKeeps(s: Sys, es: seq<Event>)
    requires Inv(s) && Runs(s, es)
    ensures Inv(Run(s, es))
    decreases es
  {
    if es != [] {
      StepKeeps(s, es[0]);
      RunKeeps(Do(s, es[0]), es[1..]);
    }
  }
}
