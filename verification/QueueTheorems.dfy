/**
 What the queue promises over every run of arrivals, hand-overs, departures and releases, in any
 interleaving, under a cap that changes from step to step.
 */
module QueueTheorems {
  import opened Prelude
  import opened Outcomes
  import opened Queue

  /**
   Slots in use are those of the holders and of the waiters handed one who have not resumed. None
   is lost or made up, none stays with a request that has gone.
   */
  lemma SlotsConserved(es: seq<Event>)
    requires Runs(Empty, es)
    ensures var s := Run(Empty, es);
            && s.line.inFlight == |Owners(s)|
            && (forall id <- s.phase :: s.phase[id].Gone? ==> id !in Owners(s) && id !in s.line.waiters)
            && ((forall id <- s.phase :: s.phase[id].Gone?) ==> s.line == Line(0, []))
  {
    RunKeeps(Empty, es);
    IdleIsEmpty(Run(Empty, es));
  }

  lemma IdleIsEmpty(s: Sys)
    requires Inv(s)
    ensures (forall id <- s.phase :: s.phase[id].Gone?) ==> s.line == Line(0, [])
  {
    var q := s.line.waiters;
    assert q != [] ==> q[0] in q && !s.phase[q[0]].Gone?;
    if forall id <- s.phase :: s.phase[id].Gone? {
      assert Owners(s) == {};
    }
  }

  /**
   Slots are granted in the order of arrival, at most once each, and no request is granted one
   while an earlier one still waits.
   */
  lemma FirstComeFirstServed(es: seq<Event>)
    requires Runs(Empty, es)
    ensures var s := Run(Empty, es);
            && (forall i, j :: 0 <= i < j < |s.grants| ==> s.grants[i] < s.grants[j])
            && (forall g <- s.grants, w <- s.line.waiters :: g < w)
            && (forall id <- Owners(s) :: id in s.grants)
  {
    RunKeeps(Empty, es);
  }

  function CapOf(e: Event): int {
    match e
    case Enter(cap) => cap
    case Depart(_, cap) => cap
    case Release(_, cap) => cap
    case _ => 0
  }

  /**
   A slot is granted only below the cap read in the same critical section, and the line grows only
   to twice that cap, or two. After an arrival or a release nobody waits while the cap has room.
   */
  lemma CapHolds(s: Sys, e: Event)
    requires Inv(s) && Enabled(s, e)
    ensures var m := Do(s, e);
            var limit := Limit(CapOf(e));
            && |s.grants| <= |m.grants| && m.grants[..|s.grants|] == s.grants
            && (m.grants != s.grants ==> m.line.inFlight <= limit)
            && (m.line.inFlight > s.line.inFlight ==> m.grants != s.grants)
            && (|m.line.waiters| > |s.line.waiters| ==>
                   |m.line.waiters| <= Max(2, 2 * limit) && m.line.inFlight >= limit)
            && (e.Enter? || e.Release? ==> m.line.waiters == [] || m.line.inFlight >= limit)
  {
    match e
    case Enter(cap) => EnterHolds(s, cap);
    case Wake(_, _) =>
    case GiveUp(_) =>
    case Depart(id, cap) =>
      RemoveExact(s.line.waiters, id);
      HandOverHolds(s.line.(inFlight := s.line.inFlight - 1), s.grants, Limit(cap));
    case Release(_, cap) => HandOverHolds(s.line.(inFlight := s.line.inFlight - 1), s.grants, Limit(cap));
  }

  lemma HandOverHolds(q: Line, grants: seq<nat>, limit: int)
    ensures var (line, granted) := Fill(q, limit);
            && (grants + granted)[..|grants|] == grants && |line.waiters| <= |q.waiters|
            && (grants + granted == grants ==> granted == [] && line.inFlight == q.inFlight)
            && (granted != [] ==> line.inFlight <= limit)
            && (line.waiters == [] || line.inFlight >= limit)
  {
    FillExact(q, limit);
    var granted := Fill(q, limit).1;
    assert |grants + granted| == |grants| + |granted|;
  }

  lemma EnterHolds(s: Sys, cap: int)
    requires Inv(s)
    ensures var m := Do(s, Enter(cap));
            var limit := Limit(cap);
            && |s.grants| <= |m.grants| && m.grants[..|s.grants|] == s.grants
            && (m.grants != s.grants ==> m.line.inFlight <= limit)
            && (m.line.inFlight > s.line.inFlight ==> m.grants != s.grants)
            && (|m.line.waiters| > |s.line.waiters| ==>
                  |m.line.waiters| <= Max(2, 2 * limit) && m.line.inFlight >= limit)
            && (m.line.waiters == [] || m.line.inFlight >= limit)
  {
    var (line, granted) := Fill(s.line, Limit(cap));
    HandOverHolds(s.line, s.grants, Limit(cap));
    EnterShape(s, cap, line, granted);
  }

  /** What an arrival comes to: a slot, a refusal, or the last place in the line. */
  datatype Fate = GetsSlot | TurnedAway | Waits

  /** From the line it finds: those waiting are served first, and only a full line turns anybody away. */
  function FateOf(q: Line, limit: int): Fate {
    var room := Max(0, limit - q.inFlight);
    if |q.waiters| < room then GetsSlot
    else if |q.waiters| - room >= Max(2, 2 * limit) then TurnedAway
    else Waits
  }

  /**
   A newcomer gets a slot exactly when one is left after all who wait have theirs; it is refused on the
   spot exactly when none is left and as many would still be waiting as may; and otherwise it waits,
   behind everybody else. Nobody else's request is decided by that.
   */
  lemma NewcomerFate(s: Sys, cap: int)
    requires Inv(s)
    ensures var m := Do(s, Enter(cap));
            var limit := Limit(cap);
            var fate := FateOf(s.line, limit);
            && s.next !in s.phase && s.next in m.phase
            && (forall id :: id in s.phase ==> id in m.phase && m.phase[id] == s.phase[id])
            && (fate == GetsSlot ==> m.phase[s.next] == Holding && s.next in m.grants && m.line.waiters == [])
            && (fate == TurnedAway ==>
                  && m.phase[s.next] == Gone(Rejected) && s.next !in m.grants && s.next !in m.line.waiters
                  && m.line.inFlight >= limit && |m.line.waiters| >= Max(2, 2 * limit))
            && (fate == Waits ==>
                  && m.phase[s.next] == Waiting && m.line.waiters != []
                  && m.line.waiters[|m.line.waiters| - 1] == s.next && m.line.inFlight >= limit)
  {
    var (line, granted) := Fill(s.line, Limit(cap));
    FillExact(s.line, Limit(cap));
    FillLeaves(s.line, Limit(cap), line, granted);
    EnterShape(s, cap, line, granted);
    forall g <- granted ensures g < s.next {
      assert g in s.line.waiters;
    }
  }

  lemma FillLeaves(q: Line, limit: int, line: Line, granted: seq<nat>)
    requires (line, granted) == Fill(q, limit)
    ensures |granted| == Min(|q.waiters|, Max(0, limit - q.inFlight))
    ensures forall w <- line.waiters :: w in q.waiters
    ensures forall g <- granted :: g in q.waiters
  {
    FillExact(q, limit);
    assert |q.waiters| == |granted| + |line.waiters|;
  }

  /**
   A waiter that gives up exactly as it is handed a slot passes it on to the oldest waiter when the
   cap has room for one, and otherwise returns it; one that gives up before that only leaves the line.
   */
  lemma DepartureLosesNothing(s: Sys, id: nat, cap: int)
    requires Inv(s) && Enabled(s, Depart(id, cap))
    ensures var m := Do(s, Depart(id, cap));
            var q := s.line.waiters;
            && (id !in s.closed ==> m.line.inFlight == s.line.inFlight && m.grants == s.grants && id !in m.line.waiters)
            && (id in s.closed && q != [] && s.line.inFlight <= Limit(cap) ==>
                  m.line.inFlight >= s.line.inFlight && q[0] in m.closed && q[0] in m.grants)
            && (id in s.closed && (q == [] || s.line.inFlight > Limit(cap)) ==>
                  m.line == Line(s.line.inFlight - 1, q) && m.grants == s.grants)
  {
    RemoveExact(s.line.waiters, id);
    var freed := s.line.(inFlight := s.line.inFlight - 1);
    FillExact(freed, Limit(cap));
    var (line, granted) := Fill(freed, Limit(cap));
    if id in s.closed && s.line.waiters != [] && s.line.inFlight <= Limit(cap) {
      assert granted[0] == s.line.waiters[0];
    }
  }

  /** A request that has decided to leave never holds a slot again. */
  lemma {:induction false} LeftForGood(s: Sys, es: seq<Event>, id: nat)
    requires Inv(s) && Runs(s, es) && id in s.phase
    requires s.phase[id] == Leaving || s.phase[id].Gone?
    ensures id in Run(s, es).phase
    ensures var p := Run(s, es).phase[id];
            (p == Leaving || p == Gone(QueueLost) || p == s.phase[id]) && (s.phase[id].Gone? ==> p == s.phase[id])
    decreases es
  {
    if es != [] {
      StepKeeps(s, es[0]);
      LeftForGood(Do(s, es[0]), es[1..], id);
    }
  }

  // ---- under a cap that stays the same ----

  ghost predicate Steady(s: Sys, cap: int) {
    && s.line.inFlight <= Limit(cap)
    && |s.line.waiters| <= Max(2, 2 * Limit(cap))
    && (s.line.waiters != [] ==> s.line.inFlight == Limit(cap))
  }

  lemma SteadyStep(s: Sys, e: Event, cap: int)
    requires Inv(s) && Steady(s, cap) && Enabled(s, e) && (e.Wake? || e.GiveUp? || CapOf(e) == cap)
    ensures Steady(Do(s, e), cap)
  {
    CapHolds(s, e);
    if e.Depart? {
      RemoveExact(s.line.waiters, e.id);
      FillExact(s.line.(inFlight := s.line.inFlight - 1), Limit(cap));
    } else if e.Release? {
      FillExact(s.line.(inFlight := s.line.inFlight - 1), Limit(cap));
    } else if e.Enter? {
      FillExact(s.line, Limit(cap));
    }
  }

  /** Under a fixed cap nobody waits while a slot is free, and the cap is never exceeded. */
  lemma {:induction false} NobodyWaitsForNothing(s: Sys, es: seq<Event>, cap: int)
    requires Inv(s) && Steady(s, cap) && Runs(s, es)
    requires forall e <- es :: e.Wake? || e.GiveUp? || CapOf(e) == cap
    ensures Steady(Run(s, es), cap)
    decreases es
  {
    if es != [] {
      SteadyStep(s, es[0], cap);
      StepKeeps(s, es[0]);
      NobodyWaitsForNothing(Do(s, es[0]), es[1..], cap);
    }
  }
}
