/**
 A key's image jobs from their batch to their settlement: the run manager starts them one at a time,
 stops them, lets go of their holds and shuts down, while the key's day holds, checks and charges.
 Jobs of other keys go through the same manager; of those there is only that one of them runs.
 */
module ImageRuns {
  import opened Prelude
  import I = Images
  import G = LimitsLedger
  import L = Limits

  /** The day, the jobs with a worker, those whose release has not been called, and whether it is shut down. */
  datatype Manager = Manager(day: I.Day, active: set<nat>, releases: set<nat>, closed: bool)

  datatype Event =
    | Submit(t: int, rows: seq<nat>, stored: bool)
    | Schedule(id: nat)
    | Check(id: nat)
    | Settling(t: int, id: nat, result: I.Result, suspect: bool)
    | Returned(id: nat)
    | Stop(id: nat)
    | Close

  /** `release`: the hold goes with the first call. */
  function Released(m: Manager, id: nat): Manager {
    if id in m.releases
    then m.(releases := m.releases - {id}, day := m.day.(holds := m.day.holds - {id}))
    else m
  }

  /** `SubmitBatch`: nothing after a shutdown; what was held goes back when the store does not take the batch. */
  function Submitted(m: Manager, t: int, rows: seq<nat>, stored: bool, daily: int): (Manager, bool) {
    if m.closed then (m, false)
    else
      var (d, ok) := I.Hold(m.day, t, daily, rows);
      if !ok then (m.(day := d), false)
      else if !stored then (m.(day := d.(holds := d.holds - I.Ids(rows))), false)
      else (m.(day := d, releases := m.releases + I.Ids(rows)), true)
  }

  /** `schedule`, its choice being any job. */
  function Scheduled(m: Manager, id: nat): Manager {
    if m.closed || m.active != {} then m else m.(active := {id})
  }

  /** `reserveImage`. */
  function Checked(m: Manager, id: nat): Manager {
    if id in m.day.holds then m.(day := m.day.(working := m.day.working + {id})) else m
  }

  /** A worker that has returned, or that a shutdown no longer waits for. */
  function Exited(m: Manager, id: nat): Manager {
    if id in m.active then Released(m.(active := m.active - {id}), id) else m
  }

  /** `stopTerminal`: a job with a worker is only told to stop. */
  function Stopped(m: Manager, id: nat): Manager {
    if id in m.active then m else Released(m, id)
  }

  /** `Close`: every release that has not been called. */
  function Closed(m: Manager): Manager {
    m.(closed := true, releases := {}, day := m.day.(holds := m.day.holds - m.releases))
  }

  /**
   Job ids are new. A job is checked and settled by its worker, which returns after it has settled
   what it found to be held; a shutdown need not wait for that. Only what was checked is dispatched.
   */
  ghost predicate Enabled(m: Manager, e: Event) {
    match e
    case Submit(_, rows, _) => forall id <- rows :: id !in m.day.holds && id !in m.day.working
    case Check(id) => id in m.active || m.closed
    case Settling(_, id, result, _) => (id in m.active || m.closed) && (result.dispatched ==> id in m.day.working)
    case Returned(id) => id !in m.day.working || m.closed
    case _ => true
  }

  function Do(m: Manager, e: Event, daily: int): Manager {
    match e
    case Submit(t, rows, stored) => Submitted(m, t, rows, stored, daily).0
    case Schedule(id) => Scheduled(m, id)
    case Check(id) => Checked(m, id)
    case Settling(t, id, result, suspect) => m.(day := I.Settle(m.day, t, id, result, suspect))
    case Returned(id) => Exited(m, id)
    case Stop(id) => Stopped(m, id)
    case Close => Closed(m)
  }

  ghost predicate Runs(m: Manager, es: seq<Event>, daily: int)
    decreases es
  {
    es == [] || (Enabled(m, es[0]) && Runs(Do(m, es[0], daily), es[1..], daily))
  }

  function Run(m: Manager, es: seq<Event>, daily: int): Manager
    decreases es
  {
    if es == [] then m else Run(Do(m, es[0], daily), es[1..], daily)
  }

  /** What may still be charged today: what is held, and what was and has not settled. */
  function Owed(d: I.Day): set<nat> {
    d.holds + d.working
  }

  /** Today's images and those owed are within the limit, or on its day within the seed when that is more. */
  ghost predicate Fits(d: I.Day, daily: int, seedDay: int, seeded: int) {
    && d.today >= 0
    && (daily > 0 ==>
          && |Owed(d)| <= daily
          && d.today + |Owed(d)| <= Max(daily, if d.day == seedDay then seeded else 0))
  }

  /** One worker at a time; until a shutdown what was checked has its worker and its hold. */
  ghost predicate Tidy(m: Manager) {
    && |m.active| <= 1
    && m.day.holds <= m.releases
    && (if m.closed then m.day.holds == {} else m.day.working <= m.active && m.day.working <= m.day.holds)
  }

  lemma Shrinks(s: set<nat>, t: set<nat>)
    requires s <= t
    ensures |s| <= |t|
  {
    assert t == s + (t - s);
  }

  lemma {:induction false} IdsSmall(s: set<nat>, rows: seq<nat>)
    ensures |s + I.Ids(rows)| <= |s| + |rows|
  {
    if rows == [] {
      assert s + I.Ids(rows) == s;
    } else {
      IdsSmall(s, rows[1..]);
      assert rows == [rows[0]] + rows[1..];
      assert s + I.Ids(rows) == (s + I.Ids(rows[1..])) + {rows[0]};
    }
  }

  /** Owing less on the same day fits still. */
  lemma FitsLess(d: I.Day, e: I.Day, daily: int, seedDay: int, seeded: int)
    requires Fits(d, daily, seedDay, seeded)
    requires Owed(e) <= Owed(d) && e.day == d.day && e.today == d.today
    ensures Fits(e, daily, seedDay, seeded)
  {
    Shrinks(Owed(e), Owed(d));
  }

  lemma RollFits(d: I.Day, t: int, daily: int, seedDay: int, seeded: int)
    requires Fits(d, daily, seedDay, seeded)
    ensures Fits(I.Roll(d, t), daily, seedDay, seeded)
  {
  }

  lemma HoldFits(d: I.Day, t: int, daily: int, rows: seq<nat>, seedDay: int, seeded: int)
    requires Fits(d, daily, seedDay, seeded) && d.working <= d.holds
    ensures Fits(I.Hold(d, t, daily, rows).0, daily, seedDay, seeded)
  {
    RollFits(d, t, daily, seedDay, seeded);
    IdsSmall(d.holds, rows);
    assert d.holds + d.working == d.holds;
    assert (d.holds + I.Ids(rows)) + d.working == d.holds + I.Ids(rows);
  }

  lemma SettleFits(d: I.Day, t: int, id: nat, result: I.Result, suspect: bool, daily: int, seedDay: int, seeded: int)
    requires Fits(d, daily, seedDay, seeded) && (result.dispatched ==> id in d.working)
    ensures Fits(I.Settle(d, t, id, result, suspect), daily, seedDay, seeded)
  {
    RollFits(d, t, daily, seedDay, seeded);
    var e := I.Settle(d, t, id, result, suspect);
    assert Owed(e) == Owed(d) - {id};
    if id in Owed(d) {
      assert |Owed(e)| == |Owed(d)| - 1;
    } else {
      assert Owed(e) == Owed(d);
    }
  }

  lemma StepFits(m: Manager, e: Event, daily: int, seedDay: int, seeded: int)
    requires Tidy(m) && Fits(m.day, daily, seedDay, seeded) && Enabled(m, e)
    ensures Fits(Do(m, e, daily).day, daily, seedDay, seeded)
  {
    match e
    case Submit(t, rows, stored) =>
      if !m.closed {
        HoldFits(m.day, t, daily, rows, seedDay, seeded);
        var d := I.Hold(m.day, t, daily, rows).0;
        FitsLess(d, d.(holds := d.holds - I.Ids(rows)), daily, seedDay, seeded);
      }
    case Schedule(id) =>
    case Settling(t, id, result, suspect) => SettleFits(m.day, t, id, result, suspect, daily, seedDay, seeded);
    case _ =>
      OwesLess(m, e, daily);
      FitsLess(m.day, Do(m, e, daily).day, daily, seedDay, seeded);
  }

  lemma OwesLess(m: Manager, e: Event, daily: int)
    requires e.Check? || e.Returned? || e.Stop? || e.Close?
    ensures var n := Do(m, e, daily); Owed(n.day) <= Owed(m.day) && n.day.day == m.day.day && n.day.today == m.day.today
  {
  }

  lemma StepTidy(m: Manager, e: Event, daily: int)
    requires Tidy(m) && Enabled(m, e)
    ensures Tidy(Do(m, e, daily))
  {
    match e
    case Submit(t, rows, stored) => SubmitTidy(m, t, rows, stored, daily);
    case Returned(id) => Shrinks(m.active - {id}, m.active);
    case _ =>
  }

  lemma SubmitTidy(m: Manager, t: int, rows: seq<nat>, stored: bool, daily: int)
    requires Tidy(m) && Enabled(m, Submit(t, rows, stored))
    ensures Tidy(Submitted(m, t, rows, stored, daily).0)
  {
    var back := (m.day.holds + I.Ids(rows)) - I.Ids(rows);
    assert back == m.day.holds;
  }

  lemma {:induction false} RunKeeps(m: Manager, es: seq<Event>, daily: int, seedDay: int, seeded: int)
    requires Tidy(m) && Fits(m.day, daily, seedDay, seeded) && Runs(m, es, daily)
    ensures var r := Run(m, es, daily); Tidy(r) && Fits(r.day, daily, seedDay, seeded)
    decreases es
  {
    if es != [] {
      StepTidy(m, es[0], daily);
      StepFits(m, es[0], daily, seedDay, seeded);
      RunKeeps(Do(m, es[0], daily), es[1..], daily, seedDay, seeded);
    }
  }

  /**
   Over every run, whatever is stopped and whenever it is shut down, the day's images and all that may
   still be charged stay within the daily limit, or on the day of the seed within what it was seeded
   with when that is more. Until the shutdown a job that was checked keeps its hold till it settles, so
   that the holds are all that may be charged; and never more than one worker runs.
   */
  lemma DayHolds(d: I.Day, es: seq<Event>, daily: int)
    requires d.holds == {} && d.working == {} && d.today >= 0 && Runs(Manager(d, {}, {}, false), es, daily)
    ensures var r := Run(Manager(d, {}, {}, false), es, daily);
            && |r.active| <= 1
            && (!r.closed ==> r.day.working <= r.day.holds && r.day.working <= r.active)
            && (r.closed ==> r.day.holds == {})
            && (daily > 0 ==>
                  r.day.today + |Owed(r.day)| <= if r.day.day == d.day then Max(daily, d.today) else daily)
  {
    assert Owed(d) == {};
    RunKeeps(Manager(d, {}, {}, false), es, daily, d.day, d.today);
  }

  // ---- what the day's count is, and who is let in by it ----

  /** The images charged among some settlements of one day. */
  function Spent(past: seq<Event>, day: int): nat {
    if past == [] then 0
    else
      var e := past[|past| - 1];
      Spent(past[..|past| - 1], day)
      + (if e.Settling? && L.DayOf(e.t) == day then I.Charged(e.result, e.suspect) else 0)
  }

  /** The time of an event that looks at the clock, or of the last one before it that did. */
  function TimeOf(e: Event, before: int): int {
    match e
    case Submit(t, _, _) => t
    case Settling(t, _, _, _) => t
    case _ => before
  }

  /** The clock does not go back. */
  predicate InTime(es: seq<Event>, from: int)
    decreases es
  {
    es == [] || (from <= TimeOf(es[0], from) && InTime(es[1..], TimeOf(es[0], from)))
  }

  function LastTime(es: seq<Event>, from: int): int
    decreases es
  {
    if es == [] then from else LastTime(es[1..], TimeOf(es[0], from))
  }

  /** The count is the seed of its day and what was charged on it, and nothing was charged later. */
  ghost predicate Counts(d: I.Day, past: seq<Event>, now: int, seedDay: int, seeded: int) {
    && seedDay <= d.day <= L.DayOf(now)
    && d.today == (if d.day == seedDay then seeded else 0) + Spent(past, d.day)
    && (forall day: int :: day > d.day ==> Spent(past, day) == 0)
  }

  lemma SpentMore(past: seq<Event>, e: Event, day: int)
    ensures Spent(past + [e], day) == Spent(past, day)
              + (if e.Settling? && L.DayOf(e.t) == day then I.Charged(e.result, e.suspect) else 0)
  {
    assert (past + [e])[..|past|] == past;
  }

  lemma RollCounts(d: I.Day, past: seq<Event>, now: int, t: int, seedDay: int, seeded: int)
    requires Counts(d, past, now, seedDay, seeded) && now <= t
    ensures Counts(I.Roll(d, t), past, t, seedDay, seeded) && I.Roll(d, t).day == L.DayOf(t)
    ensures Counts(d, past, t, seedDay, seeded)
  {
    G.DayOrder(now, t);
  }

  lemma StepCounts(m: Manager, e: Event, daily: int, past: seq<Event>, now: int, seedDay: int, seeded: int)
    requires Counts(m.day, past, now, seedDay, seeded) && now <= TimeOf(e, now)
    ensures Counts(Do(m, e, daily).day, past + [e], TimeOf(e, now), seedDay, seeded)
  {
    RollCounts(m.day, past, now, TimeOf(e, now), seedDay, seeded);
    forall day: int
      ensures Spent(past + [e], day) == Spent(past, day)
                + (if e.Settling? && L.DayOf(e.t) == day then I.Charged(e.result, e.suspect) else 0)
    {
      SpentMore(past, e, day);
    }
  }

  lemma {:induction false} RunCounts(m: Manager, es: seq<Event>, daily: int, past: seq<Event>, now: int,
                                     seedDay: int, seeded: int)
    requires Counts(m.day, past, now, seedDay, seeded) && InTime(es, now)
    ensures Counts(Run(m, es, daily).day, past + es, LastTime(es, now), seedDay, seeded)
    decreases es
  {
    if es == [] {
      assert past + es == past;
    } else {
      var e := es[0];
      StepCounts(m, e, daily, past, now, seedDay, seeded);
      RunCounts(Do(m, e, daily), es[1..], daily, past + [e], TimeOf(e, now), seedDay, seeded);
      assert past + [e] + es[1..] == past + es;
    }
  }

  function SeedOn(d: I.Day, day: int): int {
    if day == d.day then d.today else 0
  }

  /**
   Over every run with a clock that does not go back, the day's images are those it was seeded with and
   those charged that day; and then a batch is held exactly when these, the jobs that hold one and the batch
   are within the daily limit.
   */
  lemma HeldExactly(d: I.Day, es: seq<Event>, daily: int, now: int, t: int, rows: seq<nat>)
    requires d.today >= 0 && d.day <= L.DayOf(now) && InTime(es, now) && LastTime(es, now) <= t
    ensures var r := Run(Manager(d, {}, {}, false), es, daily);
            && r.day.today == SeedOn(d, r.day.day) + Spent(es, r.day.day)
            && (Submitted(r, t, rows, true, daily).1 <==>
                  !r.closed && (daily <= 0 ||
                                SeedOn(d, L.DayOf(t)) + Spent(es, L.DayOf(t)) + |r.day.holds| + |rows| <= daily))
  {
    var m := Manager(d, {}, {}, false);
    RunCounts(m, es, daily, [], now, d.day, d.today);
    assert [] + es == es;
    RollCounts(Run(m, es, daily).day, es, LastTime(es, now), t, d.day, d.today);
  }

  /** What a step leaves of the holds: a job's own goes when it settles, returns, or is stopped without a worker. */
  ghost predicate Leaves(m: Manager, e: Event, holds: set<nat>, daily: int) {
    match e
    case Settling(_, id, _, _) => holds == m.day.holds - {id}
    case Returned(id) => holds == if id in m.active then m.day.holds - {id} else m.day.holds
    case Stop(id) => holds == if id in m.active then m.day.holds else m.day.holds - {id}
    case Close => holds == {}
    case Submit(t, rows, stored) =>
      if Submitted(m, t, rows, stored, daily).1 then holds == m.day.holds + I.Ids(rows) else holds == m.day.holds
    case _ => holds == m.day.holds
  }

  lemma SubmitLeaves(m: Manager, t: int, rows: seq<nat>, stored: bool, daily: int)
    requires Enabled(m, Submit(t, rows, stored))
    ensures Leaves(m, Submit(t, rows, stored), Submitted(m, t, rows, stored, daily).0.day.holds, daily)
  {
    assert (m.day.holds + I.Ids(rows)) - I.Ids(rows) == m.day.holds;
  }

  lemma StepLeaves(m: Manager, e: Event, daily: int)
    requires Tidy(m) && Enabled(m, e)
    ensures Leaves(m, e, Do(m, e, daily).day.holds, daily)
  {
    if e.Submit? {
      SubmitLeaves(m, e.t, e.rows, e.stored, daily);
    }
  }

  /** Who works: a checked job that has its hold, until it settles. */
  ghost predicate Works(m: Manager, e: Event, working: set<nat>) {
    match e
    case Check(id) => working == if id in m.day.holds then m.day.working + {id} else m.day.working
    case Settling(_, id, _, _) => working == m.day.working - {id}
    case _ => working == m.day.working
  }

  /** Who has a worker: a job that is scheduled when nobody else has one, until the worker returns. */
  ghost predicate Employs(m: Manager, e: Event, active: set<nat>) {
    match e
    case Schedule(id) => active == if !m.closed && m.active == {} then {id} else m.active
    case Returned(id) => active == m.active - {id}
    case _ => active == m.active
  }

  lemma StepWorks(m: Manager, e: Event, daily: int)
    requires Tidy(m)
    ensures Works(m, e, Do(m, e, daily).day.working) && Employs(m, e, Do(m, e, daily).active)
  {
  }

  /** In every reachable state, what one event does to the holds, to who works and to who has the worker. */
  lemma ReleasedExactly(d: I.Day, es: seq<Event>, daily: int, e: Event)
    requires d.holds == {} && d.working == {} && d.today >= 0 && Runs(Manager(d, {}, {}, false), es, daily)
    requires Enabled(Run(Manager(d, {}, {}, false), es, daily), e)
    ensures var r := Run(Manager(d, {}, {}, false), es, daily);
            var n := Do(r, e, daily);
            Leaves(r, e, n.day.holds, daily) && Works(r, e, n.day.working) && Employs(r, e, n.active)
  {
    assert Owed(d) == {};
    RunKeeps(Manager(d, {}, {}, false), es, daily, d.day, d.today);
    StepLeaves(Run(Manager(d, {}, {}, false), es, daily), e, daily);
    StepWorks(Run(Manager(d, {}, {}, false), es, daily), e, daily);
  }

  // ---- the manager as it is kept, under its lock ----

  class RunManager {
    const images: I.KeyImages
    var active: set<nat>
    var releases: set<nat>
    var closed: bool

    ghost function Abs(): Manager
      reads this, images
    {
      Manager(images.Abs(), active, releases, closed)
    }

    constructor (images: I.KeyImages)
      ensures this.images == images && Abs() == Manager(images.Abs(), {}, {}, false)
    {
      this.images := images;
      active, releases, closed := {}, {}, false;
    }

    method Release(id: nat)
      modifies this`releases, images
      ensures Abs() == Released(old(Abs()), id)
    {
      if id in releases {
        releases := releases - {id};
        images.ReleaseReservation(id);
      }
    }

    method SubmitBatch(rows: seq<nat>, daily: int, now: int, stored: bool) returns (ok: bool)
      modifies this`releases, images
      ensures (Abs(), ok) == Submitted(old(Abs()), now, rows, stored, daily)
    {
      if closed {
        return false;
      }
      ok := images.ReserveBatch(rows, daily, now);
      if !ok {
        return;
      }
      if !stored {
        ghost var held := images.Abs();
        for i := 0 to |rows|
          invariant images.Abs() == held.(holds := held.holds - I.Ids(rows[..i])) && releases == old(releases)
        {
          assert rows[..i + 1] == rows[..i] + [rows[i]];
          images.ReleaseReservation(rows[i]);
        }
        assert rows[..|rows|] == rows;
        return false;
      }
      ghost var before, day := releases, images.Abs();
      for i := 0 to |rows|
        invariant releases == before + I.Ids(rows[..i]) && images.Abs() == day
      {
        assert rows[..i + 1] == rows[..i] + [rows[i]];
        releases := releases + {rows[i]};
      }
      assert rows[..|rows|] == rows;
    }

    method Schedule(id: nat)
      modifies this`active
      ensures Abs() == Scheduled(old(Abs()), id)
    {
      if closed || active != {} {
        return;
      }
      active := active + {id};
    }

    /** What a worker does last. */
    method Return(id: nat)
      modifies this`active, this`releases, images
      ensures Abs() == Exited(old(Abs()), id)
    {
      if id in active {
        active := active - {id};
        Release(id);
      }
    }

    method StopTerminal(id: nat)
      modifies this`releases, images
      ensures Abs() == Stopped(old(Abs()), id)
    {
      if id !in active {
        Release(id);
      }
    }

    method Close()
      modifies this`closed, this`releases, images
      ensures Abs() == Closed(old(Abs()))
    {
      closed := true;
      ghost var before := Abs();
      while releases != {}
        invariant releases <= before.releases && closed
        invariant Abs() == before.(releases := releases,
                                   day := before.day.(holds := before.day.holds - (before.releases - releases)))
        decreases |releases|
      {
        var id :| id in releases;
        assert releases == (releases - {id}) + {id};
        Release(id);
      }
    }
  }
}
