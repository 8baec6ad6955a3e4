/**
 Image generation: which failures are charged, when the engine is suspect and how long it is left
 alone, and the holds on a key's day. One image runs at a time, whoever asked for it.
 */
module Images {
  import opened Prelude
  import L = Limits
  import T = LimitsTheorems

  /** How one generation ended, `definitive` being a failure known to have produced no image. */
  datatype Result = Result(dispatched: bool, definitive: bool, oversized: bool, measured: bool)

  /** The destination's counters: failed generations in a row, the last delay, and when to try again. */
  datatype Engine = Engine(abandons: nat, backoff: int, retryAt: int)

  const Rested := Engine(0, 0, 0)

  /** An image that was stored was not a failure, and one too large was. */
  predicate Consistent(r: Result) {
    (r.measured ==> !r.definitive) && (r.oversized ==> r.definitive)
  }

  predicate Suspect(e: Engine) {
    e.abandons >= 2
  }

  /** A dispatched generation is charged unless it failed for certain, or failed on a suspect engine. */
  function Charged(r: Result, suspect: bool): nat {
    if r.dispatched && !r.definitive && !(suspect && !r.measured) then 1 else 0
  }

  function Delay(e: Engine, base: int): int {
    Min(Max(base, 2 * e.backoff), 15 * base)
  }

  predicate Abandoned(r: Result) {
    !r.measured && r.dispatched && (!r.definitive || r.oversized)
  }

  /** `recordImageResult`. */
  function Record(e: Engine, r: Result, base: int, now: int): Engine {
    if r.measured then Rested
    else if !Abandoned(r) then e
    else
      var n := e.(abandons := e.abandons + 1);
      if n.abandons >= 2 then n.(backoff := Delay(e, base), retryAt := now + Delay(e, base)) else n
  }

  // ---- serial runs ----

  datatype Job = Job(result: Result, now: int)

  function After(e: Engine, jobs: seq<Job>, base: int): Engine {
    if jobs == [] then e
    else
      var last := jobs[|jobs| - 1];
      Record(After(e, jobs[..|jobs| - 1], base), last.result, base, last.now)
  }

  /** The charges for generations that produced nothing. */
  function Wasted(e: Engine, jobs: seq<Job>, base: int): nat {
    if jobs == [] then 0
    else
      var before, last := jobs[..|jobs| - 1], jobs[|jobs| - 1];
      Wasted(e, before, base)
      + (if last.result.measured then 0 else Charged(last.result, Suspect(After(e, before, base))))
  }

  function Abandons(jobs: seq<Job>): nat {
    if jobs == [] then 0
    else Abandons(jobs[..|jobs| - 1]) + (if Abandoned(jobs[|jobs| - 1].result) then 1 else 0)
  }

  ghost predicate NoSuccess(jobs: seq<Job>) {
    forall j <- jobs :: !j.result.measured
  }

  /** While nothing succeeds, at most the first two abandoned generations are charged. */
  lemma {:induction false} WastedBounded(jobs: seq<Job>, base: int)
    requires NoSuccess(jobs)
    ensures After(Rested, jobs, base).abandons == Abandons(jobs)
    ensures Wasted(Rested, jobs, base) <= Min(2, Abandons(jobs))
  {
    if jobs != [] {
      WastedBounded(jobs[..|jobs| - 1], base);
    }
  }

  lemma {:induction false} AfterJoin(e: Engine, a: seq<Job>, b: seq<Job>, base: int)
    ensures After(e, a + b, base) == After(After(e, a, base), b, base)
    ensures Wasted(e, a + b, base) == Wasted(e, a, base) + Wasted(After(e, a, base), b, base)
    decreases |b|
  {
    if b == [] {
      assert a + b == a;
    } else {
      AfterJoin(e, a, b[..|b| - 1], base);
      assert (a + b)[..|a + b| - 1] == a + b[..|b| - 1];
    }
  }

  /**
   Between a success and whatever comes after it without another, whichever keys the jobs are of and
   whatever went before, at most two generations that produced nothing are charged.
   */
  lemma TwoChargedFailures(e: Engine, before: seq<Job>, success: Job, since: seq<Job>, base: int)
    requires success.result.measured && NoSuccess(since)
    ensures Wasted(e, before + [success] + since, base) - Wasted(e, before + [success], base) <= 2
  {
    AfterJoin(e, before + [success], since, base);
    assert (before + [success])[..|before|] == before;
    WastedBounded(since, base);
  }

  /** And when none failed for certain it is exactly the first two; a success is charged, suspect or not. */
  lemma {:induction false} FirstTwoCharged(jobs: seq<Job>, base: int)
    requires NoSuccess(jobs) && forall j <- jobs :: !j.result.definitive && Consistent(j.result)
    ensures Wasted(Rested, jobs, base) == Min(2, Abandons(jobs))
  {
    if jobs != [] {
      var before, last := jobs[..|jobs| - 1], jobs[|jobs| - 1];
      assert last in jobs && forall j <- before :: j in jobs;
      FirstTwoCharged(before, base);
      WastedBounded(before, base);
    }
  }

  /**
   What is charged: a dispatched generation that was stored, always; one that may have cost the engine
   its work, while the engine is not suspect; one that failed for certain, never.
   */
  lemma ChargedExactly(r: Result, suspect: bool)
    requires Consistent(r)
    ensures r.dispatched && r.measured ==> Charged(r, suspect) == 1
    ensures !r.measured ==> (Charged(r, suspect) == 1 <==> Abandoned(r) && !r.oversized && !suspect)
    ensures r.definitive || !r.dispatched ==> Charged(r, suspect) == 0
  {
  }

  /** When the last generation that counts as a failure ended; none if none did. */
  function LastFailure(jobs: seq<Job>): Option<int> {
    if jobs == [] then None
    else if Abandoned(jobs[|jobs| - 1].result) then Some(jobs[|jobs| - 1].now)
    else LastFailure(jobs[..|jobs| - 1])
  }

  /**
   When the engine is tried again: after a success at once; and from the second failure since it on, when
   the delay has passed since the last of them.
   */
  lemma {:induction false} RetryIs(e: Engine, before: seq<Job>, success: Job, since: seq<Job>, base: int)
    requires success.result.measured && NoSuccess(since) && base > 0
    ensures var now := After(e, before + [success] + since, base);
            && now.abandons == Abandons(since)
            && (Suspect(now) <==> Abandons(since) >= 2)
            && (if Suspect(now)
                then LastFailure(since).Some? && now.retryAt == LastFailure(since).value + now.backoff
                else now.retryAt == 0)
    decreases |since|
  {
    assert (before + [success])[..|before|] == before;
    AfterJoin(e, before + [success], since, base);
    WastedBounded(since, base);
    RetryAfter(since, base);
  }

  lemma {:induction false} RetryAfter(jobs: seq<Job>, base: int)
    requires NoSuccess(jobs) && base > 0
    ensures var now := After(Rested, jobs, base);
            && (Abandons(jobs) > 0 <==> LastFailure(jobs).Some?)
            && (now.retryAt == if Abandons(jobs) >= 2 then LastFailure(jobs).value + now.backoff else 0)
  {
    if jobs != [] {
      var init := jobs[..|jobs| - 1];
      RetryAfter(init, base);
      WastedBounded(init, base);
      WastedBounded(jobs, base);
    }
  }

  function Doubled(base: int, k: nat): int {
    if k == 0 then base else 2 * Doubled(base, k - 1)
  }

  lemma {:induction false} DoubledGrows(base: int, k: nat)
    requires base > 0
    ensures Doubled(base, k) >= base && (k >= 4 ==> Doubled(base, k) >= 16 * base)
  {
    if k > 0 {
      DoubledGrows(base, k - 1);
      if k == 4 {
        assert Doubled(base, 0) == base && Doubled(base, 1) == 2 * base && Doubled(base, 2) == 4 * base;
      }
    }
  }

  /** The delay doubles with each failure from the second on, up to fifteen times the base. */
  lemma {:induction false} BackoffIs(jobs: seq<Job>, base: int)
    requires NoSuccess(jobs) && base > 0
    ensures var n := Abandons(jobs);
            After(Rested, jobs, base).backoff == if n < 2 then 0 else Min(Doubled(base, n - 2), 15 * base)
  {
    if jobs != [] {
      var before := jobs[..|jobs| - 1];
      BackoffIs(before, base);
      WastedBounded(before, base);
      var n := Abandons(before);
      if n >= 2 {
        DoubledGrows(base, n - 2);
      }
    }
  }

  /** Until a success the delay never falls, and once there is one it is between the base and fifteen times it. */
  lemma DelayNeverFalls(jobs: seq<Job>, more: seq<Job>, base: int)
    requires NoSuccess(jobs + more) && base > 0
    ensures var early, late := After(Rested, jobs, base), After(Rested, jobs + more, base);
            && early.backoff <= late.backoff
            && (Suspect(late) ==> base <= late.backoff <= 15 * base)
            && (!Suspect(late) ==> late.backoff == 0)
  {
    assert forall j <- jobs :: j in jobs + more;
    BackoffIs(jobs, base);
    BackoffIs(jobs + more, base);
    WastedBounded(jobs + more, base);
    AbandonsGrow(jobs, more);
    DoubledMono(base, Abandons(jobs), Abandons(jobs + more));
    if Abandons(jobs + more) >= 2 {
      DoubledGrows(base, Abandons(jobs + more) - 2);
    }
  }

  lemma {:induction false} AbandonsGrow(a: seq<Job>, b: seq<Job>)
    ensures Abandons(a) <= Abandons(a + b)
    decreases |b|
  {
    if b == [] {
      assert a + b == a;
    } else {
      AbandonsGrow(a, b[..|b| - 1]);
      assert (a + b)[..|a + b| - 1] == a + b[..|b| - 1];
    }
  }

  lemma {:induction false} DoubledMono(base: int, n: nat, m: nat)
    requires base > 0 && n <= m
    ensures n >= 2 ==> Doubled(base, n - 2) <= Doubled(base, m - 2)
    decreases m
  {
    if n < m && n >= 2 {
      DoubledMono(base, n, m - 1);
      DoubledGrows(base, m - 3);
    }
  }

  // ---- a key's day ----

  /** The day's images, the jobs that hold one each, and those that were found to and have not settled. */
  datatype Day = Day(day: int, today: int, holds: set<nat>, working: set<nat>)

  function Roll(d: Day, now: int): Day {
    d.(day := L.DayOf(now), today := if d.day == L.DayOf(now) then d.today else 0)
  }

  function Ids(rows: seq<nat>): set<nat> {
    set id <- rows
  }

  /** The `Reserve` of `prepareImageBatch`: all of the batch, or none. */
  function Hold(d: Day, now: int, daily: int, rows: seq<nat>): (Day, bool) {
    var r := Roll(d, now);
    if daily > 0 && r.today + |r.holds| + |rows| > daily then (r, false) else (r.(holds := r.holds + Ids(rows)), true)
  }

  function Settle(d: Day, now: int, id: nat, result: Result, suspect: bool): Day {
    var r := Roll(d, now);
    r.(today := r.today + Charged(result, suspect), holds := r.holds - {id}, working := r.working - {id})
  }

  /** A batch refused today is held after `w` seconds exactly when tomorrow has begun and the holds leave it room. */
  lemma BatchRetryExact(d: Day, now: int, daily: int, rows: seq<nat>, w: nat)
    requires !Hold(d, now, daily, rows).1
    ensures var r := Hold(d, now, daily, rows).0;
            Hold(r, now + L.SECOND * w, daily, rows).1 <==>
            w >= L.SecondsUntil(L.DayOf(now) + L.DAY, now) && |d.holds| + |rows| <= daily
  {
    T.MidnightExact(now, w);
  }

  // ---- the counters and the day as they are kept ----

  /** A destination's counters, changed when a generation has ended. */
  class Gate {
    var abandons: nat
    var backoff: int
    var retryAt: int

    ghost function Abs(): Engine
      reads this
    {
      Engine(abandons, backoff, retryAt)
    }

    constructor ()
      ensures Abs() == Rested
    {
      abandons, backoff, retryAt := 0, 0, 0;
    }

    method RecordImageResult(r: Result, configured: int, now: int)
      modifies this
      ensures Abs() == Record(old(Abs()), r, if configured <= 0 then 60 * L.SECOND else configured, now)
    {
      if r.measured {
        abandons, retryAt, backoff := 0, 0, 0;
      } else {
        var counted := r.dispatched && (!r.definitive || r.oversized);
        if counted {
          abandons := abandons + 1;
        }
        if abandons >= 2 && counted {
          var base := configured;
          if base <= 0 {
            base := 60 * L.SECOND;
          }
          var delay := Min(Max(base, 2 * backoff), 15 * base);
          backoff := delay;
          retryAt := now + delay;
        }
      }
    }
  }

  /** A key's day of images, under the key's lock. */
  class KeyImages {
    var day: int
    var today: int
    var holds: set<nat>
    ghost var working: set<nat>

    ghost function Abs(): Day
      reads this
    {
      Day(day, today, holds, working)
    }

    constructor (now: int, seeded: nat)
      ensures Abs() == Day(L.DayOf(now), seeded, {}, {})
    {
      day, today, holds, working := L.DayOf(now), seeded, {}, {};
    }

    method Prune(now: int)
      modifies this
      ensures Abs() == Roll(old(Abs()), now)
    {
      if L.DayOf(now) != day {
        today := 0;
      }
      day := L.DayOf(now);
    }

    method ReserveBatch(rows: seq<nat>, daily: int, now: int) returns (ok: bool)
      modifies this
      ensures (Abs(), ok) == Hold(old(Abs()), now, daily, rows)
    {
      Prune(now);
      if daily > 0 && today + (|holds| + |rows|) > daily {
        return false;
      }
      ghost var before := holds;
      for i := 0 to |rows|
        invariant holds == before + Ids(rows[..i]) && Abs() == Roll(old(Abs()), now).(holds := holds)
      {
        assert rows[..i + 1] == rows[..i] + [rows[i]];
        holds := holds + {rows[i]};
      }
      assert rows[..|rows|] == rows;
      return true;
    }

    method ReleaseReservation(id: nat)
      modifies this
      ensures Abs() == old(Abs()).(holds := old(holds) - {id})
    {
      if id in holds {
        holds := holds - {id};
      }
    }

    /** A job without its hold is not dispatched. */
    method ReserveImage(id: nat) returns (ok: bool)
      modifies this`working
      ensures ok <==> id in holds
      ensures Abs() == if ok then old(Abs()).(working := old(working) + {id}) else old(Abs())
    {
      ok := id in holds;
      if ok {
        working := working + {id};
      }
    }

    method SettleImage(id: nat, r: Result, suspect: bool, now: int) returns (charged: nat)
      modifies this
      ensures Abs() == Settle(old(Abs()), now, id, r, suspect) && charged == Charged(r, suspect)
    {
      Prune(now);
      if id in holds {
        holds := holds - {id};
      }
      working := working - {id};
      charged := 0;
      if r.dispatched && !r.definitive && !(suspect && !r.measured) {
        charged := 1;
        today := today + 1;
      }
    }
  }
}
