/**
 A resource that is counted by the UTC day - audio seconds, speech characters - with holds put on it
 before a call and settled to what the call cost. Amounts are whole units and exact.
 */
module Meters {
  import opened Prelude
  import L = Limits
  import G = LimitsLedger
  import T = LimitsTheorems

  datatype Meter = Meter(day: int, today: int, reserved: int)

  /** What `prune` does to a meter: a new day starts its count over, and holds go on. */
  function Roll(m: Meter, now: int): Meter {
    if L.DayOf(now) == m.day then m else Meter(L.DayOf(now), 0, m.reserved)
  }

  /** A hold is put on when it fits what the day has left beside the other holds. */
  function Hold(m: Meter, now: int, limit: int, need: int): (Meter, bool) {
    var r := Roll(m, now);
    if limit > 0 && r.today + r.reserved + need > limit then (r, false)
    else (r.(reserved := r.reserved + need), true)
  }

  function Settle(m: Meter, now: int, held: int, charge: int): Meter {
    var r := Roll(m, now);
    r.(today := r.today + charge, reserved := r.reserved - held)
  }

  // ---- a day's meter over a run, against everything it ever saw ----

  /** `live` are the holds not yet settled, `paid` every charge with the hold it settled. */
  datatype Run = Run(m: Meter, now: int, live: seq<L.Admission>, paid: seq<G.Paid>, seedDay: int, seeded: int)

  datatype Event = Holding(t: int, need: nat) | Settling(t: int, i: nat, charge: nat)

  function Start(now: int, seeded: nat): Run {
    Run(Meter(L.DayOf(now), seeded, 0), now, [], [], L.DayOf(now), seeded)
  }

  predicate Enabled(r: Run, e: Event) {
    r.now <= e.t && (e.Settling? ==> e.i < |r.live|)
  }

  function Do(r: Run, e: Event, limit: int): Run
    requires Enabled(r, e)
  {
    match e
    case Holding(t, need) =>
      var (m, ok) := Hold(r.m, t, limit, need);
      r.(m := m, now := t, live := if ok then r.live + [L.Admission(0, false, need)] else r.live)
    case Settling(t, i, charge) =>
      var held := r.live[i].reserved;
      r.(m := Settle(r.m, t, held, charge), now := t, live := r.live[..i] + r.live[i + 1..],
         paid := if charge > 0 then r.paid + [G.Paid(t, charge, held)] else r.paid)
  }

  predicate Runs(r: Run, es: seq<Event>, limit: int)
    decreases es
  {
    es == [] || (Enabled(r, es[0]) && Runs(Do(r, es[0], limit), es[1..], limit))
  }

  function After(r: Run, es: seq<Event>, limit: int): Run
    requires Runs(r, es, limit)
    decreases es
  {
    if es == [] then r else After(Do(r, es[0], limit), es[1..], limit)
  }

  function SeedOf(r: Run): int {
    if L.DayOf(r.now) == r.seedDay then r.seeded else 0
  }

  /** The charges of the day `r` is in. */
  function PaidToday(r: Run): int {
    G.PaidSince(r.paid, G.Yesterday(r.now))
  }

  function OverrunToday(r: Run): int {
    G.OverrunSince(r.paid, G.Yesterday(r.now))
  }

  ghost predicate Inv(r: Run, limit: int) {
    && r.m.day == L.DayOf(r.now) && r.seedDay <= L.DayOf(r.now) && r.seeded >= 0
    && G.PaidInOrder(r.paid, r.now) && G.LiveInOrder(r.live)
    && r.m.reserved == G.Held(r.live)
    && r.m.today == SeedOf(r) + PaidToday(r)
    && (limit > 0 ==>
          && G.Held(r.live) <= limit
          && SeedOf(r) + PaidToday(r) - OverrunToday(r) + G.Held(r.live) <= Max(limit, SeedOf(r)))
  }

  /** Time passes, and perhaps midnight. */
  function Later(r: Run, t: int): Run {
    r.(m := Roll(r.m, t), now := t)
  }

  lemma LaterKeeps(r: Run, t: int, limit: int)
    requires Inv(r, limit) && r.now <= t
    ensures Inv(Later(r, t), limit)
  {
    G.DayOrder(r.now, t);
    G.DayOrder(r.seedDay, r.seedDay);
    G.PaidMono(r.paid, G.Yesterday(r.now), G.Yesterday(t), r.now);
  }

  lemma HoldKeeps(r: Run, need: nat, limit: int)
    requires Inv(r, limit)
    ensures Inv(Do(r, Holding(r.now, need), limit), limit)
  {
    G.PaidMono(r.paid, G.Yesterday(r.now), G.Yesterday(r.now), r.now);
    G.SplitLive(r.live, [L.Admission(0, false, need)]);
  }

  /** What one charge adds to the sums of its own day. */
  lemma PaidNow(paid: seq<G.Paid>, t: int, charge: nat, held: nat)
    requires G.PaidInOrder(paid, t)
    ensures var more := if charge > 0 then paid + [G.Paid(t, charge, held)] else paid;
            && G.PaidInOrder(more, t)
            && G.PaidSince(more, G.Yesterday(t)) == G.PaidSince(paid, G.Yesterday(t)) + charge
            && G.OverrunSince(more, G.Yesterday(t)) == G.OverrunSince(paid, G.Yesterday(t)) + Max(0, charge - held)
  {
    G.DayOrder(t, t);
    G.SeenChargesAppend(paid, G.Paid(t, charge, held), G.Yesterday(t));
  }

  lemma LiveWithout(live: seq<L.Admission>, i: nat)
    requires G.LiveInOrder(live) && i < |live|
    ensures var rest := live[..i] + live[i + 1..];
            G.LiveInOrder(rest) && G.Held(rest) == G.Held(live) - live[i].reserved && live[i].reserved >= 0
  {
    G.LiveAt(live, i, live[i]);
  }

  lemma SettleKeeps(r: Run, i: nat, charge: nat, limit: int)
    requires Inv(r, limit) && i < |r.live|
    ensures Inv(Do(r, Settling(r.now, i, charge), limit), limit)
  {
    LiveWithout(r.live, i);
    PaidNow(r.paid, r.now, charge, r.live[i].reserved);
  }

  lemma LaterFirst(r: Run, e: Event, limit: int)
    requires Enabled(r, e)
    ensures Do(r, e, limit) == Do(Later(r, e.t), e, limit)
  {
  }

  lemma StepKeeps(r: Run, e: Event, limit: int)
    requires Inv(r, limit) && Enabled(r, e)
    ensures Inv(Do(r, e, limit), limit)
  {
    LaterKeeps(r, e.t, limit);
    LaterFirst(r, e, limit);
    match e
    case Holding(t, need) => HoldKeeps(Later(r, t), need, limit);
    case Settling(t, i, charge) => SettleKeeps(Later(r, t), i, charge, limit);
  }

  lemma {:induction false} AfterKeeps(r: Run, es: seq<Event>, limit: int)
    requires Inv(r, limit) && Runs(r, es, limit)
    ensures Inv(After(r, es, limit), limit)
    decreases es
  {
    if es != [] {
      StepKeeps(r, es[0], limit);
      AfterKeeps(Do(r, es[0], limit), es[1..], limit);
    }
  }

  /**
   Over every run, across midnight and with holds settled in any order: the meter shows the day's
   seed and charges, the holds are those of the live calls, and together they stay within the
   day's limit but for the day's overruns, or a seed that was over it already.
   */
  lemma DayCeiling(now: int, seeded: nat, es: seq<Event>, limit: int)
    requires Runs(Start(now, seeded), es, limit)
    ensures var r := After(Start(now, seeded), es, limit);
            && r.m.today == SeedOf(r) + PaidToday(r) && r.m.reserved == G.Held(r.live)
            && (limit > 0 ==> r.m.today + r.m.reserved <= Max(limit, SeedOf(r)) + OverrunToday(r))
            && (r.live == [] ==> r.m.reserved == 0)
  {
    G.DayOrder(now, now);
    AfterKeeps(Start(now, seeded), es, limit);
  }

  /** Every settlement of the run charges its hold or less. */
  predicate Within(r: Run, es: seq<Event>, limit: int)
    requires Runs(r, es, limit)
    decreases es
  {
    es == [] || ((es[0].Settling? ==> es[0].charge <= r.live[es[0].i].reserved)
                 && Within(Do(r, es[0], limit), es[1..], limit))
  }

  ghost predicate NoneOver(paid: seq<G.Paid>) {
    forall i :: 0 <= i < |paid| ==> paid[i].amount <= paid[i].held
  }

  lemma {:induction false} StaysWithin(r: Run, es: seq<Event>, limit: int)
    requires Runs(r, es, limit) && Within(r, es, limit) && NoneOver(r.paid)
    ensures NoneOver(After(r, es, limit).paid)
    decreases es
  {
    if es != [] {
      StaysWithin(Do(r, es[0], limit), es[1..], limit);
    }
  }

  lemma {:induction false} NoOverrun(paid: seq<G.Paid>, c: int)
    requires NoneOver(paid)
    ensures G.OverrunSince(paid, c) == 0
  {
    if paid != [] {
      NoOverrun(paid[1..], c);
    }
  }

  /** A resource that is charged its hold or nothing, as speech is, never passes the day's limit at all. */
  lemma StrictCeiling(now: int, seeded: nat, es: seq<Event>, limit: int)
    requires Runs(Start(now, seeded), es, limit) && Within(Start(now, seeded), es, limit) && limit > 0
    ensures var r := After(Start(now, seeded), es, limit); r.m.today + r.m.reserved <= Max(limit, SeedOf(r))
  {
    DayCeiling(now, seeded, es, limit);
    StaysWithin(Start(now, seeded), es, limit);
    NoOverrun(After(Start(now, seeded), es, limit).paid, G.Yesterday(After(Start(now, seeded), es, limit).now));
  }

  /** A hold is put on exactly when the day's seed and charges, the live holds and it are within the limit. */
  lemma HeldExactly(r: Run, t: int, limit: int, need: int)
    requires Inv(r, limit) && r.now <= t
    ensures var now := Later(r, t);
            Hold(r.m, t, limit, need).1 <==>
            limit <= 0 || SeedOf(now) + PaidToday(now) + G.Held(r.live) + need <= limit
  {
    LaterKeeps(r, t, limit);
  }

  /**
   After a refusal, and nothing else happening, the same hold is put on after `w` seconds exactly when
   the next UTC day has begun - which the refusal's Retry-After counts to - and the other holds leave it room.
   */
  lemma HoldRetryExact(m: Meter, now: int, limit: int, need: int, w: nat)
    requires !Hold(m, now, limit, need).1
    ensures var r := Hold(m, now, limit, need).0;
            Hold(r, now + L.SECOND * w, limit, need).1 <==>
            w >= L.SecondsUntil(L.DayOf(now) + L.DAY, now) && m.reserved + need <= limit
  {
    T.MidnightExact(now, w);
  }
}
