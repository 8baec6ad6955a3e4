/**
 Whole runs of one key's limiter. The ledger keeps beside the pruned state everything that state
 forgets: every admission ever granted, every charge with the reservation it settled, and the
 admissions still live. One invariant says that the pruned state is the view of that history
 through the last 60 seconds and the current UTC day, and that the ceilings hold on it.
 The clock never goes back and the key's limits are those of the run.
 */
module LimitsLedger {
  import opened Prelude
  import opened Limits

  /** An admission ever granted, and whether it counts so far. */
  datatype Past = Past(t: int, num: nat, counted: bool)

  /** A charge, and what had been reserved for it. */
  datatype Paid = Paid(t: int, amount: int, held: int)

  datatype Ledger = Ledger(key: Key, now: int, hist: seq<Past>, paid: seq<Paid>, live: seq<Admission>,
                           seedDay: int, seeded: int)

  datatype Event =
    | Admitting(t: int, detached: bool)
    | Reserving(t: int, i: nat, prompt: int, out: int)
    | Settling(t: int, i: nat, counted: bool, charged: int)
    | Looking(t: int)

  /** The limiter of a new process, the key's charges of the day as found in the usage log. */
  function Start(now: int, seeded: nat): Ledger {
    Ledger(Seed(FreshKey, DayOf(now), seeded), now, [], [], [], DayOf(now), seeded)
  }

  /** A live admission is settled once, and is given its reservation at most once. */
  predicate Enabled(l: Ledger, e: Event) {
    && l.now <= e.t
    && match e
       case Admitting(_, _) => true
       case Reserving(_, i, prompt, _) => i < |l.live| && l.live[i].reserved == 0 && prompt >= 0
       case Settling(_, i, _, _) => i < |l.live|
       case Looking(_) => true
  }

  function Do(l: Ledger, e: Event, lim: KeyLimits): Ledger
    requires Enabled(l, e)
  {
    match e
    case Admitting(t, detached) =>
      var (k, r) := Admit(l.key, t, lim, detached);
      if r.Granted?
      then l.(key := k, now := t, hist := l.hist + [Past(t, r.value.num, true)], live := l.live + [r.value])
      else l.(key := k, now := t)
    case Reserving(t, i, prompt, out) =>
      var (k, r) := Reserve(l.key, l.live[i], t, lim, prompt, out);
      if r.Granted? then l.(key := k, now := t, live := l.live[i := r.value.0]) else l.(key := k, now := t)
    case Settling(t, i, counted, charged) =>
      var a := l.live[i];
      Ledger(Settle(l.key, a, t, counted, charged), t,
             if counted then l.hist else Uncount(l.hist, a.num),
             if charged > 0 then l.paid + [Paid(t, charged, a.reserved)] else l.paid,
             l.live[..i] + l.live[i + 1..], l.seedDay, l.seeded)
    case Looking(t) => l.(key := Prune(l.key, t), now := t)
  }

  predicate Runs(l: Ledger, es: seq<Event>, lim: KeyLimits)
    decreases es
  {
    es == [] || (Enabled(l, es[0]) && Runs(Do(l, es[0], lim), es[1..], lim))
  }

  function Run(l: Ledger, es: seq<Event>, lim: KeyLimits): Ledger
    requires Runs(l, es, lim)
    decreases es
  {
    if es == [] then l else Run(Do(l, es[0], lim), es[1..], lim)
  }

  // ---- what the history says ----

  function Uncount(hist: seq<Past>, num: nat): seq<Past> {
    if hist == [] then []
    else (if hist[0].num == num then [hist[0].(counted := false)] else [hist[0]]) + Uncount(hist[1..], num)
  }

  /** The log of an unpruned limiter, seen through the window. */
  function Seen(hist: seq<Past>, cutoff: int): seq<Entry> {
    if hist == [] then []
    else (if hist[0].counted && hist[0].t > cutoff then [Entry(hist[0].t, 1, hist[0].num)] else [])
         + Seen(hist[1..], cutoff)
  }

  function SeenCharges(paid: seq<Paid>, cutoff: int): seq<Charge> {
    if paid == [] then []
    else (if paid[0].t > cutoff then [Charge(paid[0].t, paid[0].amount)] else []) + SeenCharges(paid[1..], cutoff)
  }

  /** Counted admissions in the half-open span `(from, to]`. */
  function CountIn(hist: seq<Past>, from: int, to: int): nat {
    if hist == [] then 0
    else (if hist[0].counted && from < hist[0].t <= to then 1 else 0) + CountIn(hist[1..], from, to)
  }

  /** Counted admissions in the 60 seconds that end at `u`. */
  function MinuteTo(hist: seq<Past>, u: int): nat {
    CountIn(hist, u - WINDOW, u)
  }

  /** What was charged after `cutoff`. */
  function PaidSince(paid: seq<Paid>, cutoff: int): int {
    if paid == [] then 0 else (if paid[0].t > cutoff then paid[0].amount else 0) + PaidSince(paid[1..], cutoff)
  }

  /** By how much the charges after `cutoff` went over what was reserved for them. */
  function OverrunSince(paid: seq<Paid>, cutoff: int): int {
    if paid == [] then 0
    else (if paid[0].t > cutoff then Max(0, paid[0].amount - paid[0].held) else 0) + OverrunSince(paid[1..], cutoff)
  }

  function Held(live: seq<Admission>): int {
    if live == [] then 0 else live[0].reserved + Held(live[1..])
  }

  function Attached(live: seq<Admission>): nat {
    if live == [] then 0 else (if live[0].detached then 0 else 1) + Attached(live[1..])
  }

  /** The last moment of the day before the one `now` is in. */
  function Yesterday(now: int): int {
    DayOf(now) - 1
  }

  function SeedOf(l: Ledger): int {
    if DayOf(l.now) == l.seedDay then l.seeded else 0
  }

  // ---- the invariant ----

  ghost predicate Ordered(hist: seq<Past>, now: int) {
    && (forall i :: 0 <= i < |hist| ==> hist[i].t <= now)
    && (forall i, j :: 0 <= i < j < |hist| ==> hist[i].t <= hist[j].t && hist[i].num < hist[j].num)
  }

  ghost predicate PaidInOrder(paid: seq<Paid>, now: int) {
    && (forall i :: 0 <= i < |paid| ==> paid[i].t <= now && paid[i].amount > 0 && paid[i].held >= 0)
    && (forall i, j :: 0 <= i < j < |paid| ==> paid[i].t <= paid[j].t)
  }

  ghost predicate LiveInOrder(live: seq<Admission>) {
    forall i :: 0 <= i < |live| ==> live[i].reserved >= 0
  }

  /** The pruned state is the history seen through the window and the day. */
  ghost predicate Mirrors(l: Ledger) {
    && l.key.log == Seen(l.hist, Cutoff(l.now))
    && l.key.tokens.log == SeenCharges(l.paid, Cutoff(l.now))
    && l.key.day == Some(DayOf(l.now))
    && l.key.tokens.today == SeedOf(l) + PaidSince(l.paid, Yesterday(l.now))
    && l.key.tokens.reserved == Held(l.live)
    && l.key.inFlight == Attached(l.live)
  }

  ghost predicate Tidy(l: Ledger) {
    && Ordered(l.hist, l.now)
    && PaidInOrder(l.paid, l.now)
    && LiveInOrder(l.live)
    && l.seedDay <= DayOf(l.now)
    && l.seeded >= 0
    && (forall i :: 0 <= i < |l.hist| ==> l.hist[i].num <= l.key.last)
  }

  ghost predicate RateHolds(hist: seq<Past>, rpm: int) {
    rpm > 0 ==> forall u: int :: MinuteTo(hist, u) <= rpm
  }

  ghost predicate Ceilings(l: Ledger, lim: KeyLimits) {
    && (lim.maxConcurrent > 0 ==> Attached(l.live) <= lim.maxConcurrent)
    && (lim.tpm > 0 ==>
          PaidSince(l.paid, Cutoff(l.now)) - OverrunSince(l.paid, Cutoff(l.now)) + Held(l.live) <= lim.tpm)
    && (lim.daily > 0 ==>
          && Held(l.live) <= lim.daily
          && SeedOf(l) + PaidSince(l.paid, Yesterday(l.now)) - OverrunSince(l.paid, Yesterday(l.now)) + Held(l.live)
             <= Max(lim.daily, SeedOf(l)))
  }

  ghost predicate Inv(l: Ledger, lim: KeyLimits) {
    Mirrors(l) && Tidy(l) && RateHolds(l.hist, lim.rpm) && Ceilings(l, lim)
  }

  // ---- sums and views, one step at a time ----

  lemma {:induction false} SeenAppend(h: seq<Past>, p: Past, c: int)
    ensures Seen(h + [p], c) == Seen(h, c) + (if p.counted && p.t > c then [Entry(p.t, 1, p.num)] else [])
  {
    if h == [] {
      assert h + [p] == [p];
    } else {
      HeadTail(h[0], h[1..], [p]);
      assert h == [h[0]] + h[1..];
      SeenAppend(h[1..], p, c);
    }
  }

  lemma {:induction false} SeenChargesAppend(h: seq<Paid>, p: Paid, c: int)
    ensures SeenCharges(h + [p], c) == SeenCharges(h, c) + (if p.t > c then [Charge(p.t, p.amount)] else [])
    ensures PaidSince(h + [p], c) == PaidSince(h, c) + (if p.t > c then p.amount else 0)
    ensures OverrunSince(h + [p], c) == OverrunSince(h, c) + (if p.t > c then Max(0, p.amount - p.held) else 0)
  {
    if h == [] {
      assert h + [p] == [p];
    } else {
      HeadTail(h[0], h[1..], [p]);
      assert h == [h[0]] + h[1..];
      SeenChargesAppend(h[1..], p, c);
    }
  }

  lemma {:induction false} CountAppend(h: seq<Past>, p: Past, from: int, to: int)
    ensures CountIn(h + [p], from, to) == CountIn(h, from, to) + (if p.counted && from < p.t <= to then 1 else 0)
  {
    if h == [] {
      assert h + [p] == [p];
    } else {
      HeadTail(h[0], h[1..], [p]);
      assert h == [h[0]] + h[1..];
      CountAppend(h[1..], p, from, to);
    }
  }

  lemma {:induction false} SplitLive(a: seq<Admission>, b: seq<Admission>)
    ensures Held(a + b) == Held(a) + Held(b)
    ensures Attached(a + b) == Attached(a) + Attached(b)
  {
    if a == [] {
      assert a + b == b;
    } else {
      HeadTail(a[0], a[1..], b);
      assert a == [a[0]] + a[1..];
      SplitLive(a[1..], b);
    }
  }

  /** Taking out or changing one live admission changes the sums by just that one. */
  lemma LiveAt(live: seq<Admission>, i: nat, x: Admission)
    requires i < |live|
    ensures Held(live[..i] + live[i + 1..]) == Held(live) - live[i].reserved
    ensures Attached(live[..i] + live[i + 1..]) == Attached(live) - (if live[i].detached then 0 else 1)
    ensures Held(live[i := x]) == Held(live) - live[i].reserved + x.reserved
    ensures live[i].detached == x.detached ==> Attached(live[i := x]) == Attached(live)
  {
    var a, b := live[..i], live[i + 1..];
    assert live == a + ([live[i]] + b);
    assert live[i := x] == a + ([x] + b);
    SplitLive(a, b);
    SplitLive(a, [live[i]] + b);
    SplitLive(a, [x] + b);
    SplitLive([live[i]], b);
    SplitLive([x], b);
  }

  lemma {:induction false} HeldNat(live: seq<Admission>)
    requires LiveInOrder(live)
    ensures Held(live) >= 0
  {
    if live != [] {
      HeldNat(live[1..]);
    }
  }

  /** The sum over the pruned charges is the sum over the history. */
  lemma {:induction false} ChargedIsPaid(paid: seq<Paid>, c: int)
    ensures Charged(SeenCharges(paid, c)) == PaidSince(paid, c)
  {
    if paid != [] {
      ChargedIsPaid(paid[1..], c);
      var rest := SeenCharges(paid[1..], c);
      if paid[0].t > c {
        assert SeenCharges(paid, c) == [Charge(paid[0].t, paid[0].amount)] + rest;
      } else {
        assert SeenCharges(paid, c) == rest;
      }
    }
  }

  /** The number of pruned entries is the number of counted admissions in the window. */
  lemma {:induction false} RequestsAreCounted(h: seq<Past>, now: int)
    requires forall i :: 0 <= i < |h| ==> h[i].t <= now
    ensures Requests(Seen(h, Cutoff(now))) == CountIn(h, now - WINDOW, now)
  {
    if h != [] {
      RequestsAreCounted(h[1..], now);
      var rest := Seen(h[1..], Cutoff(now));
      if h[0].counted && h[0].t > Cutoff(now) {
        assert Seen(h, Cutoff(now)) == [Entry(h[0].t, 1, h[0].num)] + rest;
      } else {
        assert Seen(h, Cutoff(now)) == rest;
      }
    }
  }

  /** A later window holds no more of what lies before `now`. */
  lemma {:induction false} CountMono(h: seq<Past>, from: int, to: int, from2: int, to2: int)
    requires from <= from2
    requires forall i :: 0 <= i < |h| ==> h[i].t <= to
    ensures CountIn(h, from2, to2) <= CountIn(h, from, to)
  {
    if h != [] {
      CountMono(h[1..], from, to, from2, to2);
    }
  }

  lemma {:induction false} CountUncounted(h: seq<Past>, num: nat, from: int, to: int)
    ensures CountIn(Uncount(h, num), from, to) <= CountIn(h, from, to)
  {
    if h != [] {
      CountUncounted(h[1..], num, from, to);
      var x := if h[0].num == num then h[0].(counted := false) else h[0];
      assert Uncount(h, num) == [x] + Uncount(h[1..], num);
    }
  }

  /** Less is charged within reservations in a later window. */
  lemma {:induction false} PaidMono(paid: seq<Paid>, c: int, c2: int, now: int)
    requires c <= c2 && PaidInOrder(paid, now)
    ensures 0 <= PaidSince(paid, c2) - OverrunSince(paid, c2) <= PaidSince(paid, c) - OverrunSince(paid, c)
    ensures 0 <= OverrunSince(paid, c2)
    ensures c2 >= now ==> PaidSince(paid, c2) == 0 && OverrunSince(paid, c2) == 0
  {
    if paid != [] {
      PaidMono(paid[1..], c, c2, now);
    }
  }

  // ---- pruning is looking through a later window ----

  lemma {:induction false} AllInside(h: seq<Past>, c: int, c2: int)
    requires c <= c2 && forall i :: 0 <= i < |h| ==> h[i].t > c2
    ensures Seen(h, c) == Seen(h, c2)
    ensures Seen(h, c) != [] ==> Seen(h, c)[0].t > c2
  {
    if h != [] {
      AllInside(h[1..], c, c2);
    }
  }

  lemma {:induction false} DropIsSeen(h: seq<Past>, c: int, c2: int, now: int)
    requires c <= c2 && Ordered(h, now)
    ensures DropEntries(Seen(h, c), c2) == Seen(h, c2)
  {
    if h != [] {
      if h[0].t > c2 {
        AllInside(h, c, c2);
      } else {
        DropIsSeen(h[1..], c, c2, now);
        if h[0].counted && h[0].t > c {
          assert Seen(h, c)[1..] == Seen(h[1..], c);
        } else {
          assert Seen(h, c) == Seen(h[1..], c);
        }
      }
    }
  }

  lemma {:induction false} AllChargesInside(h: seq<Paid>, c: int, c2: int)
    requires c <= c2 && forall i :: 0 <= i < |h| ==> h[i].t > c2
    ensures SeenCharges(h, c) == SeenCharges(h, c2)
    ensures SeenCharges(h, c) != [] ==> SeenCharges(h, c)[0].t > c2
  {
    if h != [] {
      AllChargesInside(h[1..], c, c2);
    }
  }

  lemma {:induction false} DropIsSeenCharges(h: seq<Paid>, c: int, c2: int, now: int)
    requires c <= c2 && PaidInOrder(h, now)
    ensures DropCharges(SeenCharges(h, c), c2) == SeenCharges(h, c2)
  {
    if h != [] {
      if h[0].t > c2 {
        AllChargesInside(h, c, c2);
      } else {
        DropIsSeenCharges(h[1..], c, c2, now);
        if h[0].t > c {
          assert SeenCharges(h, c)[1..] == SeenCharges(h[1..], c);
        } else {
          assert SeenCharges(h, c) == SeenCharges(h[1..], c);
        }
      }
    }
  }

  // ---- removal by number ----

  lemma {:induction false} UncountOther(h: seq<Past>, num: nat)
    requires forall i :: 0 <= i < |h| ==> h[i].num != num
    ensures Uncount(h, num) == h
  {
    if h != [] {
      UncountOther(h[1..], num);
      assert h == [h[0]] + h[1..];
    }
  }

  lemma {:induction false} UncountKeeps(h: seq<Past>, num: nat)
    ensures |Uncount(h, num)| == |h|
    ensures forall i :: 0 <= i < |h| ==> Uncount(h, num)[i] == if h[i].num == num then h[i].(counted := false) else h[i]
  {
    if h != [] {
      UncountKeeps(h[1..], num);
    }
  }

  lemma SeenHead(p: Past, h: seq<Past>, c: int)
    ensures Seen([p] + h, c) == if p.counted && p.t > c then [Entry(p.t, 1, p.num)] + Seen(h, c) else Seen(h, c)
  {
    assert ([p] + h)[1..] == h;
  }

  lemma RemoveHead(e: Entry, log: seq<Entry>, num: nat)
    ensures RemoveEntry([e] + log, num) == if e.req == 1 && e.num == num then log else [e] + RemoveEntry(log, num)
  {
    assert ([e] + log)[1..] == log;
  }

  lemma UncountHead(p: Past, h: seq<Past>, num: nat)
    ensures Uncount([p] + h, num) == [if p.num == num then p.(counted := false) else p] + Uncount(h, num)
  {
    assert ([p] + h)[1..] == h;
  }

  /** The first of the history, when the rest is as it should be; numbers do not repeat. */
  lemma RemoveFirst(p: Past, h: seq<Past>, num: nat, c: int)
    requires RemoveEntry(Seen(h, c), num) == Seen(Uncount(h, num), c) && (p.num == num ==> Uncount(h, num) == h)
    ensures RemoveEntry(Seen([p] + h, c), num) == Seen(Uncount([p] + h, num), c)
  {
    SeenHead(p, h, c);
    RemoveHead(Entry(p.t, 1, p.num), Seen(h, c), num);
    UncountHead(p, h, num);
    SeenHead(if p.num == num then p.(counted := false) else p, Uncount(h, num), c);
  }

  /** Removing the entry by its number from the pruned log is uncounting that admission, and no other. */
  lemma {:induction false} RemoveIsUncount(h: seq<Past>, num: nat, c: int, now: int)
    requires Ordered(h, now)
    ensures RemoveEntry(Seen(h, c), num) == Seen(Uncount(h, num), c)
  {
    if h != [] {
      var p, rest := h[0], h[1..];
      RemoveIsUncount(rest, num, c, now);
      if p.num == num {
        UncountOther(rest, num);
      }
      RemoveFirst(p, rest, num, c);
      assert h == [p] + rest;
    }
  }

  // ---- what every step keeps ----

  lemma DayOrder(now: int, t: int)
    requires now <= t
    ensures DayOf(now) <= DayOf(t) <= t < DayOf(t) + DAY
    ensures DayOf(now) != DayOf(t) ==> now < DayOf(t)
  {
  }

  lemma LookKeeps(l: Ledger, t: int, lim: KeyLimits)
    requires Inv(l, lim) && l.now <= t
    ensures Inv(Do(l, Looking(t), lim), lim)
  {
    var c, c2 := Cutoff(l.now), Cutoff(t);
    DropIsSeen(l.hist, c, c2, l.now);
    DropIsSeenCharges(l.paid, c, c2, l.now);
    DayOrder(l.now, t);
    DayOrder(l.seedDay, l.seedDay);
    PaidMono(l.paid, c, c2, l.now);
    PaidMono(l.paid, Yesterday(l.now), Yesterday(t), l.now);
  }

  /** A key that mirrors its history as of now has nothing left to prune. */
  lemma NothingToPrune(l: Ledger)
    requires Mirrors(l) && Tidy(l)
    ensures Prune(l.key, l.now) == l.key
  {
    DropIsSeen(l.hist, Cutoff(l.now), Cutoff(l.now), l.now);
    DropIsSeenCharges(l.paid, Cutoff(l.now), Cutoff(l.now), l.now);
  }

  lemma AdmitRate(hist: seq<Past>, now: int, num: nat, rpm: int)
    requires RateHolds(hist, rpm) && Ordered(hist, now)
    requires rpm > 0 ==> MinuteTo(hist, now) < rpm
    ensures RateHolds(hist + [Past(now, num, true)], rpm)
  {
    if rpm > 0 {
      forall u: int ensures MinuteTo(hist + [Past(now, num, true)], u) <= rpm {
        CountAppend(hist, Past(now, num, true), u - WINDOW, u);
        if u >= now {
          CountMono(hist, now - WINDOW, now, u - WINDOW, u);
        } else {
          assert MinuteTo(hist, u) <= rpm;
        }
      }
    }
  }

  /** A granted admission, on a key with nothing left to prune. */
  function Admitted(l: Ledger, detached: bool): Ledger {
    var a := Admission(l.key.last + 1, detached, 0);
    l.(key := l.key.(inFlight := l.key.inFlight + (if detached then 0 else 1), last := a.num,
                     log := l.key.log + [Entry(l.now, 1, a.num)]),
       hist := l.hist + [Past(l.now, a.num, true)], live := l.live + [a])
  }

  predicate Admissible(l: Ledger, detached: bool, lim: KeyLimits) {
    && (detached || lim.maxConcurrent <= 0 || l.key.inFlight < lim.maxConcurrent)
    && (lim.rpm <= 0 || Requests(l.key.log) < lim.rpm)
  }

  lemma AdmitStep(l: Ledger, detached: bool, lim: KeyLimits)
    requires Prune(l.key, l.now) == l.key
    ensures Do(l, Admitting(l.now, detached), lim) == if Admissible(l, detached, lim) then Admitted(l, detached) else l
  {
  }

  lemma AdmittedMirrors(l: Ledger, detached: bool)
    requires Mirrors(l)
    ensures Mirrors(Admitted(l, detached))
  {
    SeenAppend(l.hist, Past(l.now, l.key.last + 1, true), Cutoff(l.now));
    SplitLive(l.live, [Admission(l.key.last + 1, detached, 0)]);
  }

  lemma AdmittedTidy(l: Ledger, detached: bool)
    requires Tidy(l)
    ensures Tidy(Admitted(l, detached))
  {
  }

  lemma AdmittedCeilings(l: Ledger, detached: bool, lim: KeyLimits)
    requires Ceilings(l, lim)
    requires detached || lim.maxConcurrent <= 0 || Attached(l.live) < lim.maxConcurrent
    ensures Ceilings(Admitted(l, detached), lim)
  {
    SplitLive(l.live, [Admission(l.key.last + 1, detached, 0)]);
  }

  lemma AdmittedRate(l: Ledger, rpm: int)
    requires Mirrors(l) && Ordered(l.hist, l.now) && RateHolds(l.hist, rpm)
    requires rpm <= 0 || Requests(l.key.log) < rpm
    ensures RateHolds(l.hist + [Past(l.now, l.key.last + 1, true)], rpm)
  {
    RequestsAreCounted(l.hist, l.now);
    AdmitRate(l.hist, l.now, l.key.last + 1, rpm);
  }

  lemma AdmittedKeeps(l: Ledger, detached: bool, lim: KeyLimits)
    requires Inv(l, lim) && Admissible(l, detached, lim)
    ensures Inv(Admitted(l, detached), lim)
  {
    AdmittedMirrors(l, detached);
    AdmittedTidy(l, detached);
    AdmittedCeilings(l, detached, lim);
    AdmittedRate(l, lim.rpm);
  }

  lemma AdmitKeeps(l: Ledger, detached: bool, lim: KeyLimits)
    requires Inv(l, lim)
    ensures Inv(Do(l, Admitting(l.now, detached), lim), lim)
  {
    NothingToPrune(l);
    AdmitStep(l, detached, lim);
    if Admissible(l, detached, lim) {
      AdmittedKeeps(l, detached, lim);
    }
  }

  /** A granted reservation of `worst`. */
  function Reserved(l: Ledger, i: nat, worst: int): Ledger
    requires i < |l.live|
  {
    l.(key := l.key.(tokens := l.key.tokens.(reserved := l.key.tokens.reserved + worst)),
       live := l.live[i := l.live[i].(reserved := worst)])
  }

  /** Both ceilings have room for `worst` beside what is charged and reserved. */
  predicate HasRoom(m: Meter, lim: KeyLimits, worst: int) {
    && (lim.tpm > 0 ==> Charged(m.log) + m.reserved + worst <= lim.tpm)
    && (lim.daily > 0 ==> m.today + m.reserved + worst <= lim.daily)
  }

  lemma ReserveRoom(k: Key, a: Admission, now: int, lim: KeyLimits, prompt: int, out: int)
    requires Prune(k, now) == k && prompt >= 0
    ensures var (k2, r) := Reserve(k, a, now, lim, prompt, out);
            if r.Granted?
            then && r.value.0.reserved >= 0 && r.value.0 == a.(reserved := r.value.0.reserved)
                 && HasRoom(k.tokens, lim, r.value.0.reserved)
                 && k2 == k.(tokens := k.tokens.(reserved := k.tokens.reserved + r.value.0.reserved))
            else k2 == k
  {
    var m := k.tokens;
    FitBudgetExact(lim.tpm, Charged(m.log) + m.reserved, prompt, out);
    FitBudgetExact(lim.daily, m.today + m.reserved, prompt,
                   FitBudget(lim.tpm, Charged(m.log) + m.reserved, prompt, out).0);
  }

  lemma ReserveStep(l: Ledger, i: nat, prompt: int, out: int, lim: KeyLimits)
    requires Prune(l.key, l.now) == l.key && Enabled(l, Reserving(l.now, i, prompt, out))
    ensures var r := Reserve(l.key, l.live[i], l.now, lim, prompt, out).1;
            Do(l, Reserving(l.now, i, prompt, out), lim) == if r.Granted? then Reserved(l, i, r.value.0.reserved) else l
  {
    ReserveRoom(l.key, l.live[i], l.now, lim, prompt, out);
  }

  lemma ReservedMirrors(l: Ledger, i: nat, worst: int)
    requires Mirrors(l) && i < |l.live| && l.live[i].reserved == 0
    ensures Mirrors(Reserved(l, i, worst))
  {
    LiveAt(l.live, i, l.live[i].(reserved := worst));
  }

  lemma ReservedCeilings(l: Ledger, i: nat, worst: int, lim: KeyLimits)
    requires Mirrors(l) && PaidInOrder(l.paid, l.now) && l.seeded >= 0 && Ceilings(l, lim)
    requires i < |l.live| && l.live[i].reserved == 0 && HasRoom(l.key.tokens, lim, worst)
    ensures Ceilings(Reserved(l, i, worst), lim)
  {
    LiveAt(l.live, i, l.live[i].(reserved := worst));
    ChargedIsPaid(l.paid, Cutoff(l.now));
    PaidMono(l.paid, Cutoff(l.now), Cutoff(l.now), l.now);
    PaidMono(l.paid, Yesterday(l.now), Yesterday(l.now), l.now);
  }

  lemma ReserveKeeps(l: Ledger, i: nat, prompt: int, out: int, lim: KeyLimits)
    requires Inv(l, lim) && Enabled(l, Reserving(l.now, i, prompt, out))
    ensures Inv(Do(l, Reserving(l.now, i, prompt, out), lim), lim)
  {
    NothingToPrune(l);
    ReserveStep(l, i, prompt, out, lim);
    ReserveRoom(l.key, l.live[i], l.now, lim, prompt, out);
    var r := Reserve(l.key, l.live[i], l.now, lim, prompt, out).1;
    if r.Granted? {
      ReservedKeeps(l, i, r.value.0.reserved, lim);
    }
  }

  lemma ReservedKeeps(l: Ledger, i: nat, worst: nat, lim: KeyLimits)
    requires Inv(l, lim) && i < |l.live| && l.live[i].reserved == 0 && HasRoom(l.key.tokens, lim, worst)
    ensures Inv(Reserved(l, i, worst), lim)
  {
    ReservedMirrors(l, i, worst);
    ReservedCeilings(l, i, worst, lim);
  }

  /** A settlement, on a key with nothing left to prune. */
  function Settled(l: Ledger, i: nat, counted: bool, charged: int): Ledger
    requires i < |l.live|
  {
    var a, m := l.live[i], l.key.tokens.(reserved := l.key.tokens.reserved - l.live[i].reserved);
    l.(key := l.key.(inFlight := l.key.inFlight - (if a.detached then 0 else 1),
                     log := if counted then l.key.log else RemoveEntry(l.key.log, a.num),
                     tokens := if charged > 0
                               then m.(log := m.log + [Charge(l.now, charged)], today := m.today + charged) else m),
       hist := if counted then l.hist else Uncount(l.hist, a.num),
       paid := if charged > 0 then l.paid + [Paid(l.now, charged, a.reserved)] else l.paid,
       live := l.live[..i] + l.live[i + 1..])
  }

  lemma SettleStep(l: Ledger, i: nat, counted: bool, charged: int, lim: KeyLimits)
    requires Prune(l.key, l.now) == l.key && i < |l.live|
    ensures Do(l, Settling(l.now, i, counted, charged), lim) == Settled(l, i, counted, charged)
  {
  }

  lemma SettledMirrors(l: Ledger, i: nat, counted: bool, charged: int)
    requires Mirrors(l) && Ordered(l.hist, l.now) && i < |l.live|
    ensures Mirrors(Settled(l, i, counted, charged))
  {
    var a := l.live[i];
    LiveAt(l.live, i, a);
    SeenChargesAppend(l.paid, Paid(l.now, charged, a.reserved), Cutoff(l.now));
    SeenChargesAppend(l.paid, Paid(l.now, charged, a.reserved), Yesterday(l.now));
    DayOrder(l.now, l.now);
    RemoveIsUncount(l.hist, a.num, Cutoff(l.now), l.now);
  }

  lemma SettledCeilings(l: Ledger, i: nat, counted: bool, charged: int, lim: KeyLimits)
    requires Ceilings(l, lim) && LiveInOrder(l.live) && i < |l.live|
    ensures Ceilings(Settled(l, i, counted, charged), lim)
  {
    var a := l.live[i];
    LiveAt(l.live, i, a);
    SeenChargesAppend(l.paid, Paid(l.now, charged, a.reserved), Cutoff(l.now));
    SeenChargesAppend(l.paid, Paid(l.now, charged, a.reserved), Yesterday(l.now));
  }

  lemma UncountTidy(hist: seq<Past>, num: nat, now: int, last: nat, rpm: int)
    requires Ordered(hist, now) && RateHolds(hist, rpm)
    requires forall i :: 0 <= i < |hist| ==> hist[i].num <= last
    ensures Ordered(Uncount(hist, num), now) && RateHolds(Uncount(hist, num), rpm)
    ensures |Uncount(hist, num)| == |hist|
    ensures forall i :: 0 <= i < |hist| ==> Uncount(hist, num)[i].num <= last
  {
    UncountKeeps(hist, num);
    forall u: int ensures MinuteTo(Uncount(hist, num), u) <= MinuteTo(hist, u) {
      CountUncounted(hist, num, u - WINDOW, u);
    }
  }

  lemma SettledPaid(paid: seq<Paid>, now: int, charged: int, held: int)
    requires PaidInOrder(paid, now) && held >= 0
    ensures charged > 0 ==> PaidInOrder(paid + [Paid(now, charged, held)], now)
  {
  }

  lemma SettledLive(live: seq<Admission>, i: nat)
    requires LiveInOrder(live) && i < |live|
    ensures LiveInOrder(live[..i] + live[i + 1..])
  {
  }

  lemma SettledTidy(l: Ledger, i: nat, counted: bool, charged: int, rpm: int)
    requires Tidy(l) && RateHolds(l.hist, rpm) && i < |l.live|
    ensures var m := Settled(l, i, counted, charged); Tidy(m) && RateHolds(m.hist, rpm)
  {
    UncountTidy(l.hist, l.live[i].num, l.now, l.key.last, rpm);
    SettledPaid(l.paid, l.now, charged, l.live[i].reserved);
    SettledLive(l.live, i);
  }

  lemma SettleKeeps(l: Ledger, i: nat, counted: bool, charged: int, lim: KeyLimits)
    requires Inv(l, lim) && i < |l.live|
    ensures Inv(Do(l, Settling(l.now, i, counted, charged), lim), lim)
  {
    NothingToPrune(l);
    SettleStep(l, i, counted, charged, lim);
    SettledMirrors(l, i, counted, charged);
    SettledCeilings(l, i, counted, charged, lim);
    SettledTidy(l, i, counted, charged, lim.rpm);
  }

  /** Looking first changes nothing for a step at the same moment: every step prunes for itself. */
  lemma {:induction false} PruneTwice(k: Key, now: int)
    ensures Prune(Prune(k, now), now) == Prune(k, now)
  {
    DropTwice(k.log, Cutoff(now));
    DropChargesTwice(k.tokens.log, Cutoff(now));
  }

  lemma {:induction false} DropTwice(log: seq<Entry>, c: int)
    ensures DropEntries(DropEntries(log, c), c) == DropEntries(log, c)
  {
    if log != [] && log[0].t <= c {
      DropTwice(log[1..], c);
    }
  }

  lemma {:induction false} DropChargesTwice(log: seq<Charge>, c: int)
    ensures DropCharges(DropCharges(log, c), c) == DropCharges(log, c)
  {
    if log != [] && log[0].t <= c {
      DropChargesTwice(log[1..], c);
    }
  }

  lemma LookFirst(l: Ledger, e: Event, lim: KeyLimits)
    requires Enabled(l, e)
    ensures Enabled(Do(l, Looking(e.t), lim), e)
    ensures Do(Do(l, Looking(e.t), lim), e, lim) == Do(l, e, lim)
  {
    PruneTwice(l.key, e.t);
  }

  /** Every step keeps the invariant, whenever it comes. */
  lemma StepKeeps(l: Ledger, e: Event, lim: KeyLimits)
    requires Inv(l, lim) && Enabled(l, e)
    ensures Inv(Do(l, e, lim), lim)
  {
    LookKeeps(l, e.t, lim);
    LookFirst(l, e, lim);
    var m := Do(l, Looking(e.t), lim);
    match e {
      case Admitting(_, detached) => AdmitKeeps(m, detached, lim);
      case Reserving(_, i, prompt, out) => ReserveKeeps(m, i, prompt, out, lim);
      case Settling(_, i, counted, charged) => SettleKeeps(m, i, counted, charged, lim);
      case Looking(_) =>
    }
  }

  lemma StartKeeps(now: int, seeded: nat, lim: KeyLimits)
    ensures Inv(Start(now, seeded), lim)
  {
    DayOrder(now, now);
  }

  lemma {:induction false} RunKeeps(l: Ledger, es: seq<Event>, lim: KeyLimits)
    requires Inv(l, lim) && Runs(l, es, lim)
    ensures Inv(Run(l, es, lim), lim)
    decreases es
  {
    if es != [] {
      StepKeeps(l, es[0], lim);
      RunKeeps(Do(l, es[0], lim), es[1..], lim);
    }
  }
}
