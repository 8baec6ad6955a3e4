/**
 What the limiter promises over every run of a key, and what its Retry-After means.
 */
module LimitsTheorems {
  import opened Prelude
  import opened Limits
  import opened LimitsLedger

  // ---- over every run ----

  /**
   The pruned log, edited in place, is at every moment the whole history of admissions seen through
   the last 60 seconds, less exactly those that were settled as uncounted; likewise the charges.
   */
  lemma LogIsHistory(now: int, seeded: nat, es: seq<Event>, lim: KeyLimits)
    requires Runs(Start(now, seeded), es, lim)
    ensures var l := Run(Start(now, seeded), es, lim);
            && l.key.log == Seen(l.hist, l.now - WINDOW)
            && l.key.tokens.log == SeenCharges(l.paid, l.now - WINDOW)
  {
    StartKeeps(now, seeded, lim);
    RunKeeps(Start(now, seeded), es, lim);
  }

  /** No 60 seconds of a run, wherever they begin, hold more counted admissions than the key allows. */
  lemma RateCeiling(now: int, seeded: nat, es: seq<Event>, lim: KeyLimits, u: int)
    requires Runs(Start(now, seeded), es, lim) && lim.rpm > 0
    ensures CountIn(Run(Start(now, seeded), es, lim).hist, u - WINDOW, u) <= lim.rpm
  {
    StartKeeps(now, seeded, lim);
    RunKeeps(Start(now, seeded), es, lim);
    assert MinuteTo(Run(Start(now, seeded), es, lim).hist, u) <= lim.rpm;
  }

  /** Charges of the last 60 seconds and live reservations stay within TPM, but for recorded overruns. */
  lemma MinuteCeiling(now: int, seeded: nat, es: seq<Event>, lim: KeyLimits)
    requires Runs(Start(now, seeded), es, lim) && lim.tpm > 0
    ensures var l := Run(Start(now, seeded), es, lim);
            PaidSince(l.paid, l.now - WINDOW) + Held(l.live) <= lim.tpm + OverrunSince(l.paid, l.now - WINDOW)
  {
    StartKeeps(now, seeded, lim);
    RunKeeps(Start(now, seeded), es, lim);
  }

  /**
   What the day was seeded with, what was charged in it and what is reserved stay within the daily
   budget, but for the day's overruns and a seed that was over the budget already.
   */
  lemma DayCeiling(now: int, seeded: nat, es: seq<Event>, lim: KeyLimits)
    requires Runs(Start(now, seeded), es, lim) && lim.daily > 0
    ensures var l := Run(Start(now, seeded), es, lim);
            var since := DayOf(l.now) - 1;
            && l.key.tokens.today == SeedOf(l) + PaidSince(l.paid, since)
            && l.key.tokens.today + Held(l.live) <= Max(lim.daily, SeedOf(l)) + OverrunSince(l.paid, since)
  {
    StartKeeps(now, seeded, lim);
    RunKeeps(Start(now, seeded), es, lim);
    DayWithin(Run(Start(now, seeded), es, lim), lim);
  }

  lemma DayWithin(l: Ledger, lim: KeyLimits)
    requires Inv(l, lim) && lim.daily > 0
    ensures var since := DayOf(l.now) - 1;
            && l.key.tokens.today == SeedOf(l) + PaidSince(l.paid, since)
            && l.key.tokens.today + Held(l.live) <= Max(lim.daily, SeedOf(l)) + OverrunSince(l.paid, since)
  {
  }

  /** Slots and reservations are those of the live admissions, whatever the order they settle in. */
  lemma CountersAreSums(now: int, seeded: nat, es: seq<Event>, lim: KeyLimits)
    requires Runs(Start(now, seeded), es, lim)
    ensures var l := Run(Start(now, seeded), es, lim);
            && l.key.inFlight == Attached(l.live)
            && l.key.tokens.reserved == Held(l.live)
            && (lim.maxConcurrent > 0 ==> l.key.inFlight <= lim.maxConcurrent)
            && (l.live == [] ==> l.key.inFlight == 0 && l.key.tokens.reserved == 0)
  {
    StartKeeps(now, seeded, lim);
    RunKeeps(Start(now, seeded), es, lim);
  }

  // ---- Retry-After ----

  lemma {:induction false} RequestsFall(log: seq<Entry>, c: int)
    requires forall i :: 0 <= i < |log| ==> log[i].req == 1
    ensures 0 <= Requests(DropEntries(log, c)) <= Requests(log)
  {
    if log != [] {
      RequestsFall(log[1..], c);
      RequestsFall(log[1..], log[0].t - 1);
      if log[0].t > c {
        RequestsNat(log);
      }
    }
  }

  lemma {:induction false} RequestsNat(log: seq<Entry>)
    requires forall i :: 0 <= i < |log| ==> log[i].req == 1
    ensures Requests(log) == |log|
  {
    if log != [] {
      RequestsNat(log[1..]);
    }
  }

  lemma {:induction false} SeenEntries(h: seq<Past>, c: int)
    ensures forall i :: 0 <= i < |Seen(h, c)| ==> Seen(h, c)[i].req == 1 && Seen(h, c)[i].t > c
  {
    if h != [] {
      SeenEntries(h[1..], c);
    }
  }

  /**
   After an RPM refusal that said `s`, and nothing else happening, the same request is admitted
   after `w` seconds exactly when `w >= s`.
   */
  lemma RateRetryExact(l: Ledger, lim: KeyLimits, detached: bool, w: nat)
    requires Inv(l, lim)
    ensures var (p, r) := Admit(l.key, l.now, lim, detached);
            r.Refused? && r.why.Rate? ==>
              (Admit(p, l.now + SECOND * w, lim, detached).1.Granted? <==> w >= r.why.retry)
  {
    NothingToPrune(l);
    var k := l.key;
    var (p, r) := Admit(k, l.now, lim, detached);
    if r.Refused? && r.why.Rate? {
      SeenEntries(l.hist, Cutoff(l.now));
      RequestsAreCounted(l.hist, l.now);
      assert MinuteTo(l.hist, l.now) <= lim.rpm;
      assert k.log != [];
      SecondsUntilExact(k.log[0].t + WINDOW, l.now, w);
      RequestsFall(k.log[1..], Cutoff(l.now + SECOND * w));
    }
  }

  /**
   Whenever it comes, an admission is granted exactly when the key has a slot free among its live
   admissions and fewer than RPM counted admissions in the whole history's last 60 seconds.
   */
  lemma AdmittedExactly(l: Ledger, t: int, lim: KeyLimits, detached: bool)
    requires Inv(l, lim) && l.now <= t
    ensures Admit(l.key, t, lim, detached).1.Granted? <==>
            && (detached || lim.maxConcurrent <= 0 || Attached(l.live) < lim.maxConcurrent)
            && (lim.rpm <= 0 || CountIn(l.hist, t - WINDOW, t) < lim.rpm)
  {
    DropIsSeen(l.hist, Cutoff(l.now), Cutoff(t), l.now);
    RequestsAreCounted(l.hist, t);
  }

  /** All the slots the key may have are taken by live admissions. */
  predicate Full(l: Ledger, lim: KeyLimits, detached: bool) {
    !detached && lim.maxConcurrent > 0 && Attached(l.live) >= lim.maxConcurrent
  }

  /** The whole history counts RPM admissions in the 60 seconds before `t`. */
  predicate Crowded(l: Ledger, t: int, lim: KeyLimits) {
    lim.rpm > 0 && CountIn(l.hist, t - WINDOW, t) >= lim.rpm
  }

  /**
   What an admission is told: that its slots are taken, whenever they are; otherwise, when the minute is
   full, for how long it is, which is exact; nothing else refuses it, and a refusal takes nothing.
   */
  lemma AdmissionOutcome(l: Ledger, t: int, lim: KeyLimits, detached: bool)
    requires Inv(l, lim) && l.now <= t
    ensures var (p, r) := Admit(l.key, t, lim, detached);
            && (r == Refused(Concurrency) <==> Full(l, lim, detached))
            && (r.Refused? && r.why.Rate? <==> !Full(l, lim, detached) && Crowded(l, t, lim))
            && (r.Granted? <==> !Full(l, lim, detached) && !Crowded(l, t, lim))
            && (r.Refused? ==> p == Prune(l.key, t))
    ensures !Full(l, lim, detached) && Crowded(l, l.now, lim) ==>
              var (p, r) := Admit(l.key, l.now, lim, detached);
              && r.Refused? && r.why.Rate?
              && forall w: nat :: Admit(p, l.now + SECOND * w, lim, detached).1.Granted? <==> w >= r.why.retry
  {
    DropIsSeen(l.hist, Cutoff(l.now), Cutoff(t), l.now);
    RequestsAreCounted(l.hist, t);
    if !Full(l, lim, detached) && Crowded(l, l.now, lim) {
      DropIsSeen(l.hist, Cutoff(l.now), Cutoff(l.now), l.now);
      RequestsAreCounted(l.hist, l.now);
      forall w: nat
        ensures var (p, r) := Admit(l.key, l.now, lim, detached);
                r.Refused? && r.why.Rate? &&
                (Admit(p, l.now + SECOND * w, lim, detached).1.Granted? <==> w >= r.why.retry)
      {
        RateRetryExact(l, lim, detached, w);
      }
    }
  }

  predicate Rated(r: (Key, Result<(Admission, int)>)) {
    r.1.Refused? && r.1.why.Rate?
  }

  ghost predicate ChargesInOrder(log: seq<Charge>) {
    && (forall i :: 0 <= i < |log| ==> log[i].amount > 0)
    && (forall i, j :: 0 <= i < j < |log| ==> log[i].t <= log[j].t)
  }

  lemma {:induction false} SeenChargesFrom(h: seq<Paid>, c: int, now: int)
    requires PaidInOrder(h, now)
    ensures forall e <- SeenCharges(h, c) :: e.t > c && e.amount > 0 && h != [] && e.t >= h[0].t
  {
    if h != [] {
      SeenChargesFrom(h[1..], c, now);
    }
  }

  lemma InOrderCons(x: Charge, log: seq<Charge>)
    requires ChargesInOrder(log) && x.amount > 0 && forall e <- log :: e.t >= x.t
    ensures ChargesInOrder([x] + log)
  {
  }

  lemma {:induction false} SeenChargesInOrder(h: seq<Paid>, c: int, now: int)
    requires PaidInOrder(h, now)
    ensures ChargesInOrder(SeenCharges(h, c))
    ensures forall i :: 0 <= i < |SeenCharges(h, c)| ==> SeenCharges(h, c)[i].t > c
  {
    SeenChargesFrom(h, c, now);
    if h != [] {
      SeenChargesInOrder(h[1..], c, now);
      SeenChargesFrom(h[1..], c, now);
      if h[0].t > c {
        InOrderCons(Charge(h[0].t, h[0].amount), SeenCharges(h[1..], c));
      } else {
        assert SeenCharges(h, c) == SeenCharges(h[1..], c);
      }
    }
  }

  lemma {:induction false} ChargedFall(log: seq<Charge>, c: int)
    requires ChargesInOrder(log)
    ensures 0 <= Charged(DropCharges(log, c)) <= Charged(log)
  {
    if log != [] {
      ChargedFall(log[1..], c);
      if log[0].t > c {
        ChargedFall(log[1..], log[0].t - 1);
        ChargedNat(log);
      }
    }
  }

  lemma {:induction false} ChargedNat(log: seq<Charge>)
    requires ChargesInOrder(log)
    ensures Charged(log) >= 0
  {
    if log != [] {
      ChargedNat(log[1..]);
    }
  }

  /** The walk over the log finds the first second at which enough has expired, if any will be. */
  lemma {:induction false} ExpiryExact(log: seq<Charge>, held: int, need: int, limit: int, now: int, w: nat)
    requires ChargesInOrder(log) && forall i :: 0 <= i < |log| ==> log[i].t > Cutoff(now)
    requires Charged(log) + held + need > limit
    ensures var found := Expiry(log, Charged(log) + held, need, limit, now);
            && (found.Some? <==> held + need <= limit)
            && (found.Some? ==>
                  (Charged(DropCharges(log, Cutoff(now + SECOND * w))) + held + need <= limit <==> w >= found.value))
  {
    if log != [] {
      var c := Cutoff(now + SECOND * w);
      SecondsUntilExact(log[0].t + WINDOW, now, w);
      ChargedFall(log[1..], c);
      ChargedNat(log[1..]);
      if Charged(log[1..]) + held + need > limit {
        ExpiryExact(log[1..], held, need, limit, now, w);
      }
    }
  }

  /** Shrinking to the minute does not change the least a request can take. */
  lemma FloorKept(limit: int, used: int, prompt: int, out: int)
    ensures var (r, ok) := FitBudget(limit, used, prompt, out); ok ==> FloorFor(r) == FloorFor(out)
  {
  }

  /** The minute has room for the least the request can take. */
  predicate MinuteFits(k: Key, now: int, lim: KeyLimits, need: int) {
    var m := Prune(k, now).tokens;
    lim.tpm <= 0 || Charged(m.log) + m.reserved + need <= lim.tpm
  }

  predicate DayFits(k: Key, now: int, lim: KeyLimits, need: int) {
    var m := Prune(k, now).tokens;
    lim.daily <= 0 || m.today + m.reserved + need <= lim.daily
  }

  /** Which ceiling refuses, with what Retry-After, and that nothing else does. */
  lemma ReserveOutcome(k: Key, a: Admission, now: int, lim: KeyLimits, prompt: int, out: int)
    ensures var need := prompt + FloorFor(out);
            var minute, day := MinuteFits(k, now, lim, need), DayFits(k, now, lim, need);
            var r := Reserve(k, a, now, lim, prompt, out);
            && (r.1.Granted? <==> minute && day)
            && (r.1.Refused? ==> r.0 == Prune(k, now))
            && (!minute ==> r.1 == Refused(Rate(TokenRetry(Prune(k, now).tokens, need, lim.tpm, now))))
            && (minute && !day ==> r.1 == Refused(Budget(SecondsUntil(DayOf(now) + DAY, now))))
  {
    var m := Prune(k, now).tokens;
    FitBudgetExact(lim.tpm, Charged(m.log) + m.reserved, prompt, out);
    FloorKept(lim.tpm, Charged(m.log) + m.reserved, prompt, out);
    FitBudgetExact(lim.daily, m.today + m.reserved, prompt,
                   FitBudget(lim.tpm, Charged(m.log) + m.reserved, prompt, out).0);
  }

  lemma ReserveGranted(k: Key, a: Admission, now: int, lim: KeyLimits, prompt: int, out: int)
    ensures var need := prompt + FloorFor(out);
            Reserve(k, a, now, lim, prompt, out).1.Granted?
            <==> MinuteFits(k, now, lim, need) && DayFits(k, now, lim, need)
  {
    ReserveOutcome(k, a, now, lim, prompt, out);
  }

  /** Both ceilings leave room for the output `out`, and for no output without one. */
  predicate Fits(m: Meter, lim: KeyLimits, prompt: int, out: int) {
    && (lim.tpm > 0 ==> Charged(m.log) + m.reserved + prompt + out <= lim.tpm)
    && (lim.daily > 0 ==> m.today + m.reserved + prompt + out <= lim.daily)
  }

  /**
   A granted request holds exactly its prompt and the cap it was given, which is the largest cap not
   over the one asked for that both ceilings have room for; with no cap asked and none set, none.
   */
  lemma GrantIsLargest(k: Key, a: Admission, now: int, lim: KeyLimits, prompt: int, out: int)
    ensures var m := Prune(k, now).tokens;
            var (k2, r) := Reserve(k, a, now, lim, prompt, out);
            r.Granted? ==>
              && r.value.0.reserved == prompt + Max(r.value.1, 0)
              && k2.tokens == m.(reserved := m.reserved + r.value.0.reserved)
              && r.value.0.num == a.num
              && (r.value.1 < 0 <==> out < 0 && lim.tpm <= 0 && lim.daily <= 0)
              && (r.value.1 >= 0 ==> Fits(m, lim, prompt, r.value.1))
              && (out >= 0 ==> r.value.1 <= out)
              && (r.value.1 >= 0 ==> forall c: int ::
                                       Fits(m, lim, prompt, c) && (out < 0 || c <= out) ==> c <= r.value.1)
  {
    var m := Prune(k, now).tokens;
    FitBudgetExact(lim.tpm, Charged(m.log) + m.reserved, prompt, out);
    FitBudgetExact(lim.daily, m.today + m.reserved, prompt,
                   FitBudget(lim.tpm, Charged(m.log) + m.reserved, prompt, out).0);
  }

  lemma MidnightExact(now: int, w: nat)
    ensures var s := SecondsUntil(DayOf(now) + DAY, now);
            w < s <==> DayOf(now + SECOND * w) == DayOf(now)
  {
    SecondsUntilExact(DayOf(now) + DAY, now, w);
  }

  lemma MinuteFitsLater(l: Ledger, lim: KeyLimits, need: int, w: nat)
    requires Inv(l, lim)
    ensures MinuteFits(l.key, l.now, lim, need) ==> MinuteFits(l.key, l.now + SECOND * w, lim, need)
    ensures !MinuteFits(l.key, l.now, lim, need) ==>
              var retry := TokenRetry(l.key.tokens, need, lim.tpm, l.now);
              if l.key.tokens.reserved + need <= lim.tpm
              then (MinuteFits(l.key, l.now + SECOND * w, lim, need) <==> w >= retry)
              else retry == 60 && !MinuteFits(l.key, l.now + SECOND * w, lim, need)
  {
    NothingToPrune(l);
    var m := l.key.tokens;
    SeenChargesInOrder(l.paid, Cutoff(l.now), l.now);
    ChargedFall(m.log, Cutoff(l.now + SECOND * w));
    if !MinuteFits(l.key, l.now, lim, need) {
      ExpiryExact(m.log, m.reserved, need, lim.tpm, l.now, w);
    }
  }

  lemma DayFitsLater(l: Ledger, lim: KeyLimits, need: int, w: nat)
    requires Inv(l, lim) && !DayFits(l.key, l.now, lim, need)
    ensures DayFits(l.key, l.now + SECOND * w, lim, need) <==>
            w >= SecondsUntil(DayOf(l.now) + DAY, l.now) && l.key.tokens.reserved + need <= lim.daily
  {
    NothingToPrune(l);
    MidnightExact(l.now, w);
  }

  /**
   After a TPM refusal that said `s`, and nothing else happening, the minute lets the same request
   through after `w` seconds exactly when `w >= s` - provided that reservations alone leave it room.
   When they do not, the answer is 60 and no wait is long enough.
   */
  lemma TokenRetryExact(l: Ledger, lim: KeyLimits, a: Admission, prompt: int, out: int, w: nat)
    requires Inv(l, lim)
    ensures var (p, r) := Reserve(l.key, a, l.now, lim, prompt, out);
            var later := Reserve(p, a, l.now + SECOND * w, lim, prompt, out);
            r.Refused? && r.why.Rate? ==>
              if l.key.tokens.reserved + prompt + FloorFor(out) <= lim.tpm
              then (!Rated(later) <==> w >= r.why.retry)
              else r.why.retry == 60 && Rated(later)
  {
    var p := l.key;
    NothingToPrune(l);
    ReserveOutcome(p, a, l.now, lim, prompt, out);
    ReserveOutcome(p, a, l.now + SECOND * w, lim, prompt, out);
    MinuteFitsLater(l, lim, prompt + FloorFor(out), w);
  }

  /**
   After a daily refusal that said `s`, and nothing else happening, the same request passes after
   `w` seconds exactly when the next UTC day has begun and the live reservations leave it room.
   */
  lemma DayRetryExact(l: Ledger, lim: KeyLimits, a: Admission, prompt: int, out: int, w: nat)
    requires Inv(l, lim)
    ensures var (p, r) := Reserve(l.key, a, l.now, lim, prompt, out);
            var later := Reserve(p, a, l.now + SECOND * w, lim, prompt, out);
            r.Refused? && r.why.Budget? ==>
              (later.1.Granted? <==>
                 w >= r.why.retry && l.key.tokens.reserved + prompt + FloorFor(out) <= lim.daily)
  {
    var p, need := l.key, prompt + FloorFor(out);
    NothingToPrune(l);
    ReserveOutcome(p, a, l.now, lim, prompt, out);
    ReserveGranted(p, a, l.now + SECOND * w, lim, prompt, out);
    if MinuteFits(p, l.now, lim, need) && !DayFits(p, l.now, lim, need) {
      MinuteFitsLater(l, lim, need, w);
      DayFitsLater(l, lim, need, w);
    }
  }

  /**
   Whenever it comes, a reservation is granted exactly when the least the request can take fits both
   ceilings beside the live reservations and the charges that the history has in the last 60 seconds,
   and in the day with what the day was seeded with.
   */
  lemma ReservedExactly(l: Ledger, a: Admission, t: int, lim: KeyLimits, prompt: int, out: int)
    requires Inv(l, lim) && l.now <= t
    ensures var need := prompt + FloorFor(out);
            var seed := if DayOf(t) == l.seedDay then l.seeded else 0;
            Reserve(l.key, a, t, lim, prompt, out).1.Granted? <==>
            && (lim.tpm <= 0 || PaidSince(l.paid, t - WINDOW) + Held(l.live) + need <= lim.tpm)
            && (lim.daily <= 0 || seed + PaidSince(l.paid, DayOf(t) - 1) + Held(l.live) + need <= lim.daily)
  {
    LookKeeps(l, t, lim);
    ReserveOutcome(l.key, a, t, lim, prompt, out);
    FitsByHistory(Do(l, Looking(t), lim), l.key, t, lim, prompt + FloorFor(out));
  }

  /** What the pruned meter says of the two ceilings, in terms of the history. */
  lemma FitsByHistory(m: Ledger, k: Key, t: int, lim: KeyLimits, need: int)
    requires Mirrors(m) && m.now == t && m.key == Prune(k, t)
    ensures MinuteFits(k, t, lim, need) <==>
            lim.tpm <= 0 || PaidSince(m.paid, t - WINDOW) + Held(m.live) + need <= lim.tpm
    ensures DayFits(k, t, lim, need) <==>
            lim.daily <= 0 || SeedOf(m) + PaidSince(m.paid, DayOf(t) - 1) + Held(m.live) + need <= lim.daily
  {
    ChargedIsPaid(m.paid, Cutoff(t));
  }

  // ---- waits that are not long enough ----

  /** With no limit on requests they are always admitted. */
  lemma AlwaysAdmitted(l: Ledger, lim: KeyLimits)
    requires Inv(l, lim) && lim.maxConcurrent <= 0 && lim.rpm <= 0
    ensures Do(l, Admitting(l.now, false), lim) == Admitted(l, false) && Inv(Admitted(l, false), lim)
  {
    NothingToPrune(l);
    AdmitStep(l, false, lim);
    AdmitKeeps(l, false, lim);
  }

  /** A prompt that both ceilings have room for, with no output, is reserved as it is. */
  lemma PromptReserved(l: Ledger, i: nat, prompt: nat, lim: KeyLimits)
    requires Inv(l, lim) && i < |l.live| && l.live[i].reserved == 0 && HasRoom(l.key.tokens, lim, prompt)
    ensures Do(l, Reserving(l.now, i, prompt, 0), lim) == Reserved(l, i, prompt) && Inv(Reserved(l, i, prompt), lim)
  {
    NothingToPrune(l);
    ReserveOutcome(l.key, l.live[i], l.now, lim, prompt, 0);
    GrantIsLargest(l.key, l.live[i], l.now, lim, prompt, 0);
    ReserveStep(l, i, prompt, 0, lim);
    ReservedKeeps(l, i, prompt, lim);
  }

  lemma RunFirst(l: Ledger, e: Event, es: seq<Event>, lim: KeyLimits)
    requires Enabled(l, e) && Runs(Do(l, e, lim), es, lim)
    ensures Runs(l, [e] + es, lim) && Run(l, [e] + es, lim) == Run(Do(l, e, lim), es, lim)
  {
    assert ([e] + es)[1..] == es;
  }

  /** Two admissions at the start, and a reservation of `n` tokens on the first. */
  function ReservingAll(now: int, n: nat): seq<Event> {
    [Admitting(now, false)] + ([Admitting(now, false)] + ([Reserving(now, 0, n, 0)] + []))
  }

  function TwoAdmitted(now: int): Ledger {
    Admitted(Admitted(Start(now, 0), false), false)
  }

  lemma TwoAdmittedHas(now: int)
    ensures var l := TwoAdmitted(now);
            && l.now == now && l.key.tokens == Meter(0, 0, []) && |l.live| == 2
            && l.live[0].reserved == 0 && l.live[1].reserved == 0
  {
  }

  lemma TwoAdmittedRuns(now: int, es: seq<Event>, lim: KeyLimits)
    requires lim.maxConcurrent <= 0 && lim.rpm <= 0
    ensures Inv(TwoAdmitted(now), lim)
    ensures Runs(TwoAdmitted(now), es, lim) ==>
              var all := [Admitting(now, false)] + ([Admitting(now, false)] + es);
              Runs(Start(now, 0), all, lim) && Run(Start(now, 0), all, lim) == Run(TwoAdmitted(now), es, lim)
  {
    var l0 := Start(now, 0);
    var l1 := Admitted(l0, false);
    StartKeeps(now, 0, lim);
    AlwaysAdmitted(l0, lim);
    AlwaysAdmitted(l1, lim);
    if Runs(TwoAdmitted(now), es, lim) {
      RunFirst(l1, Admitting(now, false), es, lim);
      RunFirst(l0, Admitting(now, false), [Admitting(now, false)] + es, lim);
    }
  }

  /** A key all of whose tokens are reserved: the ones of the minute, or the ones of the day. */
  lemma AllReserved(now: int, n: nat, lim: KeyLimits)
    requires n > 0 && (lim == KeyLimits(0, 0, n, 0) || lim == KeyLimits(0, 0, 0, n))
    ensures var es := ReservingAll(now, n);
            Runs(Start(now, 0), es, lim) && Run(Start(now, 0), es, lim) == Reserved(TwoAdmitted(now), 0, n)
    ensures var l := Reserved(TwoAdmitted(now), 0, n);
            && Inv(l, lim) && l.now == now && |l.live| == 2 && l.live[1].reserved == 0
            && l.key.tokens == Meter(0, n, [])
  {
    var l, last := TwoAdmitted(now), Reserving(now, 0, n, 0);
    TwoAdmittedRuns(now, [last] + [], lim);
    TwoAdmittedHas(now);
    PromptReserved(l, 0, n, lim);
    RunFirst(l, last, [], lim);
  }

  /** Then one token more is refused with a Retry-After of 60 seconds, and after any wait it is refused again. */
  lemma MinuteNeverFrees(now: int, n: nat, w: nat)
    requires n > 0
    ensures var lim, es := KeyLimits(0, 0, n, 0), ReservingAll(now, n);
            Runs(Start(now, 0), es, lim) &&
            var l := Run(Start(now, 0), es, lim);
            |l.live| == 2 &&
            var (p, r) := Reserve(l.key, l.live[1], l.now, lim, 1, 0);
            r == Refused(Rate(60)) && Rated(Reserve(p, l.live[1], l.now + SECOND * w, lim, 1, 0))
  {
    var lim := KeyLimits(0, 0, n, 0);
    AllReserved(now, n, lim);
    FullMinute(Reserved(TwoAdmitted(now), 0, n), lim, w);
  }

  lemma FullMinute(l: Ledger, lim: KeyLimits, w: nat)
    requires Inv(l, lim) && lim.tpm > 0 && |l.live| == 2 && l.key.tokens.reserved == lim.tpm && l.key.tokens.log == []
    ensures var (p, r) := Reserve(l.key, l.live[1], l.now, lim, 1, 0);
            r == Refused(Rate(60)) && Rated(Reserve(p, l.live[1], l.now + SECOND * w, lim, 1, 0))
  {
    NothingToPrune(l);
    ReserveOutcome(l.key, l.live[1], l.now, lim, 1, 0);
    TokenRetryExact(l, lim, l.live[1], 1, 0, w);
  }

  /** And of a day's budget, the refusal says midnight, and after midnight it is refused again. */
  lemma DayNeverFrees(now: int, n: nat, w: nat)
    requires n > 0
    ensures var lim, es := KeyLimits(0, 0, 0, n), ReservingAll(now, n);
            Runs(Start(now, 0), es, lim) &&
            var l := Run(Start(now, 0), es, lim);
            |l.live| == 2 &&
            var (p, r) := Reserve(l.key, l.live[1], l.now, lim, 1, 0);
            r.Refused? && r.why.Budget? && Reserve(p, l.live[1], l.now + SECOND * w, lim, 1, 0).1.Refused?
  {
    var lim := KeyLimits(0, 0, 0, n);
    AllReserved(now, n, lim);
    FullDay(Reserved(TwoAdmitted(now), 0, n), lim, w);
  }

  lemma FullDay(l: Ledger, lim: KeyLimits, w: nat)
    requires Inv(l, lim) && lim.tpm <= 0 && lim.daily > 0 && |l.live| == 2 && l.key.tokens == Meter(0, lim.daily, [])
    ensures var (p, r) := Reserve(l.key, l.live[1], l.now, lim, 1, 0);
            r.Refused? && r.why.Budget? && Reserve(p, l.live[1], l.now + SECOND * w, lim, 1, 0).1.Refused?
  {
    NothingToPrune(l);
    ReserveOutcome(l.key, l.live[1], l.now, lim, 1, 0);
    DayRetryExact(l, lim, l.live[1], 1, 0, w);
  }
}
