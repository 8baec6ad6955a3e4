/**
 The per-key limiter as functions on a key's state: the pruned sliding log of admissions, the
 token meter with its charges and live reservations, shrink-to-fit, and Retry-After. Times are
 nanoseconds, amounts whole tokens. The class in KeyState.dfy is proved against these functions.
 */
module Limits {
  import opened Prelude

  const SECOND: int := 1_000_000_000
  const WINDOW: int := 60 * SECOND
  const DAY: int := 24 * 60 * 60 * SECOND

  /** The least output a shrunk cap is left with. */
  const MIN_OUTPUT: int := 16

  datatype KeyLimits = KeyLimits(maxConcurrent: int, rpm: int, tpm: int, daily: int)

  /** An admission in the log; `num` says whose. */
  datatype Entry = Entry(t: int, req: int, num: nat)

  datatype Charge = Charge(t: int, amount: int)

  datatype Meter = Meter(today: int, reserved: int, log: seq<Charge>)

  datatype Key = Key(log: seq<Entry>, last: nat, inFlight: int, day: Option<int>, tokens: Meter)

  datatype Admission = Admission(num: nat, detached: bool, reserved: int)

  datatype Refusal = Concurrency | Rate(retry: int) | Budget(retry: int)

  datatype Result<+T> = Granted(value: T) | Refused(why: Refusal)

  const FreshKey := Key([], 0, 0, None, Meter(0, 0, []))

  function DayOf(t: int): int {
    t - t % DAY
  }

  function Cutoff(now: int): int {
    now - WINDOW
  }

  function DropEntries(log: seq<Entry>, cutoff: int): seq<Entry> {
    if log != [] && log[0].t <= cutoff then DropEntries(log[1..], cutoff) else log
  }

  function DropCharges(log: seq<Charge>, cutoff: int): seq<Charge> {
    if log != [] && log[0].t <= cutoff then DropCharges(log[1..], cutoff) else log
  }

  function PruneMeter(m: Meter, now: int, rolled: bool): Meter {
    Meter(if rolled then 0 else m.today, m.reserved, DropCharges(m.log, Cutoff(now)))
  }

  /** `prune`: forget what has left the window, and start the day's count over on a new day. */
  function Prune(k: Key, now: int): Key {
    k.(log := DropEntries(k.log, Cutoff(now)), day := Some(DayOf(now)),
       tokens := PruneMeter(k.tokens, now, k.day != Some(DayOf(now))))
  }

  function Requests(log: seq<Entry>): int {
    if log == [] then 0 else log[0].req + Requests(log[1..])
  }

  function Charged(log: seq<Charge>): int {
    if log == [] then 0 else log[0].amount + Charged(log[1..])
  }

  /** Whole seconds until `t`, rounded up, never less than one. */
  function SecondsUntil(t: int, now: int): int {
    Max(1, (t - now + SECOND - 1) / SECOND)
  }

  function OldestRequest(log: seq<Entry>): Option<int> {
    if log == [] then None
    else if log[0].req == 1 then Some(log[0].t)
    else OldestRequest(log[1..])
  }

  /** `admitResource`: the check and, on success, one in-flight slot and one log entry. */
  function Admit(k: Key, now: int, lim: KeyLimits, detached: bool): (Key, Result<Admission>) {
    var p := Prune(k, now);
    if !detached && lim.maxConcurrent > 0 && p.inFlight >= lim.maxConcurrent then (p, Refused(Concurrency))
    else if lim.rpm > 0 && Requests(p.log) >= lim.rpm then
      var oldest := OldestRequest(p.log);
      (p, Refused(Rate(SecondsUntil((if oldest.Some? then oldest.value else 0) + WINDOW, now))))
    else
      (p.(inFlight := p.inFlight + (if detached then 0 else 1), last := p.last + 1,
          log := p.log + [Entry(now, 1, p.last + 1)]),
       Granted(Admission(p.last + 1, detached, 0)))
  }

  /** `fitBudget` against one ceiling; `out < 0` is an output with no cap anywhere. */
  function FitBudget(limit: int, used: int, prompt: int, out: int): (int, bool) {
    if limit <= 0 then (out, true)
    else
      var room := limit - used - prompt;
      if out == 0 then (0, room >= 0)
      else if out > 0 && out <= room then (out, true)
      else if room >= MIN_OUTPUT then (room, true)
      else (0, false)
  }

  /** The least output `FitBudget` grants for `out`. */
  function FloorFor(out: int): int {
    if out == 0 then 0 else if out < 0 then MIN_OUTPUT else Min(out, MIN_OUTPUT)
  }

  /** The loop that finds when enough charges will have expired; none when the log cannot free enough. */
  function Expiry(log: seq<Charge>, remaining: int, need: int, limit: int, now: int): Option<int> {
    if log == [] then None
    else if remaining - log[0].amount + need <= limit then Some(SecondsUntil(log[0].t + WINDOW, now))
    else Expiry(log[1..], remaining - log[0].amount, need, limit, now)
  }

  function TokenRetry(m: Meter, need: int, limit: int, now: int): int {
    var found := Expiry(m.log, Charged(m.log) + m.reserved, need, limit, now);
    if found.Some? then found.value else SecondsUntil(now + WINDOW, now)
  }

  /** `reserve`: the worst case must fit the minute and the day; the cap in force comes back. */
  function Reserve(k: Key, a: Admission, now: int, lim: KeyLimits, prompt: int, out: int)
    : (Key, Result<(Admission, int)>) {
    var p := Prune(k, now);
    var m := p.tokens;
    var need := prompt + FloorFor(out);
    var (minute, fits) := FitBudget(lim.tpm, Charged(m.log) + m.reserved, prompt, out);
    if !fits then (p, Refused(Rate(TokenRetry(m, need, lim.tpm, now))))
    else
      var (fitted, ok) := FitBudget(lim.daily, m.today + m.reserved, prompt, minute);
      if !ok then (p, Refused(Budget(SecondsUntil(DayOf(now) + DAY, now))))
      else
        var worst := prompt + Max(fitted, 0);
        (p.(tokens := m.(reserved := m.reserved + worst)), Granted((a.(reserved := worst), fitted)))
  }

  function RemoveEntry(log: seq<Entry>, s: nat): seq<Entry> {
    if log == [] then []
    else if log[0].req == 1 && log[0].num == s then log[1..]
    else [log[0]] + RemoveEntry(log[1..], s)
  }

  /** `settle`: the slot and the reservation go back, the entry goes when uncounted, the charge is logged. */
  function Settle(k: Key, a: Admission, now: int, counted: bool, charged: int): Key {
    var p := Prune(k, now);
    var m := p.tokens.(reserved := p.tokens.reserved - a.reserved);
    p.(inFlight := p.inFlight - (if a.detached then 0 else 1),
       log := if counted then p.log else RemoveEntry(p.log, a.num),
       tokens := if charged > 0 then m.(log := m.log + [Charge(now, charged)], today := m.today + charged) else m)
  }

  /** `seedToday` for one key: today's charges as recorded before the restart. */
  function Seed(k: Key, day: int, charged: int): Key {
    k.(day := Some(day), tokens := k.tokens.(today := charged))
  }

  // ---- what the pieces mean ----

  /**
   A request fits a ceiling exactly when none is set or its prompt and floor fit beside what is
   used; then it is granted what it asked for, or all the room there is.
   */
  lemma FitBudgetExact(limit: int, used: int, prompt: int, out: int)
    ensures var (r, ok) := FitBudget(limit, used, prompt, out);
            && (ok <==> limit <= 0 || used + prompt + FloorFor(out) <= limit)
            && (ok && limit <= 0 ==> r == out)
            && (ok && limit > 0 ==> FloorFor(out) <= r && used + prompt + r <= limit)
            && (ok && limit > 0 && out >= 0 ==>
                  r == (if used + prompt + out <= limit then out else limit - used - prompt))
            && (ok && limit > 0 && out < 0 ==> used + prompt + r == limit)
  {
  }

  /** The first whole second at or after `t`, for a `t` in the future. */
  lemma SecondsUntilExact(t: int, now: int, w: int)
    requires now < t
    ensures now + SECOND * SecondsUntil(t, now) >= t
    ensures w < SecondsUntil(t, now) ==> now + SECOND * w < t
    ensures SecondsUntil(t, now) >= 1
  {
  }
}
