/**
 A key's limiter state as the gateway keeps it: fields and logs changed in place, one call at a
 time under the key's lock. Every method is proved to do what its function in Limits.dfy says.
 */
module KeyState {
  import opened Prelude
  import opened Limits

  lemma {:induction false} RequestsSnoc(log: seq<Entry>, e: Entry)
    ensures Requests(log + [e]) == Requests(log) + e.req
  {
    if log == [] {
      assert log + [e] == [e];
    } else {
      HeadTail(log[0], log[1..], [e]);
      assert log == [log[0]] + log[1..];
      RequestsSnoc(log[1..], e);
    }
  }

  lemma {:induction false} ChargedSnoc(log: seq<Charge>, c: Charge)
    ensures Charged(log + [c]) == Charged(log) + c.amount
  {
    if log == [] {
      assert log + [c] == [c];
    } else {
      HeadTail(log[0], log[1..], [c]);
      assert log == [log[0]] + log[1..];
      ChargedSnoc(log[1..], c);
    }
  }

  /** What the loop of `settle` builds, up to the entry it looks for. */
  lemma {:induction false} RemoveAt(log: seq<Entry>, num: nat, i: nat)
    requires i <= |log| && forall j :: 0 <= j < i ==> !(log[j].req == 1 && log[j].num == num)
    ensures RemoveEntry(log, num) ==
            if i == |log| then log
            else if log[i].req == 1 && log[i].num == num then log[..i] + log[i + 1..]
            else RemoveEntry(log, num)
  {
    if i > 0 {
      RemoveAt(log[1..], num, i - 1);
      if i == |log| {
        assert log == [log[0]] + log[1..];
      } else {
        assert log[1..][..i - 1] == log[1..i];
        assert log[1..][i..] == log[i + 1..];
        assert log[..i] == [log[0]] + log[1..i];
        Assoc([log[0]], log[1..i], log[i + 1..]);
      }
    }
  }

  class KeyState {
    var log: seq<Entry>
    var last: nat
    var inFlight: int
    var day: Option<int>
    var lastSeen: Option<int>
    var today: int
    var reserved: int
    var charges: seq<Charge>

    ghost function Abs(): Key
      reads this
    {
      Key(log, last, inFlight, day, Meter(today, reserved, charges))
    }

    constructor ()
      ensures Abs() == FreshKey && lastSeen == None
    {
      log, last, inFlight, day, lastSeen, today, reserved, charges := [], 0, 0, None, None, 0, 0, [];
    }

    method SeedToday(dayStart: int, seen: int, charged: int)
      modifies this
      ensures Abs() == Seed(old(Abs()), dayStart, charged) && lastSeen == Some(seen)
    {
      day, lastSeen := Some(dayStart), Some(seen);
      today := charged;
    }

    method Prune(now: int)
      modifies this
      ensures Abs() == Limits.Prune(old(Abs()), now) && lastSeen == old(lastSeen)
    {
      var cutoff := now - WINDOW;
      var i := 0;
      while i < |log| && log[i].t <= cutoff
        invariant 0 <= i <= |log|
        invariant DropEntries(log[i..], cutoff) == DropEntries(log, cutoff)
      {
        i := i + 1;
      }
      log := log[i..];
      i := 0;
      while i < |charges| && charges[i].t <= cutoff
        invariant 0 <= i <= |charges|
        invariant DropCharges(charges[i..], cutoff) == DropCharges(charges, cutoff)
      {
        i := i + 1;
      }
      charges := charges[i..];
      var midnight := now - now % DAY;
      if day != Some(midnight) {
        today := 0;
      }
      day := Some(midnight);
    }

    method Used() returns (requests: int, tokens: int)
      ensures requests == Requests(log) && tokens == Charged(charges)
    {
      requests, tokens := 0, 0;
      for i := 0 to |log|
        invariant requests == Requests(log[..i])
      {
        RequestsSnoc(log[..i], log[i]);
        assert log[..i + 1] == log[..i] + [log[i]];
        requests := requests + log[i].req;
      }
      assert log[..|log|] == log;
      for i := 0 to |charges|
        invariant tokens == Charged(charges[..i])
      {
        ChargedSnoc(charges[..i], charges[i]);
        assert charges[..i + 1] == charges[..i] + [charges[i]];
        tokens := tokens + charges[i].amount;
      }
      assert charges[..|charges|] == charges;
    }

    method Oldest() returns (oldest: int)
      ensures oldest == (if OldestRequest(log).Some? then OldestRequest(log).value else 0)
    {
      oldest := 0;
      var i := 0;
      while i < |log|
        invariant 0 <= i <= |log|
        invariant oldest == 0 && OldestRequest(log[i..]) == OldestRequest(log)
      {
        if log[i].req == 1 {
          oldest := log[i].t;
          return;
        }
        i := i + 1;
      }
    }

    method AdmitResource(now: int, lim: KeyLimits, detached: bool) returns (r: Result<Admission>)
      modifies this
      ensures (Abs(), r) == Admit(old(Abs()), now, lim, detached) && lastSeen == Some(now)
    {
      Prune(now);
      lastSeen := Some(now);
      if !detached && lim.maxConcurrent > 0 && inFlight >= lim.maxConcurrent {
        return Refused(Concurrency);
      }
      var requests, _ := Used();
      if lim.rpm > 0 && requests >= lim.rpm {
        var oldest := Oldest();
        return Refused(Rate(SecondsUntil(oldest + WINDOW, now)));
      }
      if !detached {
        inFlight := inFlight + 1;
      }
      last := last + 1;
      log := log + [Entry(now, 1, last)];
      r := Granted(Admission(last, detached, 0));
    }

    /** The walk of `reserve` over the log, oldest first, once the minute has refused. */
    method RetryAfter(live: int, need: int, minute: int, now: int) returns (retry: int)
      requires live + need > minute
      ensures var found := Expiry(charges, live, need, minute, now);
              retry == if found.Some? then found.value else SecondsUntil(now + WINDOW, now)
    {
      retry := 1;
      var remaining := live;
      var i := 0;
      while i < |charges|
        invariant 0 <= i <= |charges| && remaining + need > minute
        invariant Expiry(charges[i..], remaining, need, minute, now) == Expiry(charges, live, need, minute, now)
      {
        remaining := remaining - charges[i].amount;
        if remaining + need <= minute {
          retry := SecondsUntil(charges[i].t + WINDOW, now);
          break;
        }
        i := i + 1;
      }
      if remaining + need > minute {
        retry := SecondsUntil(now + WINDOW, now);
      }
    }

    method Reserve(a: Admission, now: int, lim: KeyLimits, prompt: int, out: int)
      returns (r: Result<(Admission, int)>)
      modifies this
      ensures (Abs(), r) == Limits.Reserve(old(Abs()), a, now, lim, prompt, out) && lastSeen == old(lastSeen)
    {
      Prune(now);
      var _, charged := Used();
      var live := charged + reserved;
      var need := prompt + FloorFor(out);
      var (fitted, ok) := FitBudget(lim.tpm, live, prompt, out);
      if !ok {
        FitBudgetExact(lim.tpm, live, prompt, out);
        var retry := RetryAfter(live, need, lim.tpm, now);
        return Refused(Rate(retry));
      }
      var (fittedDay, okDay) := FitBudget(lim.daily, today + reserved, prompt, fitted);
      if !okDay {
        return Refused(Budget(SecondsUntil(day.value + DAY, now)));
      }
      var worst := prompt + Max(fittedDay, 0);
      reserved := reserved + worst;
      r := Granted((a.(reserved := worst), fittedDay));
    }

    method Settle(a: Admission, now: int, counted: bool, charged: int)
      modifies this
      ensures Abs() == Limits.Settle(old(Abs()), a, now, counted, charged) && lastSeen == old(lastSeen)
    {
      Prune(now);
      if !a.detached {
        inFlight := inFlight - 1;
      }
      reserved := reserved - a.reserved;
      if !counted {
        var i := 0;
        ghost var was := log;
        while i < |log| && !(log[i].req == 1 && log[i].num == a.num)
          invariant 0 <= i <= |log|
          invariant forall j :: 0 <= j < i ==> !(log[j].req == 1 && log[j].num == a.num)
        {
          i := i + 1;
        }
        RemoveAt(log, a.num, i);
        if i < |log| {
          log := log[..i] + log[i + 1..];
        }
      }
      if charged > 0 {
        charges := charges + [Charge(now, charged)];
        today := today + charged;
      }
    }

    /** What `/me` and the console report of the key: requests and tokens used, the day so far. */
    method Counters(now: int) returns (requests: int, tokens: int, daily: int)
      modifies this
      ensures Abs() == Limits.Prune(old(Abs()), now)
      ensures requests == Requests(log) && tokens == Charged(charges) + reserved && daily == today + reserved
    {
      Prune(now);
      var r, t := Used();
      requests, tokens, daily := r, t + reserved, today + reserved;
    }
  }
}
