/**
 A key's audio over whole runs: calls of both kinds reserve on one of the two meters and settle on it,
 while the day passes for both, and what each settlement records of an overrun is kept.
 */
module AudioRuns {
  import opened Prelude
  import opened Audio
  import L = Limits
  import G = LimitsLedger
  import M = Meters

  /** The event a settled call leaves: when, and its `OverrunSeconds`. */
  datatype Recorded = Recorded(t: int, overrun: nat)

  /** Both meters with their histories, and the events recorded of settled calls. */
  datatype Day = Day(seconds: M.Run, chars: M.Run, events: seq<Recorded>)

  datatype Budget = Budget(seconds: int, chars: int)

  datatype Event =
    | Reserving(t: int, speech: bool, need: nat)
    | Settling(t: int, i: nat, call: Call)

  /** A live call settles once, with what it holds. */
  predicate Enabled(d: Day, e: Event) {
    && d.seconds.now <= e.t && d.chars.now == d.seconds.now
    && match e
       case Reserving(_, _, _) => true
       case Settling(_, i, c) =>
         var live := if c.speech then d.chars.live else d.seconds.live;
         i < |live| && live[i].reserved == c.held
  }

  function Do(d: Day, e: Event, b: Budget): Day
    requires Enabled(d, e)
  {
    match e
    case Reserving(t, speech, need) =>
      if speech then d.(seconds := M.Later(d.seconds, t), chars := M.Do(d.chars, M.Holding(t, need), b.chars))
      else d.(seconds := M.Do(d.seconds, M.Holding(t, need), b.seconds), chars := M.Later(d.chars, t))
    case Settling(t, i, c) =>
      var events := d.events + [Recorded(t, Overrun(c))];
      if c.speech
      then Day(M.Later(d.seconds, t), M.Do(d.chars, M.Settling(t, i, Charge(c)), b.chars), events)
      else Day(M.Do(d.seconds, M.Settling(t, i, Charge(c)), b.seconds), M.Later(d.chars, t), events)
  }

  predicate Runs(d: Day, es: seq<Event>, b: Budget)
    decreases es
  {
    es == [] || (Enabled(d, es[0]) && Runs(Do(d, es[0], b), es[1..], b))
  }

  function After(d: Day, es: seq<Event>, b: Budget): Day
    requires Runs(d, es, b)
    decreases es
  {
    if es == [] then d else After(Do(d, es[0], b), es[1..], b)
  }

  function Start(now: int, seconds: nat, chars: nat): Day {
    Day(M.Start(now, seconds), M.Start(now, chars), [])
  }

  /** The `OverrunSeconds` on record since `cutoff`. */
  function RecordedSince(events: seq<Recorded>, cutoff: int): nat {
    if events == [] then 0
    else (if events[0].t > cutoff then events[0].overrun else 0) + RecordedSince(events[1..], cutoff)
  }

  lemma {:induction false} RecordedMore(events: seq<Recorded>, r: Recorded, c: int)
    ensures RecordedSince(events + [r], c) == RecordedSince(events, c) + (if r.t > c then r.overrun else 0)
  {
    if events == [] {
      assert events + [r] == [r];
    } else {
      HeadTail(events[0], events[1..], [r]);
      assert events == [events[0]] + events[1..];
      RecordedMore(events[1..], r, c);
    }
  }

  /** The history's overruns are those on record; and characters have none. */
  ghost predicate Accounted(d: Day) {
    && (forall c: int :: G.OverrunSince(d.seconds.paid, c) == RecordedSince(d.events, c))
    && M.NoneOver(d.chars.paid)
  }

  ghost predicate Inv(d: Day, b: Budget) {
    M.Inv(d.seconds, b.seconds) && M.Inv(d.chars, b.chars) && Accounted(d)
  }

  /** What a settled transcription adds to the overruns is what it records. */
  lemma OverrunAdded(paid: seq<G.Paid>, events: seq<Recorded>, t: int, c: Call, cutoff: int)
    requires !c.speech && G.OverrunSince(paid, cutoff) == RecordedSince(events, cutoff)
    ensures var more := if Charge(c) > 0 then paid + [G.Paid(t, Charge(c), c.held)] else paid;
            G.OverrunSince(more, cutoff) == RecordedSince(events + [Recorded(t, Overrun(c))], cutoff)
  {
    OverrunIsRecorded(c);
    RecordedMore(events, Recorded(t, Overrun(c)), cutoff);
    G.SeenChargesAppend(paid, G.Paid(t, Charge(c), c.held), cutoff);
  }

  lemma SettledAccounts(d: Day, t: int, i: nat, c: Call, b: Budget)
    requires Accounted(d) && Enabled(d, Settling(t, i, c))
    ensures Accounted(Do(d, Settling(t, i, c), b))
  {
    var d' := Do(d, Settling(t, i, c), b);
    OverrunIsRecorded(c);
    forall cutoff: int ensures G.OverrunSince(d'.seconds.paid, cutoff) == RecordedSince(d'.events, cutoff) {
      assert G.OverrunSince(d.seconds.paid, cutoff) == RecordedSince(d.events, cutoff);
      if c.speech {
        RecordedMore(d.events, Recorded(t, Overrun(c)), cutoff);
      } else {
        OverrunAdded(d.seconds.paid, d.events, t, c, cutoff);
      }
    }
  }

  lemma StepKeeps(d: Day, e: Event, b: Budget)
    requires Inv(d, b) && Enabled(d, e)
    ensures Inv(Do(d, e, b), b)
  {
    match e
    case Reserving(t, speech, need) =>
      if speech {
        M.LaterKeeps(d.seconds, t, b.seconds);
        M.StepKeeps(d.chars, M.Holding(t, need), b.chars);
      } else {
        M.StepKeeps(d.seconds, M.Holding(t, need), b.seconds);
        M.LaterKeeps(d.chars, t, b.chars);
      }
    case Settling(t, i, c) =>
      SettledAccounts(d, t, i, c, b);
      if c.speech {
        M.LaterKeeps(d.seconds, t, b.seconds);
        M.StepKeeps(d.chars, M.Settling(t, i, Charge(c)), b.chars);
      } else {
        M.StepKeeps(d.seconds, M.Settling(t, i, Charge(c)), b.seconds);
        M.LaterKeeps(d.chars, t, b.chars);
      }
  }

  lemma {:induction false} RunKeeps(d: Day, es: seq<Event>, b: Budget)
    requires Inv(d, b) && Runs(d, es, b)
    ensures Inv(After(d, es, b), b)
    decreases es
  {
    if es != [] {
      StepKeeps(d, es[0], b);
      RunKeeps(Do(d, es[0], b), es[1..], b);
    }
  }

  /**
   Over every run of transcriptions and speech, in any order and across midnight: the day's seconds and
   what live calls hold of them stay within the budget, or the day's seed, but for the `OverrunSeconds`
   recorded today; and the day's characters and holds stay within theirs altogether.
   */
  lemma AudioCeilings(now: int, seconds: nat, chars: nat, es: seq<Event>, b: Budget)
    requires Runs(Start(now, seconds, chars), es, b)
    ensures var d := After(Start(now, seconds, chars), es, b);
            var today := L.DayOf(d.seconds.now) - 1;
            && (b.seconds > 0 ==>
                  d.seconds.m.today + d.seconds.m.reserved
                  <= Max(b.seconds, M.SeedOf(d.seconds)) + RecordedSince(d.events, today))
            && (b.chars > 0 ==> d.chars.m.today + d.chars.m.reserved <= Max(b.chars, M.SeedOf(d.chars)))
            && d.seconds.m.reserved == G.Held(d.seconds.live) && d.chars.m.reserved == G.Held(d.chars.live)
  {
    var d := Start(now, seconds, chars);
    G.DayOrder(now, now);
    assert Accounted(d);
    RunKeeps(d, es, b);
    var e := After(d, es, b);
    assert G.OverrunSince(e.seconds.paid, G.Yesterday(e.seconds.now))
        == RecordedSince(e.events, G.Yesterday(e.seconds.now));
    M.NoOverrun(e.chars.paid, G.Yesterday(e.chars.now));
  }

  /** The object with the two meters does on each of them what a step of the run does. */
  method Step(meters: AudioMeters, ghost d: Day, e: Event, b: Budget) returns (ghost d': Day)
    requires Enabled(d, e) && meters.Seconds() == d.seconds.m && meters.Characters() == d.chars.m
    modifies meters
    ensures d' == Do(d, e, b) && meters.Seconds() == d'.seconds.m && meters.Characters() == d'.chars.m
  {
    match e {
      case Reserving(t, speech, need) =>
        var _ := meters.ReserveAudio(speech, need, if speech then b.chars else b.seconds, t);
      case Settling(t, _, call) =>
        var _, _ := meters.SettleAudio(call, t);
    }
    d' := Do(d, e, b);
  }
}
