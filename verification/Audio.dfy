/** What an audio call reserves and what it is charged, on the two meters it can touch. */
module Audio {
  import opened Prelude
  import opened Outcomes
  import L = Limits
  import M = Meters

  /**
   A call as settlement finds it: `held` is its seconds or characters, `measured` the duration the
   engine reported, `left` that the client's context has ended.
   */
  datatype Call = Call(speech: bool, held: nat, dispatched: bool, outcome: Outcome, measured: Option<nat>,
                       left: bool, clientCut: bool, delivered: bool)

  function Charge(c: Call): nat {
    if !c.dispatched then 0
    else if c.speech then
      if c.outcome == Served || (c.clientCut && c.delivered) then c.held else 0
    else if c.measured.Some? && c.outcome != Cut && !c.left then c.measured.value
    else c.held
  }

  /** The event's `OverrunSeconds`. */
  function Overrun(c: Call): nat {
    if c.dispatched && !c.speech then Max(0, Charge(c) - c.held) else 0
  }

  /**
   What is charged beyond the hold is exactly the overrun on record. Speech has none: a call is
   charged its hold or nothing.
   */
  lemma OverrunIsRecorded(c: Call)
    ensures Max(0, Charge(c) - c.held) == Overrun(c)
    ensures c.speech ==> Charge(c) in {0, c.held} && Overrun(c) == 0
    ensures !c.dispatched ==> Charge(c) == 0
    ensures Overrun(c) > 0 ==> !c.speech && c.measured.Some? && c.outcome != Cut && !c.left && c.measured.value > c.held
  {
  }

  /**
   What a call costs: nothing when the engine was not sent it. Speech costs its hold when it was served or had
   begun to arrive, and nothing otherwise. A transcription costs what the engine reported, over its hold or
   under it, unless it was cut or its client left; and then, or without a report, its hold.
   */
  lemma ChargeExactly(c: Call)
    ensures !c.dispatched ==> Charge(c) == 0
    ensures c.dispatched && c.speech && c.held > 0 ==>
              (Charge(c) == c.held <==> c.outcome == Served || (c.clientCut && c.delivered))
    ensures c.dispatched && !c.speech && c.measured.Some? && c.outcome != Cut && !c.left ==>
              Charge(c) == c.measured.value
    ensures c.dispatched && !c.speech && (c.measured.None? || c.outcome == Cut || c.left) ==> Charge(c) == c.held
  {
  }

  /** The key's two meters, under its one lock and one day. */
  class AudioMeters {
    var day: int
    var audioToday: int
    var audioReserved: int
    var speechToday: int
    var speechReserved: int

    ghost function Seconds(): M.Meter
      reads this
    {
      M.Meter(day, audioToday, audioReserved)
    }

    ghost function Characters(): M.Meter
      reads this
    {
      M.Meter(day, speechToday, speechReserved)
    }

    constructor (now: int, seconds: nat, characters: nat)
      ensures Seconds() == M.Meter(L.DayOf(now), seconds, 0) && Characters() == M.Meter(L.DayOf(now), characters, 0)
    {
      day := L.DayOf(now);
      audioToday, audioReserved, speechToday, speechReserved := seconds, 0, characters, 0;
    }

    method Prune(now: int)
      modifies this
      ensures Seconds() == M.Roll(old(Seconds()), now) && Characters() == M.Roll(old(Characters()), now)
    {
      if L.DayOf(now) != day {
        audioToday, speechToday := 0, 0;
      }
      day := L.DayOf(now);
    }

    /** A refusal names the seconds to the next UTC midnight. */
    method ReserveAudio(speech: bool, need: nat, limit: int, now: int) returns (retry: Option<int>)
      modifies this
      ensures !speech ==> (Seconds(), retry.None?) == M.Hold(old(Seconds()), now, limit, need)
                          && Characters() == M.Roll(old(Characters()), now)
      ensures speech ==> (Characters(), retry.None?) == M.Hold(old(Characters()), now, limit, need)
                         && Seconds() == M.Roll(old(Seconds()), now)
      ensures retry.Some? ==> retry.value == L.SecondsUntil(L.DayOf(now) + L.DAY, now)
    {
      Prune(now);
      var wait := L.SecondsUntil(day + L.DAY, now);
      if !speech {
        if limit > 0 && audioToday + audioReserved + need > limit {
          return Some(wait);
        }
        audioReserved := audioReserved + need;
      } else {
        if limit > 0 && speechToday + speechReserved + need > limit {
          return Some(wait);
        }
        speechReserved := speechReserved + need;
      }
      return None;
    }

    method SettleAudio(c: Call, now: int) returns (charged: int, overrun: int)
      modifies this
      ensures Seconds()
              == M.Settle(old(Seconds()), now, if c.speech then 0 else c.held, if c.speech then 0 else Charge(c))
      ensures Characters()
              == M.Settle(old(Characters()), now, if c.speech then c.held else 0, if c.speech then Charge(c) else 0)
      ensures charged == Charge(c) && overrun == Overrun(c)
    {
      Prune(now);
      charged, overrun := 0, 0;
      audioReserved := audioReserved - (if c.speech then 0 else c.held);
      speechReserved := speechReserved - (if c.speech then c.held else 0);
      if !c.dispatched {
        return;
      }
      if c.speech {
        if c.outcome == Served || (c.clientCut && c.delivered) {
          charged := c.held;
          speechToday := speechToday + charged;
        }
        return;
      }
      charged := c.held;
      if c.measured.Some? && c.outcome != Cut && !c.left {
        charged := c.measured.value;
      }
      overrun := Max(0, charged - c.held);
      audioToday := audioToday + charged;
    }
  }
}
