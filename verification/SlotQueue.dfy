/**
 The queue as the gateway runs it: a count and a slice of waiters behind one mutex, each waiter with
 a channel that is closed to hand it a slot. Each method is one critical section, proved to do what
 its function in Queue.dfy says.
 */
module SlotQueue {
  import opened Prelude
  import opened Outcomes
  import Q = Queue

  /** `closed` is the channel's state; `id` is when it arrived. */
  class Waiter {
    ghost const id: nat
    var closed: bool

    constructor (ghost id: nat)
      ensures this.id == id && !closed
    {
      this.id := id;
      closed := false;
    }
  }

  ghost function Ids(ws: seq<Waiter>): seq<nat> {
    seq(|ws|, i requires 0 <= i < |ws| => ws[i].id)
  }

  lemma IdsJoin(a: seq<Waiter>, b: seq<Waiter>)
    ensures Ids(a + b) == Ids(a) + Ids(b)
  {
  }

  lemma IdsSplit(ws: seq<Waiter>, n: nat)
    requires n <= |ws|
    ensures Ids(ws[..n]) == Ids(ws)[..n] && Ids(ws[n..]) == Ids(ws)[n..]
  {
  }

  /** Taking the waiter at `i` out of a line in order of arrival is removing its number. */
  lemma {:induction false} RemoveAt(ids: seq<nat>, id: nat, i: nat)
    requires i <= |ids| && forall j :: 0 <= j < i ==> ids[j] != id
    ensures i < |ids| && ids[i] == id ==> Q.Remove(ids, id) == ids[..i] + ids[i + 1..]
    ensures i == |ids| ==> id !in ids
  {
    if i > 0 {
      RemoveAt(ids[1..], id, i - 1);
      if i < |ids| && ids[i] == id {
        assert ids[1..][..i - 1] == ids[1..i];
        assert ids[1..][i..] == ids[i + 1..];
        assert ids[..i] == [ids[0]] + ids[1..i];
        Assoc([ids[0]], ids[1..i], ids[i + 1..]);
      }
    }
  }

  lemma IdsWithout(ws: seq<Waiter>, i: nat)
    requires i < |ws|
    ensures Ids(ws[..i] + ws[i + 1..]) == Ids(ws)[..i] + Ids(ws)[i + 1..]
  {
  }

  /** Where `fill` stops, it has done what its function says. */
  lemma {:induction false} FillIs(q: Q.Line, limit: int, n: nat)
    requires n <= |q.waiters|
    requires n > 0 ==> q.inFlight + n <= limit
    requires n < |q.waiters| ==> q.inFlight + n >= limit
    ensures Q.Fill(q, limit) == (Q.Line(q.inFlight + n, q.waiters[n..]), q.waiters[..n])
    decreases n
  {
    if n > 0 {
      FillIs(Q.Line(q.inFlight + 1, q.waiters[1..]), limit, n - 1);
      assert q.waiters[..n] == [q.waiters[0]] + q.waiters[1..][..n - 1];
    }
  }

  lemma IdsTail(ws: seq<Waiter>)
    requires ws != [] && Q.Increasing(Ids(ws))
    ensures Ids(ws) == [ws[0].id] + Ids(ws[1..]) && Q.Increasing(Ids(ws[1..]))
    ensures forall w <- ws[1..] :: w != ws[0] && w in ws
  {
    var rest := ws[1..];
    assert Ids(ws) == [ws[0].id] + Ids(rest);
    Q.IncreasingSplit([ws[0].id], Ids(rest));
    forall w | w in rest ensures w != ws[0] && w in ws {
      var i :| 0 <= i < |rest| && rest[i] == w;
      assert Ids(ws)[0] < Ids(ws)[i + 1];
    }
  }

  class SlotQueue {
    var inFlight: int
    var waiters: seq<Waiter>
    ghost var next: nat

    /** Waiters stand in order of arrival, and no channel in the line is closed. */
    ghost predicate Valid()
      reads this, waiters
    {
      && Q.Increasing(Ids(waiters))
      && (forall w <- waiters :: !w.closed && w.id < next)
    }

    ghost function Line(): Q.Line
      reads this
    {
      Q.Line(inFlight, Ids(waiters))
    }

    constructor ()
      ensures Valid() && Line() == Q.Line(0, [])
    {
      inFlight, waiters, next := 0, [], 0;
    }

    /** One turn of the loop in `fill`. */
    method HandOver()
      requires Valid() && waiters != []
      modifies this`inFlight, this`waiters, waiters[0]
      ensures Valid() && inFlight == old(inFlight) + 1 && waiters == old(waiters)[1..]
      ensures old(waiters)[0].closed
    {
      var w := waiters[0];
      IdsTail(waiters);
      waiters := waiters[1..];
      inFlight := inFlight + 1;
      w.closed := true;
    }

    /** `fill`: what it hands over it closes, and it touches no other channel. */
    method Fill(limit: int) returns (ghost n: nat)
      requires Valid()
      modifies this`inFlight, this`waiters, waiters
      ensures Valid() && n <= |old(waiters)|
      ensures (Line(), Ids(old(waiters)[..n])) == Q.Fill(old(Line()), limit)
      ensures waiters == old(waiters)[n..] && forall j :: 0 <= j < n ==> old(waiters)[j].closed
    {
      n := 0;
      ghost var line := waiters;
      ghost var start := Line();
      while |waiters| > 0 && inFlight < limit
        invariant n <= |line| && waiters == line[n..] && inFlight == start.inFlight + n && Valid()
        invariant n > 0 ==> inFlight <= limit
        invariant forall j :: 0 <= j < n ==> line[j].closed
        decreases |waiters|
      {
        HandOver();
        n := n + 1;
      }
      IdsSplit(line, n);
      FillIs(start, limit, n);
    }

    /**
     The first critical section of `acquire`: a slot at once, a refusal, or a place in line. The
     numbers of those granted a slot come first in the old line, and their channels are closed.
     */
    method Enter(cap: int) returns (phase: Q.Phase, w: Waiter?, ghost n: nat)
      requires Valid()
      modifies this, waiters
      ensures Valid() && n <= |old(waiters)| && next == old(next) + 1
      ensures (Line(), Ids(old(waiters)[..n]), phase) == Q.Entering(old(Line()), old(next), cap)
      ensures forall j :: 0 <= j < n ==> old(waiters)[j].closed
      ensures w != null <==> phase == Q.Waiting
      ensures w != null ==> fresh(w) && w.id == old(next) && !w.closed && w in waiters
    {
      var limit := Max(1, cap);
      n := Fill(limit);
      w := null;
      if inFlight < limit {
        inFlight := inFlight + 1;
        phase := Q.Holding;
      } else if |waiters| >= Max(2, 2 * limit) {
        phase := Q.Gone(Rejected);
      } else {
        w := Join();
        phase := Q.Waiting;
      }
      next := next + 1;
    }

    method Join() returns (w: Waiter)
      requires Valid()
      modifies this`waiters
      ensures Q.Increasing(Ids(waiters)) && Ids(waiters) == old(Ids(waiters)) + [next]
      ensures waiters == old(waiters) + [w] && fresh(w) && w.id == next && !w.closed
    {
      w := new Waiter(next);
      IdsJoin(waiters, [w]);
      Q.IncreasingJoin(Ids(waiters), [w.id]);
      waiters := waiters + [w];
    }

    /** The second: a waiter of this queue that gave up takes itself out, or hands its slot on. */
    method Depart(w: Waiter, cap: int) returns (ghost n: nat)
      requires Valid() && forall x <- waiters :: x.id == w.id ==> x == w
      modifies this, waiters
      ensures Valid() && n <= |old(waiters)| && next == old(next)
      ensures (Line(), Ids(old(waiters)[..n])) == Q.Departing(old(Line()), w.id, cap)
      ensures forall j :: 0 <= j < n ==> old(waiters)[j].closed
    {
      n := 0;
      var i := 0;
      while i < |waiters|
        invariant 0 <= i <= |waiters| && Valid() && Line() == old(Line()) && waiters == old(waiters)
        invariant forall j :: 0 <= j < i ==> Ids(waiters)[j] != w.id
      {
        if waiters[i] == w {
          assert Ids(waiters)[i] == w.id;
          TakeOut(i);
          assert Ids(old(waiters)[..0]) == [];
          return;
        }
        i := i + 1;
      }
      RemoveAt(Ids(waiters), w.id, i);
      inFlight := inFlight - 1;
      n := Fill(Max(1, cap));
    }

    method TakeOut(i: nat)
      requires Valid() && i < |waiters| && forall j :: 0 <= j < i ==> Ids(waiters)[j] != waiters[i].id
      modifies this`waiters
      ensures Valid() && Ids(waiters) == Q.Remove(old(Ids(waiters)), old(waiters[i].id))
    {
      ghost var ids := Ids(waiters);
      RemoveAt(ids, waiters[i].id, i);
      Q.RemoveExact(ids, waiters[i].id);
      IdsWithout(waiters, i);
      waiters := waiters[..i] + waiters[i + 1..];
    }

    method Release(cap: int) returns (ghost n: nat)
      requires Valid()
      modifies this`inFlight, this`waiters, waiters
      ensures Valid() && n <= |old(waiters)|
      ensures (Line(), Ids(old(waiters)[..n])) == Q.Releasing(old(Line()), cap)
      ensures forall j :: 0 <= j < n ==> old(waiters)[j].closed
    {
      inFlight := inFlight - 1;
      n := Fill(Max(1, cap));
    }
  }
}
