/**
 The ring of guest pages pinned in host memory, and the bounded first-in
 first-out queue it stands for.
 */
module PinQueue {

  /** `guestPhyPagePinQueue`. */
  datatype Queue = Queue(nEntries: nat, tail: nat, ppi: seq<nat>)

  ghost predicate Valid(q: Queue) {
    && |q.ppi| == 1024
    && q.nEntries <= 1024
    && q.tail < 1024
    && (q.nEntries < 1024 ==> q.tail == q.nEntries)
  }

  function Empty(): Queue {
    Queue(0, 0, seq(1024, _ => 0))
  }

  predicate Full(q: Queue) {
    q.nEntries >= 1024
  }

  /** The slot the next request takes, evicting its page when the ring is full. */
  function Slot(q: Queue): nat {
    if Full(q) then q.tail else q.nEntries
  }

  function Enqueue(q: Queue, page: nat): (r: Queue)
    requires Valid(q)
    ensures Valid(r)
  {
    Queue(
      if Full(q) then q.nEntries else q.nEntries + 1,
      (if Full(q) then q.tail + 1 else q.nEntries + 1) % 1024,
      q.ppi[Slot(q) := page])
  }

  /** The live slots, the page pinned longest ago first. */
  function Fifo(q: Queue): seq<nat>
    requires Valid(q)
  {
    if Full(q) then q.ppi[q.tail..] + q.ppi[..q.tail] else q.ppi[..q.nEntries]
  }

  /** The next free slot of a ring that is not yet full. */
  lemma GrownRing(ppi: seq<nat>, n: nat, page: nat)
    requires n < |ppi|
    ensures ppi[n := page][..n + 1] == ppi[..n] + [page]
    ensures n + 1 == |ppi| ==> ppi[n := page][0..] + ppi[n := page][..0] == ppi[..n] + [page]
  {
  }

  lemma EnqueueRoom(q: Queue, page: nat)
    requires Valid(q) && !Full(q)
    ensures Fifo(Enqueue(q, page)) == Fifo(q) + [page]
  {
    GrownRing(q.ppi, q.nEntries, page);
    assert q.nEntries + 1 == 1024 ==> (q.nEntries + 1) % 1024 == 0;
  }

  /** The ring turned so that its oldest slot comes first. */
  lemma TurnedRing(ppi: seq<nat>, tail: nat, page: nat)
    requires tail < |ppi|
    ensures var next := if tail + 1 < |ppi| then tail + 1 else 0;
      var ppi' := ppi[tail := page];
      ppi'[next..] + ppi'[..next] == (ppi[tail..] + ppi[..tail])[1..] + [page]
  {
    assert (ppi[tail..] + ppi[..tail])[1..] == ppi[tail + 1..] + ppi[..tail];
    var ppi' := ppi[tail := page];
    if tail + 1 < |ppi| {
      assert ppi'[tail + 1..] == ppi[tail + 1..];
      assert ppi'[..tail + 1] == ppi[..tail] + [page];
    } else {
      assert ppi'[0..] + ppi'[..0] == ppi[..tail] + [page];
    }
  }

  lemma EnqueueFull(q: Queue, page: nat)
    requires Valid(q) && Full(q)
    ensures |Fifo(q)| == 1024 && Fifo(q)[0] == q.ppi[q.tail]
    ensures Fifo(Enqueue(q, page)) == Fifo(q)[1..] + [page]
  {
    TurnedRing(q.ppi, q.tail, page);
    assert (q.tail + 1) % 1024 == if q.tail + 1 < 1024 then q.tail + 1 else 0;
  }

  lemma EnqueueIsFifo(q: Queue, page: nat)
    requires Valid(q)
    ensures Fifo(Enqueue(q, page)) == (if Full(q) then Fifo(q)[1..] else Fifo(q)) + [page]
    ensures |Fifo(q)| == q.nEntries <= 1024
    ensures Full(q) ==> Fifo(q)[0] == q.ppi[Slot(q)]
  {
    if Full(q) {
      EnqueueFull(q, page);
    } else {
      EnqueueRoom(q, page);
    }
    hide Enqueue;
  }

  /** The most recent requests, as many as the ring holds. */
  function Recent(requests: seq<nat>): seq<nat> {
    if |requests| <= 1024 then requests else requests[|requests| - 1024..]
  }

  lemma RecentGrows(before: seq<nat>, page: nat)
    ensures Recent(before + [page]) == (if |before| >= 1024 then Recent(before)[1..] else Recent(before)) + [page]
  {
  }

  lemma RecentLength(requests: seq<nat>)
    ensures |Recent(requests)| == if |requests| <= 1024 then |requests| else 1024
  {
  }

  function EnqueueAll(requests: seq<nat>): (q: Queue)
    ensures Valid(q)
  {
    if requests == [] then Empty()
    else
      Enqueue(EnqueueAll(requests[..|requests| - 1]), requests[|requests| - 1])
  }

  lemma EmptyRing(requests: seq<nat>)
    requires requests == []
    ensures Fifo(EnqueueAll(requests)) == Recent(requests) && EnqueueAll(requests).nEntries == |Recent(requests)|
  {
  }

  /** Over any sequence of requests the ring holds exactly the most recent ones, in order. */
  lemma {:induction false} RingIsSlidingWindow(requests: seq<nat>)
    ensures Fifo(EnqueueAll(requests)) == Recent(requests)
    ensures EnqueueAll(requests).nEntries == |Recent(requests)|
  {
    hide Fifo, Recent, Enqueue;
    if requests == [] {
      EmptyRing(requests);
    } else {
      var before, page := requests[..|requests| - 1], requests[|requests| - 1];
      RingIsSlidingWindow(before);
      EnqueueIsFifo(EnqueueAll(before), page);
      EnqueueIsFifo(EnqueueAll(requests), page);
      RecentGrows(before, page);
      RecentLength(before);
      assert before + [page] == requests;
    }
  }

  /** So the page the next request evicts is always the one requested longest ago. */
  lemma VictimIsLeastRecent(requests: seq<nat>)
    requires |requests| >= 1024
    ensures Full(EnqueueAll(requests))
    ensures EnqueueAll(requests).ppi[Slot(EnqueueAll(requests))] == requests[|requests| - 1024]
  {
    RingIsSlidingWindow(requests);
    EnqueueIsFifo(EnqueueAll(requests), 0);
  }
}
