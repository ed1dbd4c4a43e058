/**
 The packet count of the queue and the runs that are charged to it, as the objects they are, used by one goroutine at a
 time.  A run may be taken frame by frame and released at any point, more than once; its packets come off the count once.
 (How the count behaves under races is the subject of Admission.)
 */
module FrameRuns {
  class Accounting {
    const maxPackets: int
    var queuedPackets: int

    constructor (capacity: nat)
      ensures maxPackets == capacity && queuedPackets == 0
    {
      maxPackets, queuedPackets := capacity, 0;
    }

    /** As many of the requested packets as there is room for. */
    method Reserve(requested: nat) returns (accepted: nat)
      modifies this
      ensures queuedPackets == old(queuedPackets) + accepted && accepted <= requested
      ensures old(queuedPackets) <= maxPackets ==> queuedPackets <= maxPackets
      ensures accepted < requested ==> queuedPackets >= maxPackets
    {
      var available := maxPackets - queuedPackets;
      if requested == 0 || available <= 0 { return 0; }
      accepted := if requested < available then requested else available;
      queuedPackets := queuedPackets + accepted;
    }

    /** All of them or none. */
    method ReserveAll(requested: nat) returns (ok: bool)
      modifies this
      ensures ok <==> old(queuedPackets) + requested <= maxPackets
      ensures queuedPackets == old(queuedPackets) + if ok then requested else 0
    {
      if requested > maxPackets - queuedPackets { return false; }
      queuedPackets := queuedPackets + requested;
      return true;
    }

    method Release(packetCount: nat)
      modifies this
      ensures queuedPackets == old(queuedPackets) - packetCount
    {
      queuedPackets := queuedPackets - packetCount;
    }
  }

  /** A published run; letGo counts how often its block reference has been released. */
  class FrameRun {
    const size: nat
    const queue: Accounting
    var remaining: nat
    var released: bool
    ghost var letGo: nat

    ghost predicate Valid()
      reads this
    {
      remaining <= size && (if released then remaining == 0 && letGo == 1 else letGo == 0)
    }

    /** What is still charged to the queue for this run. */
    function Charged(): nat
      reads this
    {
      remaining
    }

    constructor (frames: nat, queue: Accounting)
      ensures Valid() && size == frames && this.queue == queue && Charged() == frames && !released
    {
      size, this.queue, remaining, released, letGo := frames, queue, frames, false, 0;
    }

    method DequeueFrame()
      requires Valid()
      modifies this`remaining, queue
      ensures Valid() && queue.queuedPackets - Charged() == old(queue.queuedPackets - Charged())
      ensures Charged() == if old(Charged()) > 0 then old(Charged()) - 1 else 0
    {
      if remaining == 0 || released { return; }
      remaining := remaining - 1;
      queue.Release(1);
    }

    method Release()
      requires Valid()
      modifies this, queue
      ensures Valid() && queue.queuedPackets - Charged() == old(queue.queuedPackets - Charged())
      ensures released && Charged() == 0 && letGo == 1
    {
      if released { return; }
      released := true;
      queue.Release(remaining);
      remaining := 0;
      letGo := letGo + 1;
    }

    /** processPacketRingRun: the frames are taken off the count one by one as they are handled, and the run is released
        whatever was left of it. */
    method Process(handled: nat)
      requires Valid() && handled <= size
      modifies this, queue
      ensures Valid() && released && Charged() == 0
      ensures queue.queuedPackets == old(queue.queuedPackets - Charged())
    {
      var i := 0;
      while i < handled
        invariant 0 <= i <= handled && Valid()
        invariant queue.queuedPackets - Charged() == old(queue.queuedPackets - Charged())
      {
        DequeueFrame();
        i := i + 1;
      }
      Release();
    }
  }

  ghost function ChargedBy(runs: seq<FrameRun>): nat
    reads set r | r in runs
  {
    if runs == [] then 0 else runs[0].Charged() + ChargedBy(runs[1..])
  }

  /** releaseQueuedPacketRuns: every run left in the channel is released, and nothing stays charged for any of them. */
  method Drain(runs: seq<FrameRun>, queue: Accounting)
    requires forall r :: r in runs ==> r.Valid() && r.queue == queue
    requires forall i, j :: 0 <= i < j < |runs| ==> runs[i] != runs[j]
    modifies queue, set r | r in runs
    ensures forall r :: r in runs ==> r.Valid() && r.released && r.letGo == 1
    ensures queue.queuedPackets == old(queue.queuedPackets - ChargedBy(runs))
  {
    var i := 0;
    while i < |runs|
      invariant 0 <= i <= |runs| && forall r :: r in runs ==> r.Valid()
      invariant forall j :: 0 <= j < i ==> runs[j].released && runs[j].letGo == 1
      invariant forall j :: i <= j < |runs| ==> runs[j].remaining == old(runs[j].remaining)
      invariant ChargedBy(runs[i..]) == old(ChargedBy(runs[i..]))
      invariant queue.queuedPackets - ChargedBy(runs[i..]) == old(queue.queuedPackets - ChargedBy(runs))
    {
      ghost var rest := runs[i + 1..];
      assert runs[i..][1..] == rest && runs[i] !in rest;
      assert old(ChargedBy(runs[i..])) == old(runs[i].Charged()) + old(ChargedBy(rest));
      ghost var left := ChargedBy(rest);
      runs[i].Release();
      assert ChargedBy(rest) == left;
      i := i + 1;
    }
  }
}
