/**
 Cutting a block into runs: consecutive frames of one class, SIP or not, are offered to the queue together, in the
 order of the block; a SIP run larger than the queue is offered in pieces.
 */
module BlockRuns {
  import opened Basics
  import opened RingWalk

  const MIN_PACKET_LEN := 42
  const ETHERNET_LEN := 14
  const VLAN_LEN := 18
  const UDP_HEADER_LEN := 8

  function Be16(b: seq<Byte>, i: nat): nat
    requires i + 2 <= |b|
  {
    (b[i] as int) * 0x100 + b[i + 1] as int
  }

  /** A packet counts as SIP if a UDP port is a SIP port, or if its headers cannot be made out. */
  predicate IsSip(packet: seq<Byte>, ports: seq<nat>) {
    |packet| < MIN_PACKET_LEN ||
    var offset := if packet[12] == 0x81 && packet[13] == 0x00 then VLAN_LEN else ETHERNET_LEN;
    var words := packet[offset] % 16;
    words < 5 ||
    var udp := offset + words * 4;
    |packet| < udp + UDP_HEADER_LEN || Be16(packet, udp) in ports || Be16(packet, udp + 2) in ports
  }

  method IsSIPPacket(packet: seq<Byte>, ports: seq<nat>) returns (sip: bool)
    ensures sip <==> IsSip(packet, ports)
  {
    if |packet| < MIN_PACKET_LEN { return true; }
    var offset := ETHERNET_LEN;
    if packet[12] == 0x81 && packet[13] == 0x00 { offset := VLAN_LEN; }
    var ihl := packet[offset] % 16;
    if ihl < 5 || ihl > 15 { return true; }
    var udpOff := offset + ihl * 4;
    if |packet| < udpOff + UDP_HEADER_LEN { return true; }
    var srcPort, dstPort := Be16(packet, udpOff), Be16(packet, udpOff + 2);
    for i := 0 to |ports|
      invariant srcPort !in ports[..i] && dstPort !in ports[..i]
    {
      if srcPort == ports[i] || dstPort == ports[i] { return true; }
    }
    return false;
  }

  /** The bytes of a packet: two addresses, a VLAN tag or none, the EtherType, an IP header of whole words, ports. */
  function PacketBytes(mac: seq<Byte>, tag: seq<Byte>, etherType: seq<Byte>, ip: seq<Byte>, ports: seq<Byte>, rest: seq<Byte>): seq<Byte> {
    mac + tag + etherType + ip + ports + rest
  }

  /** A UDP packet, with or without a VLAN tag and with an IP header of any length, counts as SIP if and only if its source
      or its destination port is a SIP port. */
  lemma SipByEitherPort(mac: seq<Byte>, tag: seq<Byte>, etherType: seq<Byte>, ip: seq<Byte>, src: nat, dst: nat, udp: seq<Byte>,
                        rest: seq<Byte>, ports: seq<nat>)
    requires |mac| == 12 && |etherType| == 2 && src < 65536 && dst < 65536
    requires (tag == [] && etherType != [0x81, 0x00]) || (|tag| == 4 && tag[0] == 0x81 && tag[1] == 0x00)
    requires |ip| >= 20 && |ip| == 4 * (ip[0] % 16) as int
    requires |udp| == 8 && udp[..4] == [src / 256, src % 256, dst / 256, dst % 256]
    ensures IsSip(PacketBytes(mac, tag, etherType, ip, udp, rest), ports) <==> src in ports || dst in ports
  {
    var p, head := PacketBytes(mac, tag, etherType, ip, udp, rest), mac + tag + etherType;
    assert p == head + ip + udp + rest;
    assert p[12] == (tag + etherType)[0] && p[13] == (tag + etherType)[1];
    assert p[|head|] == ip[0];
    var at := |head| + |ip|;
    forall i | 0 <= i < 4 ensures p[at + i] == udp[..4][i] {}
    if tag == [] { assert etherType[0] != 0x81 || etherType[1] != 0x00 by { assert etherType == [etherType[0], etherType[1]]; } }
  }

  /** A packet too short for its headers, or with an IP header of less than five words, counts as SIP. */
  lemma UnreadableIsSip(packet: seq<Byte>, ports: seq<nat>)
    ensures |packet| < 42 ==> IsSip(packet, ports)
    ensures |packet| >= 42 ==>
              var at := if packet[12] == 0x81 && packet[13] == 0x00 then 18 else 14;
              (packet[at] % 16 < 5 || |packet| < at + 4 * (packet[at] % 16) as int + 8 ==> IsSip(packet, ports))
  {}

  // ---------------------------------------------------------------- runs as functions

  datatype Run = Run(frames: seq<Frame>, sip: bool)

  /** The runs of `cur`, all of class c, followed by `rest`. */
  function RunsFrom(cur: seq<Frame>, c: bool, rest: seq<Frame>, ports: seq<nat>): seq<Run>
    decreases |rest|
  {
    if rest == [] then if cur == [] then [] else [Run(cur, c)]
    else
      var sip := IsSip(rest[0].data, ports);
      if cur != [] && sip != c then [Run(cur, c)] + RunsFrom([rest[0]], sip, rest[1..], ports)
      else RunsFrom(cur + [rest[0]], sip, rest[1..], ports)
  }

  function RunsOf(frames: seq<Frame>, ports: seq<nat>): seq<Run> { RunsFrom([], false, frames, ports) }

  /** The pieces in which a run is offered to a queue of the given capacity. */
  function Pieces(r: Run, capacity: nat): seq<Run>
    decreases |r.frames|
  {
    if r.sip && 0 < capacity < |r.frames| then
      [Run(r.frames[..capacity], true)] + Pieces(Run(r.frames[capacity..], true), capacity)
    else [r]
  }

  function AllPieces(runs: seq<Run>, capacity: nat): seq<Run> {
    if runs == [] then [] else Pieces(runs[0], capacity) + AllPieces(runs[1..], capacity)
  }

  function FramesOf(data: seq<Byte>, slots: seq<Slot>): seq<Frame>
    requires forall s :: s in slots ==> SlotIn(data, s)
  {
    if slots == [] then [] else [FrameAt(data, slots[0])] + FramesOf(data, slots[1..])
  }

  /** The frames still to come of an iterator at frame `index`, offset `at`. */
  function Rest(b: Block, index: nat, at: nat): (seq<Frame>, bool)
    decreases b.count - index
  {
    match NextAt(b.data, b.count, index, at)
    case Exhausted => ([], true)
    case Malformed => ([], false)
    case Found(slot, nextAt) => var (frames, ok) := Rest(b, index + 1, nextAt); ([FrameAt(b.data, slot)] + frames, ok)
  }

  /** They are the frames of the slots found by the walk. */
  lemma {:induction false} RestIsTheWalk(b: Block, index: nat, at: nat)
    requires index <= b.count
    ensures forall s :: s in SlotsFrom(b.data, b.count, index, at).0 ==> SlotIn(b.data, s)
    ensures Rest(b, index, at) == (FramesOf(b.data, SlotsFrom(b.data, b.count, index, at).0), SlotsFrom(b.data, b.count, index, at).1)
    decreases b.count - index
  {
    WalkIsSafe(b.data, b.count, index, at);
    var next := NextAt(b.data, b.count, index, at);
    if next.Found? {
      RestIsTheWalk(b, index + 1, next.nextAt);
      var rest := SlotsFrom(b.data, b.count, index + 1, next.nextAt).0;
      assert ([next.slot] + rest)[1..] == rest;
    }
  }

  // ---------------------------------------------------------------- the partition

  function Joined(runs: seq<Run>): seq<Frame> { if runs == [] then [] else runs[0].frames + Joined(runs[1..]) }

  predicate Uniform(r: Run, ports: seq<nat>) {
    r.frames != [] && forall i :: 0 <= i < |r.frames| ==> IsSip(r.frames[i].data, ports) == r.sip
  }

  predicate Alternating(runs: seq<Run>) { forall i :: 0 <= i < |runs| - 1 ==> runs[i].sip != runs[i + 1].sip }

  lemma {:induction false} RunsPartition(cur: seq<Frame>, c: bool, rest: seq<Frame>, ports: seq<nat>)
    requires cur != [] ==> Uniform(Run(cur, c), ports)
    ensures var runs := RunsFrom(cur, c, rest, ports);
            && Joined(runs) == cur + rest && (forall r :: r in runs ==> Uniform(r, ports)) && Alternating(runs)
            && (cur != [] ==> runs != [] && runs[0].sip == c)
    decreases |rest|
  {
    var runs := RunsFrom(cur, c, rest, ports);
    if rest != [] {
      var sip := IsSip(rest[0].data, ports);
      if cur != [] && sip != c {
        RunsPartition([rest[0]], sip, rest[1..], ports);
        var more := RunsFrom([rest[0]], sip, rest[1..], ports);
        assert runs[1..] == more;
        assert [rest[0]] + rest[1..] == rest;
        forall i | 0 <= i < |runs| - 1 ensures runs[i].sip != runs[i + 1].sip {
          if i > 0 { assert runs[i] == more[i - 1] && runs[i + 1] == more[i]; }
        }
      } else {
        RunsPartition(cur + [rest[0]], sip, rest[1..], ports);
        assert cur + [rest[0]] + rest[1..] == cur + rest;
      }
    } else if cur != [] {
      assert runs[1..] == [] && cur + rest == cur;
    }
  }

  /** The runs of a block are its frames, cut exactly where the class changes. */
  lemma RunsOfBlock(frames: seq<Frame>, ports: seq<nat>)
    ensures var runs := RunsOf(frames, ports);
            Joined(runs) == frames && (forall r :: r in runs ==> Uniform(r, ports)) && Alternating(runs)
  {
    RunsPartition([], false, frames, ports);
  }

  predicate FitsQueue(r: Run, capacity: nat) { r.sip && capacity > 0 ==> |r.frames| <= capacity }

  lemma {:induction false} PiecesPartition(r: Run, capacity: nat)
    requires r.frames != []
    ensures var ps := Pieces(r, capacity);
            Joined(ps) == r.frames && forall p :: p in ps ==> p.frames != [] && p.sip == r.sip && FitsQueue(p, capacity)
    ensures var ps := Pieces(r, capacity); forall i :: 0 <= i < |ps| - 1 ==> r.sip && |ps[i].frames| == capacity
    decreases |r.frames|
  {
    if r.sip && 0 < capacity < |r.frames| {
      var tail := Run(r.frames[capacity..], true);
      PiecesPartition(tail, capacity);
      assert Pieces(r, capacity)[1..] == Pieces(tail, capacity);
      assert r.frames[..capacity] + r.frames[capacity..] == r.frames;
    } else {
      assert [r][1..] == [];
    }
  }

  lemma {:induction false} JoinedTwo(a: seq<Run>, b: seq<Run>)
    ensures Joined(a + b) == Joined(a) + Joined(b)
  {
    if a == [] {
      assert a + b == b;
    } else {
      JoinedTwo(a[1..], b);
      assert (a + b)[1..] == a[1..] + b;
    }
  }

  /** What is offered for a block is all its frames in order, in pieces of one class each that the queue can hold. */
  lemma {:induction false} PiecesOfRuns(runs: seq<Run>, capacity: nat)
    requires forall r :: r in runs ==> r.frames != []
    ensures Joined(AllPieces(runs, capacity)) == Joined(runs)
    ensures forall p :: p in AllPieces(runs, capacity) ==> p.frames != [] && FitsQueue(p, capacity)
  {
    if runs != [] {
      PiecesPartition(runs[0], capacity);
      PiecesOfRuns(runs[1..], capacity);
      JoinedTwo(Pieces(runs[0], capacity), AllPieces(runs[1..], capacity));
    }
  }

  lemma OfferedIsTheBlock(frames: seq<Frame>, ports: seq<nat>, capacity: nat)
    ensures Joined(AllPieces(RunsOf(frames, ports), capacity)) == frames
    ensures forall p :: p in AllPieces(RunsOf(frames, ports), capacity) ==> p.frames != [] && FitsQueue(p, capacity)
  {
    RunsOfBlock(frames, ports);
    PiecesOfRuns(RunsOf(frames, ports), capacity);
  }

  // ---------------------------------------------------------------- the loops

  function UpTo(s: seq<Run>, limit: nat): seq<Run> { if |s| <= limit then s else s[..limit] }

  /** Of `all` that is to be added to `before`, `left` is left. */
  ghost predicate Pending(before: seq<Run>, all: seq<Run>, runs: seq<Run>, left: seq<Run>) { before + all == runs + left }

  lemma Taken(before: seq<Run>, all: seq<Run>, runs: seq<Run>, piece: seq<Run>, left: seq<Run>, limit: nat)
    requires Pending(before, all, runs, piece + left) && |runs| <= limit
    ensures |runs| + |piece| <= limit ==> UpTo(runs + piece, limit) == runs + piece && Pending(before, all, runs + piece, left)
    ensures |runs| + |piece| > limit ==> UpTo(before + all, limit) == UpTo(runs + piece, limit) && |before| + |all| > limit
  {
    assert runs + (piece + left) == runs + piece + left;
    assert |before + all| == |runs + piece| + |left|;
    if |runs| + |piece| > limit { assert (runs + piece + left)[..limit] == (runs + piece)[..limit]; }
  }

  lemma NextPiece(frames: seq<Frame>, capacity: nat, start: nat, end: nat)
    requires start < |frames| && 0 < capacity < |frames|
    requires end == if start + capacity < |frames| then start + capacity else |frames|
    ensures Pieces(Run(frames[start..], true), capacity)
            == [Run(frames[start..end], true)] + if end < |frames| then Pieces(Run(frames[end..], true), capacity) else []
  {
    if end < |frames| {
      assert frames[start..][..capacity] == frames[start..end] && frames[start..][capacity..] == frames[end..];
    } else {
      assert frames[start..] == frames[start..end];
    }
  }

  /** What the loop of enqueueBlock does with one more frame. */
  lemma NextFrame(cur: seq<Frame>, c: bool, f: Frame, rest: seq<Frame>, ports: seq<nat>, capacity: nat)
    ensures var sip, left := IsSip(f.data, ports), AllPieces(RunsFrom(cur, c, [f] + rest, ports), capacity);
            if cur != [] && sip != c then left == Pieces(Run(cur, c), capacity) + AllPieces(RunsFrom([f], sip, rest, ports), capacity)
            else left == AllPieces(RunsFrom(cur + [f], sip, rest, ports), capacity)
  {
    assert ([f] + rest)[1..] == rest;
    var more := RunsFrom([f], IsSip(f.data, ports), rest, ports);
    assert ([Run(cur, c)] + more)[1..] == more;
  }

  lemma LastFrame(cur: seq<Frame>, c: bool, ports: seq<nat>, capacity: nat)
    ensures AllPieces(RunsFrom(cur, c, [], ports), capacity) == if cur == [] then [] else Pieces(Run(cur, c), capacity) + []
  {
    if cur != [] { assert [Run(cur, c)][1..] == []; }
  }

  /** One step of the walk, in terms of what is left of it. */
  method Advance(it: FrameIterator) returns (frame: Option<Frame>, bad: bool)
    requires it.Valid()
    modifies it
    ensures it.Valid()
    ensures frame.None? ==> Rest(it.block, old(it.index), old(it.offset)) == ([], !bad)
    ensures frame.Some? ==>
              && !bad && old(it.index) < it.block.count && it.index == old(it.index) + 1
              && Rest(it.block, old(it.index), old(it.offset)).0 == [frame.value] + Rest(it.block, it.index, it.offset).0
              && Rest(it.block, old(it.index), old(it.offset)).1 == Rest(it.block, it.index, it.offset).1
  {
    frame, bad := it.Next();
  }

  /** A queue as the reader sees it: it takes runs until it is stopped, here after `limit` runs. */
  class RunQueue {
    const capacity: nat
    const limit: nat
    var runs: seq<Run>

    constructor (capacity: nat, limit: nat)
      ensures this.capacity == capacity && this.limit == limit && runs == []
    {
      this.capacity, this.limit, runs := capacity, limit, [];
    }

    method Offer(r: Run) returns (ok: bool)
      requires |runs| <= limit
      modifies this
      ensures runs == UpTo(old(runs) + [r], limit) && |runs| <= limit && (ok <==> |old(runs)| + 1 <= limit)
    {
      if |runs| == limit {
        assert (runs + [r])[..limit] == runs;
        return false;
      }
      runs := runs + [r];
      return true;
    }

    /** enqueueRun: a SIP run too large for the queue goes in pieces. */
    method EnqueueRun(frames: seq<Frame>, sip: bool) returns (ok: bool)
      requires |runs| <= limit
      modifies this
      ensures runs == UpTo(old(runs) + Pieces(Run(frames, sip), capacity), limit) && |runs| <= limit
      ensures ok <==> |old(runs)| + |Pieces(Run(frames, sip), capacity)| <= limit
    {
      if sip && capacity > 0 && |frames| > capacity {
        ghost var all := Pieces(Run(frames, true), capacity);
        var start := 0;
        assert frames[0..] == frames;
        while start < |frames|
          invariant 0 <= start <= |frames| && |runs| <= limit
          invariant Pending(old(runs), all, runs, if start < |frames| then Pieces(Run(frames[start..], true), capacity) else [])
        {
          var end := if start + capacity < |frames| then start + capacity else |frames|;
          NextPiece(frames, capacity, start, end);
          Taken(old(runs), all, runs, [Run(frames[start..end], true)],
                if end < |frames| then Pieces(Run(frames[end..], true), capacity) else [], limit);
          ok := Offer(Run(frames[start..end], true));
          if !ok { return false; }
          start := end;
        }
        assert runs + [] == runs;
        return true;
      }
      ok := Offer(Run(frames, sip));
    }

    /** enqueueBlock: the runs of the frames that can be read are offered in turn, until the queue is stopped; an
        error found on the way is told if it was not. */
    method EnqueueBlock(block: Block, ports: seq<nat>) returns (keepReading: bool, failed: bool)
      requires |runs| <= limit && |block.data| < UINT32 && block.first < UINT32
      modifies this
      ensures var offered := AllPieces(RunsOf(Rest(block, 0, block.first).0, ports), capacity);
              && runs == UpTo(old(runs) + offered, limit) && (keepReading <==> |old(runs)| + |offered| <= limit)
      ensures failed <==> keepReading && !Rest(block, 0, block.first).1
    {
      ghost var all := AllPieces(RunsOf(Rest(block, 0, block.first).0, ports), capacity);
      var it := new FrameIterator(block);
      var cur: seq<Frame>, runSIP := [], false;
      while true
        invariant it.Valid() && it.block == block && fresh(it) && |runs| <= limit
        invariant Rest(block, 0, block.first).1 == Rest(block, it.index, it.offset).1
        invariant Pending(old(runs), all, runs,
                          AllPieces(RunsFrom(cur, runSIP, Rest(block, it.index, it.offset).0, ports), capacity))
        decreases block.count - it.index
      {
        ghost var left := Rest(block, it.index, it.offset).0;
        var frame, bad := Advance(it);
        if frame.None? {
          LastFrame(cur, runSIP, ports, capacity);
          assert runs + [] == runs;
          if cur != [] {
            Taken(old(runs), all, runs, Pieces(Run(cur, runSIP), capacity), [], limit);
            var ok := EnqueueRun(cur, runSIP);
            if !ok { return false, false; }
          }
          assert runs + [] == runs;
          return true, bad;
        }
        var isSIP := IsSIPPacket(frame.value.data, ports);
        ghost var rest := Rest(block, it.index, it.offset).0;
        NextFrame(cur, runSIP, frame.value, rest, ports, capacity);
        if cur != [] && isSIP != runSIP {
          Taken(old(runs), all, runs, Pieces(Run(cur, runSIP), capacity), AllPieces(RunsFrom([frame.value], isSIP, rest, ports), capacity), limit);
          var ok := EnqueueRun(cur, runSIP);
          if !ok { return false, false; }
          cur := [];
          assert cur + [frame.value] == [frame.value];
        }
        cur, runSIP := cur + [frame.value], isSIP;
      }
    }
  }
}
