/**
 The packet ring: decoding a block the kernel has handed over, and walking its frames by the offsets the kernel wrote.
 The bytes are whatever shared memory holds; multi-byte fields are little-endian.
 */
module RingWalk {
  import opened Basics

  const BLOCK_HEADER_LEN := 48
  const FRAME_HEADER_LEN := 68
  const FRAME_ALIGNMENT := 8
  const PACKET_TYPE_OFFSET := 58
  const UINT32 := 0x1_0000_0000

  function Le16(b: seq<Byte>, i: nat): (n: nat)
    requires i + 2 <= |b|
    ensures n < 0x1_0000
  {
    (b[i] as int) + (b[i + 1] as int) * 0x100
  }

  function Le32(b: seq<Byte>, i: nat): (n: nat)
    requires i + 4 <= |b|
    ensures n < UINT32
  {
    (b[i] as int) + (b[i + 1] as int) * 0x100 + (b[i + 2] as int) * 0x1_0000 + (b[i + 3] as int) * 0x100_0000
  }

  // ---------------------------------------------------------------- blocks

  /** A block in user hands. */
  datatype Block = Block(data: seq<Byte>, count: nat, first: nat)

  datatype BlockError = BadGeometry | TruncatedBlock | BadFirstOffset | BadCount

  datatype Decoded = NotReady | Ready(block: Block) | Failed(error: BlockError)

  predicate UserOwned(block: seq<Byte>)
    requires |block| >= BLOCK_HEADER_LEN
  {
    Le32(block, 8) % 2 == 1
  }

  /** A block whose frames may be walked: its first frame header fits, and so would headers for all its frames. */
  predicate Walkable(b: Block) {
    b.count == 0 ||
    (BLOCK_HEADER_LEN <= b.first && b.first + FRAME_HEADER_LEN <= |b.data| && b.count * FRAME_HEADER_LEN <= |b.data| - b.first)
  }

  /** Block number `index` lies in memory. */
  predicate InRing(memory: seq<Byte>, blockSize: nat, blockCount: nat, index: nat) {
    BLOCK_HEADER_LEN <= blockSize && blockCount > 0 && (index % blockCount) * blockSize + blockSize <= |memory|
  }

  function PhysicalBlock(memory: seq<Byte>, blockSize: nat, blockCount: nat, index: nat): (b: seq<Byte>)
    requires InRing(memory, blockSize, blockCount, index)
    ensures |b| == blockSize
  {
    memory[(index % blockCount) * blockSize..(index % blockCount) * blockSize + blockSize]
  }

  /** The first frame header is behind the block header and inside the block. */
  predicate FirstFits(data: seq<Byte>, first: nat) { BLOCK_HEADER_LEN <= first && first + FRAME_HEADER_LEN <= |data| }

  /** What decodeBlock makes of block number `index`: each outcome has its own cause. */
  function Decode(memory: seq<Byte>, blockSize: nat, blockCount: nat, index: nat): (r: Decoded)
    ensures r == Failed(BadGeometry) <==> blockSize < BLOCK_HEADER_LEN || blockCount == 0
    ensures r == Failed(TruncatedBlock) <==>
              BLOCK_HEADER_LEN <= blockSize && blockCount > 0 && !InRing(memory, blockSize, blockCount, index)
    ensures r.NotReady? <==>
              InRing(memory, blockSize, blockCount, index) && !UserOwned(PhysicalBlock(memory, blockSize, blockCount, index))
    ensures r == Failed(BadFirstOffset) <==>
              && InRing(memory, blockSize, blockCount, index)
              && var data := PhysicalBlock(memory, blockSize, blockCount, index);
                 UserOwned(data) && Le32(data, 12) > 0 && !FirstFits(data, Le32(data, 16))
    ensures r == Failed(BadCount) <==>
              && InRing(memory, blockSize, blockCount, index)
              && var data := PhysicalBlock(memory, blockSize, blockCount, index);
                 && UserOwned(data) && Le32(data, 12) > 0 && FirstFits(data, Le32(data, 16))
                 && Le32(data, 12) * FRAME_HEADER_LEN > |data| - Le32(data, 16)
    ensures r.Ready? ==>
              && InRing(memory, blockSize, blockCount, index)
              && r.block.data == PhysicalBlock(memory, blockSize, blockCount, index) && UserOwned(r.block.data)
              && Walkable(r.block) && r.block.count == Le32(r.block.data, 12)
              && r.block.first == if r.block.count > 0 then Le32(r.block.data, 16) else 0
  {
    if blockSize < BLOCK_HEADER_LEN || blockCount == 0 then Failed(BadGeometry)
    else if !InRing(memory, blockSize, blockCount, index) then Failed(TruncatedBlock)
    else
      var data := PhysicalBlock(memory, blockSize, blockCount, index);
      if !UserOwned(data) then NotReady
      else if Le32(data, 12) == 0 then Ready(Block(data, 0, 0))
      else if !FirstFits(data, Le32(data, 16)) then Failed(BadFirstOffset)
      else if Le32(data, 12) * FRAME_HEADER_LEN > |data| - Le32(data, 16) then Failed(BadCount)
      else Ready(Block(data, Le32(data, 12), Le32(data, 16)))
  }

  method DecodeBlock(memory: seq<Byte>, blockSize: nat, blockCount: nat, index: nat) returns (r: Decoded)
    requires blockSize < UINT32 && blockCount < UINT32
    ensures r == Decode(memory, blockSize, blockCount, index)
  {
    if blockSize < BLOCK_HEADER_LEN || blockCount == 0 { return Failed(BadGeometry); }
    var start := (index % blockCount) * blockSize;
    var end := start + blockSize;
    if end > |memory| { return Failed(TruncatedBlock); }
    var block := memory[start..end];
    if !UserOwned(block) { return NotReady; }
    var packetCount, firstPacketOffset := Le32(block, 12), Le32(block, 16);
    if packetCount == 0 { return Ready(Block(block, 0, 0)); }
    if firstPacketOffset < BLOCK_HEADER_LEN || firstPacketOffset + FRAME_HEADER_LEN > |block| { return Failed(BadFirstOffset); }
    var capacity := (|block| - firstPacketOffset) / FRAME_HEADER_LEN;
    if packetCount > capacity { return Failed(BadCount); }
    return Ready(Block(block, packetCount, firstPacketOffset));
  }

  /** The reader numbers blocks with a counter of 32 bits.  It visits the ring in order for ever exactly if the number
      of blocks divides 2^32. */
  lemma RingOrder(n: nat)
    requires n > 0
    ensures UINT32 % n == 0 <==> forall i: nat :: i < UINT32 ==> Follows(i, n, UINT32)
  {
    CounterOrder(n, UINT32);
  }

  /** The block after number i, of a counter that wraps at w, is the next one in the ring. */
  predicate Follows(i: nat, n: nat, w: nat)
    requires n > 0 && w > 0
  {
    ((i + 1) % w) % n == (i % n + 1) % n
  }

  lemma CounterOrder(n: nat, w: nat)
    requires n > 0 && w > 0
    ensures w % n == 0 <==> forall i: nat :: i < w ==> Follows(i, n, w)
  {
    forall i: nat | i < w ensures Follows(i, n, w) <==> i + 1 < w || w % n == 0 {
      ModSucc(i, n);
      Wraps(i + 1, w);
      ModOf(0, n, 0, 0);
    }
    assert Follows(w - 1, n, w) <==> w % n == 0;
  }

  lemma Wraps(a: nat, w: nat)
    requires 0 < a <= w
    ensures a % w == if a < w then a else 0
  {
    if a < w { ModOf(a, w, 0, a); } else { ModOf(a, w, 1, 0); }
  }

  lemma ModSucc(i: nat, n: nat)
    requires n > 0
    ensures (i + 1) % n == (i % n + 1) % n
  {
    var q, r := i / n, i % n;
    assert i == n * q + r;
    if r + 1 < n {
      ModOf(i + 1, n, q, r + 1);
      ModOf(r + 1, n, 0, r + 1);
    } else {
      assert n * (q + 1) == n * q + n;
      ModOf(i + 1, n, q + 1, 0);
      ModOf(r + 1, n, 1, 0);
    }
  }

  lemma ModOf(a: nat, n: nat, q: nat, r: nat)
    requires n > 0 && a == n * q + r && r < n
    ensures a % n == r
  {
    DivisionUnique(n, a / n, a % n, q, r);
  }

  lemma DivisionUnique(n: nat, q: nat, r: nat, q': nat, r': nat)
    requires r < n && r' < n && n * q + r == n * q' + r'
    ensures q == q' && r == r'
  {
    if q < q' { MultipleGrows(n, q + 1, q'); } else if q' < q { MultipleGrows(n, q' + 1, q); }
  }

  lemma MultipleGrows(n: nat, a: nat, b: nat)
    requires a <= b
    ensures n * a <= n * b && n * a == n * (a - 1) + n
  {}

  // ---------------------------------------------------------------- frames

  datatype Frame = Frame(data: seq<Byte>, sec: nat, nsec: nat, packetType: Byte)

  /** Where a frame is: its header, and its payload [from, to). */
  datatype Slot = Slot(at: nat, from: nat, to: nat)

  predicate SlotIn(data: seq<Byte>, s: Slot) { s.at + FRAME_HEADER_LEN <= s.from <= s.to <= |data| }

  function FrameAt(data: seq<Byte>, s: Slot): Frame
    requires SlotIn(data, s)
  {
    Frame(data[s.from..s.to], Le32(data, s.at + 4), Le32(data, s.at + 8), data[s.at + PACKET_TYPE_OFFSET])
  }

  /** What the header at `at` says about its frame. */
  function SlotAt(data: seq<Byte>, at: nat): Slot
    requires at + FRAME_HEADER_LEN <= |data|
  {
    var from := at + Le16(data, at + 24);
    Slot(at, from, from + Le32(data, at + 12))
  }

  datatype Outcome = Exhausted | Malformed | Found(slot: Slot, nextAt: nat)

  function NextAt(data: seq<Byte>, count: nat, index: nat, at: nat): Outcome {
    if index >= count then Exhausted
    else if at + FRAME_HEADER_LEN > |data| then Malformed
    else
      var slot, step := SlotAt(data, at), Le32(data, at);
      if !SlotIn(data, slot) then Malformed
      else if index + 1 < count then
        if step % FRAME_ALIGNMENT != 0 || at + step < slot.to || at + step + FRAME_HEADER_LEN > |data| then Malformed
        else Found(slot, at + step)
      else Found(slot, at)
  }

  /** The frames of a block from frame `index` on, and whether they could all be read. */
  function SlotsFrom(data: seq<Byte>, count: nat, index: nat, at: nat): (seq<Slot>, bool)
    decreases count - index
  {
    match NextAt(data, count, index, at)
    case Exhausted => ([], true)
    case Malformed => ([], false)
    case Found(slot, nextAt) => var (rest, ok) := SlotsFrom(data, count, index + 1, nextAt); ([slot] + rest, ok)
  }

  class FrameIterator {
    const block: Block
    var index: nat
    var offset: nat

    ghost predicate Valid()
      reads this
    {
      |block.data| < UINT32 && offset < UINT32
    }

    constructor (block: Block)
      requires |block.data| < UINT32 && block.first < UINT32
      ensures this.block == block && index == 0 && offset == block.first && Valid()
    {
      this.block := block;
      index, offset := 0, block.first;
    }

    /** One frame, or none at the end, or an error, after which the iterator is exhausted.  The 32-bit offset never
        wraps. */
    method Next() returns (frame: Option<Frame>, failed: bool)
      requires Valid()
      modifies this
      ensures Valid()
      ensures match NextAt(block.data, block.count, old(index), old(offset))
              case Exhausted => frame == None && !failed && index == old(index) && offset == old(offset)
              case Malformed => frame == None && failed && index == block.count && offset == old(offset)
              case Found(slot, nextAt) =>
                SlotIn(block.data, slot) && frame == Some(FrameAt(block.data, slot)) && !failed
                && index == old(index) + 1 && offset == nextAt
    {
      if index >= block.count { return None, false; }
      var data, start := block.data, offset;
      if start + FRAME_HEADER_LEN > |data| {
        index := block.count;
        return None, true;
      }
      var nextOffset, snaplen, macOffset := Le32(data, start), Le32(data, start + 12), Le16(data, start + 24);
      var payloadStart := start + macOffset;
      var payloadEnd := payloadStart + snaplen;
      if macOffset < FRAME_HEADER_LEN || payloadEnd > |data| {
        index := block.count;
        return None, true;
      }
      if index + 1 < block.count {
        var nextStart := start + nextOffset;
        if nextOffset % FRAME_ALIGNMENT != 0 || nextStart < payloadEnd || nextStart + FRAME_HEADER_LEN > |data| {
          index := block.count;
          return None, true;
        }
        offset := (offset + nextOffset) % UINT32;
      }
      index := index + 1;
      return Some(Frame(data[payloadStart..payloadEnd], Le32(data, start + 4), Le32(data, start + 8),
                        data[start + PACKET_TYPE_OFFSET])), false;
    }
  }

  // ---------------------------------------------------------------- safety of the walk

  /** Slots follow one another without touching, from `at` on. */
  predicate Ordered(slots: seq<Slot>, at: nat) {
    slots == [] || (at <= slots[0].at && slots[0].from <= slots[0].to && Ordered(slots[1..], slots[0].to))
  }

  /** Over any bytes, at most `count` frames are found, each inside the block, in order and disjoint. */
  lemma {:induction false} WalkIsSafe(data: seq<Byte>, count: nat, index: nat, at: nat)
    requires index <= count
    ensures var slots := SlotsFrom(data, count, index, at).0;
            && |slots| <= count - index && (forall s :: s in slots ==> SlotIn(data, s)) && Ordered(slots, at)
    ensures SlotsFrom(data, count, index, at).1 ==> |SlotsFrom(data, count, index, at).0| == count - index
    decreases count - index
  {
    var next := NextAt(data, count, index, at);
    if next.Found? {
      WalkIsSafe(data, count, index + 1, next.nextAt);
      if index + 1 < count { OrderedEarlier(SlotsFrom(data, count, index + 1, next.nextAt).0, next.nextAt, next.slot.to); }
    }
  }

  lemma OrderedEarlier(slots: seq<Slot>, at: nat, earlier: nat)
    requires Ordered(slots, at) && earlier <= at
    ensures Ordered(slots, earlier)
  {}

  /** In order means: of any two frames, the earlier one ends before the later one's header. */
  lemma {:induction false} OrderedDisjoint(slots: seq<Slot>, at: nat, i: nat, j: nat)
    requires Ordered(slots, at) && (forall s :: s in slots ==> s.at <= s.from) && i < j < |slots|
    ensures slots[i].to <= slots[j].at && slots[i].at < slots[j].at + 1
    decreases i + j
  {
    if i > 0 {
      OrderedDisjoint(slots[1..], slots[0].to, i - 1, j - 1);
    } else if j > 1 {
      OrderedDisjoint(slots[1..], slots[0].to, 0, j - 1);
      assert slots[0] in slots && slots[1] in slots;
    }
  }
}
