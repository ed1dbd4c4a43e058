/**
 How the kernel lays frames out in a block, and that decoding and walking a block inverts it.  Bytes the program does not
 look at, and the gaps between frames, are arbitrary.
 */
module RingLayout {
  import opened Basics
  import opened BlockRuns
  import opened RingWalk

  // ---------------------------------------------------------------- laid-out frames

  /** A frame in a block: its header, bytes between header and payload, the payload, and bytes up to the next frame. */
  datatype Placed = Placed(header: seq<Byte>, lead: seq<Byte>, frame: Frame, gap: seq<Byte>)

  /** The header tells of this frame. */
  predicate Tells(p: Placed) {
    && |p.header| == 68
    && Le32(p.header, 4) == p.frame.sec && Le32(p.header, 8) == p.frame.nsec && Le32(p.header, 12) == |p.frame.data|
    && Le16(p.header, 24) == 68 + |p.lead| && p.header[58] == p.frame.packetType
  }

  function BytesOf(p: Placed): seq<Byte> { p.header + p.lead + p.frame.data + p.gap }

  function SizeOf(p: Placed): nat { |p.header| + |p.lead| + |p.frame.data| + |p.gap| }

  /** What a header says of the next frame: how far on it is. */
  function Step(p: Placed): nat { if |p.header| == FRAME_HEADER_LEN then Le32(p.header, 0) else 0 }

  /** ... which is right behind, and aligned. */
  predicate Links(p: Placed) { Step(p) == SizeOf(p) && Step(p) % 8 == 0 }

  /** Every header tells of its frame, and every one but the last of the next, which is aligned. */
  predicate Fits(ps: seq<Placed>) {
    ps == [] || (Tells(ps[0]) && (|ps| > 1 ==> Links(ps[0]) && Fits(ps[1..])))
  }

  /** The frames one behind the other. */
  function LayOut(ps: seq<Placed>): seq<Byte> { if ps == [] then [] else BytesOf(ps[0]) + LayOut(ps[1..]) }

  function FramesIn(ps: seq<Placed>): seq<Frame> { if ps == [] then [] else [ps[0].frame] + FramesIn(ps[1..]) }

  // ---------------------------------------------------------------- one frame

  lemma Same32(data: seq<Byte>, at: nat, h: seq<Byte>, i: nat)
    requires at + |h| <= |data| && data[at..at + |h|] == h && i + 4 <= |h|
    ensures Le32(data, at + i) == Le32(h, i)
  {
    var d := data[at..at + |h|];
    assert data[at + i] == d[i] && data[at + i + 1] == d[i + 1] && data[at + i + 2] == d[i + 2] && data[at + i + 3] == d[i + 3];
  }

  lemma Same16(data: seq<Byte>, at: nat, h: seq<Byte>, i: nat)
    requires at + |h| <= |data| && data[at..at + |h|] == h && i + 2 <= |h|
    ensures Le16(data, at + i) == Le16(h, i)
  {
    var d := data[at..at + |h|];
    assert data[at + i] == d[i] && data[at + i + 1] == d[i + 1];
  }

  /** A header in a block reads as the header by itself. */
  lemma HeaderReads(data: seq<Byte>, at: nat, h: seq<Byte>)
    requires |h| == FRAME_HEADER_LEN && at + FRAME_HEADER_LEN <= |data| && data[at..at + FRAME_HEADER_LEN] == h
    ensures Le32(data, at) == Le32(h, 0) && Le32(data, at + 4) == Le32(h, 4) && Le32(data, at + 8) == Le32(h, 8)
    ensures Le32(data, at + 12) == Le32(h, 12) && Le16(data, at + 24) == Le16(h, 24)
    ensures data[at + PACKET_TYPE_OFFSET] == h[PACKET_TYPE_OFFSET]
  {
    Same32(data, at, h, 0);
    Same32(data, at, h, 4);
    Same32(data, at, h, 8);
    Same32(data, at, h, 12);
    Same16(data, at, h, 24);
    assert data[at + PACKET_TYPE_OFFSET] == data[at..at + FRAME_HEADER_LEN][PACKET_TYPE_OFFSET];
  }

  lemma Middle<X>(a: seq<X>, b: seq<X>, c: seq<X>)
    ensures (a + b + c)[|a|..|a| + |b|] == b
  {}

  /** Where the parts of a laid-out frame are. */
  lemma PartsOf(p: Placed, more: seq<Byte>)
    ensures var d, m := BytesOf(p) + more, |p.header| + |p.lead|;
            && |BytesOf(p)| == SizeOf(p) && d[0..|p.header|] == p.header && d[m..m + |p.frame.data|] == p.frame.data && d[SizeOf(p)..] == more
  {
    var d := BytesOf(p) + more;
    assert d == p.header + (p.lead + p.frame.data + p.gap + more);
    assert d == (p.header + p.lead) + p.frame.data + (p.gap + more);
    Middle(p.header + p.lead, p.frame.data, p.gap + more);
  }

  /** A laid-out frame is read back. */
  lemma FrameReads(data: seq<Byte>, at: nat, p: Placed, more: seq<Byte>)
    requires Tells(p) && at <= |data| && data[at..] == BytesOf(p) + more
    ensures at + SizeOf(p) <= |data| && Le32(data, at) == Step(p) && data[at + SizeOf(p)..] == more
    ensures var s := SlotAt(data, at); SlotIn(data, s) && s.to == at + SizeOf(p) - |p.gap| && FrameAt(data, s) == p.frame
  {
    PartsOf(p, more);
    var d, m := data[at..], FRAME_HEADER_LEN + |p.lead|;
    assert data[at..at + FRAME_HEADER_LEN] == d[0..FRAME_HEADER_LEN];
    HeaderReads(data, at, p.header);
    assert data[at + m..at + m + |p.frame.data|] == d[m..m + |p.frame.data|];
    assert data[at + SizeOf(p)..] == d[SizeOf(p)..];
  }

  // ---------------------------------------------------------------- the walk inverts the layout

  /** From `at` on, data is these frames and then something else. */
  predicate LaidOutAt(data: seq<Byte>, at: nat, ps: seq<Placed>, tail: seq<Byte>) {
    Fits(ps) && at <= |data| && data[at..] == LayOut(ps) + tail
  }

  lemma LayOutMore(ps: seq<Placed>, tail: seq<Byte>)
    requires ps != []
    ensures LayOut(ps) + tail == BytesOf(ps[0]) + (LayOut(ps[1..]) + tail)
  {}

  lemma {:induction false} LayOutLen(ps: seq<Placed>)
    requires Fits(ps)
    ensures |LayOut(ps)| >= FRAME_HEADER_LEN * |ps|
  {
    if |ps| > 1 { LayOutLen(ps[1..]); }
  }

  lemma RestFound(b: Block, index: nat, at: nat, slot: Slot, nextAt: nat)
    requires NextAt(b.data, b.count, index, at) == Found(slot, nextAt)
    ensures index < b.count && SlotIn(b.data, slot)
    ensures Rest(b, index, at).0 == [FrameAt(b.data, slot)] + Rest(b, index + 1, nextAt).0
    ensures Rest(b, index, at).1 == Rest(b, index + 1, nextAt).1
  {}

  lemma RestEnds(b: Block, at: nat)
    ensures Rest(b, b.count, at).0 == [] && Rest(b, b.count, at).1
  {}

  /** A laid-out frame is the next one of the walk. */
  lemma NextIs(data: seq<Byte>, count: nat, index: nat, at: nat, p: Placed, more: seq<Byte>, next: nat)
    requires Tells(p) && at <= |data| && data[at..] == BytesOf(p) + more && index < count
    requires if index + 1 < count then Links(p) && next == at + Step(p) && next + FRAME_HEADER_LEN <= |data| else next == at
    ensures SlotIn(data, SlotAt(data, at)) && FrameAt(data, SlotAt(data, at)) == p.frame
    ensures NextAt(data, count, index, at) == Found(SlotAt(data, at), next)
  {
    FrameReads(data, at, p, more);
  }

  lemma FrameIs(b: Block, index: nat, at: nat, p: Placed, more: seq<Byte>, next: nat)
    requires Tells(p) && at <= |b.data| && b.data[at..] == BytesOf(p) + more && index < b.count
    requires if index + 1 < b.count then Links(p) && next == at + Step(p) && next + FRAME_HEADER_LEN <= |b.data| else next == at
    ensures Rest(b, index, at).0 == [p.frame] + Rest(b, index + 1, next).0 && Rest(b, index, at).1 == Rest(b, index + 1, next).1
  {
    NextIs(b.data, b.count, index, at, p, more, next);
    RestFound(b, index, at, SlotAt(b.data, at), next);
  }

  lemma LastReads(b: Block, index: nat, at: nat, ps: seq<Placed>, tail: seq<Byte>)
    requires LaidOutAt(b.data, at, ps, tail) && |ps| == 1 && index + 1 == b.count
    ensures Rest(b, index, at).0 == FramesIn(ps) && Rest(b, index, at).1
  {
    LayOutMore(ps, tail);
    FrameIs(b, index, at, ps[0], LayOut(ps[1..]) + tail, at);
    RestEnds(b, at);
    assert ps[1..] == [];
  }

  lemma LaidOutNext(data: seq<Byte>, at: nat, ps: seq<Placed>, tail: seq<Byte>)
    requires LaidOutAt(data, at, ps, tail) && |ps| > 1
    ensures Tells(ps[0]) && Links(ps[0]) && at + Step(ps[0]) + FRAME_HEADER_LEN <= |data|
    ensures data[at..] == BytesOf(ps[0]) + data[at + Step(ps[0])..] && LaidOutAt(data, at + Step(ps[0]), ps[1..], tail)
  {
    LayOutMore(ps, tail);
    LayOutLen(ps[1..]);
    PartsOf(ps[0], LayOut(ps[1..]) + tail);
    var d := data[at..];
    assert data[at + SizeOf(ps[0])..] == d[SizeOf(ps[0])..];
  }

  lemma FirstReads(b: Block, index: nat, at: nat, ps: seq<Placed>, tail: seq<Byte>, next: nat)
    requires LaidOutAt(b.data, at, ps, tail) && |ps| > 1 && index + |ps| == b.count && next == at + Step(ps[0])
    ensures Rest(b, index, at).0 == [ps[0].frame] + Rest(b, index + 1, next).0 && Rest(b, index, at).1 == Rest(b, index + 1, next).1
  {
    LaidOutNext(b.data, at, ps, tail);
    FrameIs(b, index, at, ps[0], b.data[next..], next);
  }

  /** Walking frames that were laid out returns them. */
  lemma {:induction false} WalkReadsBack(b: Block, index: nat, at: nat, ps: seq<Placed>, tail: seq<Byte>)
    requires LaidOutAt(b.data, at, ps, tail) && index + |ps| == b.count
    ensures Rest(b, index, at).0 == FramesIn(ps) && Rest(b, index, at).1
    decreases |ps|
  {
    if ps == [] {
      RestEnds(b, at);
    } else if |ps| == 1 {
      LastReads(b, index, at, ps, tail);
    } else {
      var next := at + Step(ps[0]);
      LaidOutNext(b.data, at, ps, tail);
      FirstReads(b, index, at, ps, tail, next);
      WalkReadsBack(b, index + 1, next, ps[1..], tail);
    }
  }

  // ---------------------------------------------------------------- and reads nothing else

  /** The placed frame that a header found by the walk describes, up to `end`. */
  function PlacedAt(data: seq<Byte>, at: nat, end: nat): Placed
    requires at + FRAME_HEADER_LEN <= |data| && SlotIn(data, SlotAt(data, at)) && SlotAt(data, at).to <= end <= |data|
  {
    var s := SlotAt(data, at);
    Placed(data[at..at + FRAME_HEADER_LEN], data[at + FRAME_HEADER_LEN..s.from], FrameAt(data, s), data[s.to..end])
  }

  lemma FrameWas(data: seq<Byte>, at: nat, end: nat)
    requires at + FRAME_HEADER_LEN <= |data| && SlotIn(data, SlotAt(data, at)) && SlotAt(data, at).to <= end <= |data|
    ensures var p := PlacedAt(data, at, end);
            Tells(p) && Step(p) == Le32(data, at) && SizeOf(p) == end - at && data[at..] == BytesOf(p) + data[end..]
  {
    var s := SlotAt(data, at);
    HeaderReads(data, at, data[at..at + FRAME_HEADER_LEN]);
    assert data[at..] == data[at..at + FRAME_HEADER_LEN] + data[at + FRAME_HEADER_LEN..s.from] + data[s.from..s.to] + data[s.to..end] + data[end..];
  }

  lemma RestIsFound(b: Block, index: nat, at: nat)
    requires index < b.count && Rest(b, index, at).1
    ensures NextAt(b.data, b.count, index, at).Found?
  {}

  lemma FoundIs(data: seq<Byte>, count: nat, index: nat, at: nat)
    requires index < count && NextAt(data, count, index, at).Found?
    ensures at + FRAME_HEADER_LEN <= |data| && SlotIn(data, SlotAt(data, at))
    ensures index + 1 < count ==>
              var next := at + Le32(data, at);
              next <= |data| && SlotAt(data, at).to <= next && Le32(data, at) % FRAME_ALIGNMENT == 0
    ensures NextAt(data, count, index, at) == Found(SlotAt(data, at), if index + 1 < count then at + Le32(data, at) else at)
  {}

  /** What the walk has checked of a frame it returns. */
  lemma RestRead(b: Block, index: nat, at: nat, next: nat)
    requires index < b.count && Rest(b, index, at).1
    requires at + FRAME_HEADER_LEN <= |b.data| ==> next == if index + 1 < b.count then at + Le32(b.data, at) else at
    ensures at + FRAME_HEADER_LEN <= |b.data| && SlotIn(b.data, SlotAt(b.data, at))
    ensures index + 1 < b.count ==> next <= |b.data| && SlotAt(b.data, at).to <= next && Le32(b.data, at) % FRAME_ALIGNMENT == 0
    ensures Rest(b, index, at).0 == [FrameAt(b.data, SlotAt(b.data, at))] + Rest(b, index + 1, next).0 && Rest(b, index + 1, next).1
  {
    RestIsFound(b, index, at);
    FoundIs(b.data, b.count, index, at);
    RestFound(b, index, at, SlotAt(b.data, at), next);
  }

  /** One more frame in front of a layout. */
  lemma LaidOutCons(data: seq<Byte>, at: nat, p: Placed, next: nat, rest: seq<Placed>, tail: seq<Byte>)
    requires LaidOutAt(data, next, rest, tail) && at <= next && data[at..] == BytesOf(p) + data[next..]
    requires Tells(p) && (rest != [] ==> Links(p))
    ensures LaidOutAt(data, at, [p] + rest, tail) && FramesIn([p] + rest) == [p.frame] + FramesIn(rest)
  {
    var ps := [p] + rest;
    assert ps[1..] == rest;
    LayOutMore(ps, tail);
  }

  /** One frame the walk has read, in front of what it reads next. */
  lemma FrameIsNext(data: seq<Byte>, at: nat, next: nat, rest: seq<Placed>, tail: seq<Byte>)
    requires at + FRAME_HEADER_LEN <= |data| && SlotIn(data, SlotAt(data, at)) && SlotAt(data, at).to <= next <= |data|
    requires LaidOutAt(data, next, rest, tail)
    requires rest != [] ==> next == at + Le32(data, at) && Le32(data, at) % FRAME_ALIGNMENT == 0
    ensures LaidOutAt(data, at, [PlacedAt(data, at, next)] + rest, tail)
    ensures FramesIn([PlacedAt(data, at, next)] + rest) == [FrameAt(data, SlotAt(data, at))] + FramesIn(rest)
  {
    FrameWas(data, at, next);
    LaidOutCons(data, at, PlacedAt(data, at, next), next, rest, tail);
  }

  lemma LastWas(b: Block, index: nat, at: nat) returns (ps: seq<Placed>, tail: seq<Byte>)
    requires index + 1 == b.count && at <= |b.data| && Rest(b, index, at).1
    ensures LaidOutAt(b.data, at, ps, tail) && |ps| == 1 && FramesIn(ps) == Rest(b, index, at).0
  {
    RestRead(b, index, at, at);
    RestEnds(b, at);
    var end := SlotAt(b.data, at).to;
    tail := b.data[end..];
    assert LayOut([]) + tail == tail;
    FrameIsNext(b.data, at, end, [], tail);
    ps := [PlacedAt(b.data, at, end)] + [];
  }

  /** Whatever the walk reads without an error was laid out so: the bytes are the layout of the frames it returns. */
  lemma {:induction false} WalkReadsOnlyLayouts(b: Block, index: nat, at: nat) returns (ps: seq<Placed>, tail: seq<Byte>)
    requires index <= b.count && at <= |b.data| && Rest(b, index, at).1
    ensures LaidOutAt(b.data, at, ps, tail) && index + |ps| == b.count && FramesIn(ps) == Rest(b, index, at).0
    decreases b.count - index
  {
    if index == b.count {
      RestEnds(b, at);
      ps, tail := [], b.data[at..];
      assert LayOut(ps) + tail == tail;
    } else if index + 1 == b.count {
      ps, tail := LastWas(b, index, at);
    } else {
      var next := if at + FRAME_HEADER_LEN <= |b.data| then at + Le32(b.data, at) else at;
      RestRead(b, index, at, next);
      var rest;
      rest, tail := WalkReadsOnlyLayouts(b, index + 1, next);
      FrameIsNext(b.data, at, next, rest, tail);
      ps := [PlacedAt(b.data, at, next)] + rest;
    }
  }

  // ---------------------------------------------------------------- encoding

  function ToLe16(n: nat): (b: seq<Byte>)
    requires n < 0x1_0000
    ensures |b| == 2 && Le16(b, 0) == n
  {
    [n % 0x100, n / 0x100]
  }

  function ToLe32(n: nat): (b: seq<Byte>)
    requires n < UINT32
    ensures |b| == 4 && Le32(b, 0) == n
  {
    ToLe16(n % 0x1_0000) + ToLe16(n / 0x1_0000)
  }

  predicate FitsFrame(f: Frame) { |f.data| < UINT32 - 2 * FRAME_HEADER_LEN && f.sec < UINT32 && f.nsec < UINT32 }

  predicate AllFit(fs: seq<Frame>) { forall i :: 0 <= i < |fs| ==> FitsFrame(fs[i]) }

  /** The bytes from a frame's payload to the next aligned offset. */
  function Padding(f: Frame): (n: nat)
    ensures n < FRAME_ALIGNMENT && (FRAME_HEADER_LEN + |f.data| + n) % FRAME_ALIGNMENT == 0
  {
    (FRAME_ALIGNMENT - (FRAME_HEADER_LEN + |f.data|) % FRAME_ALIGNMENT) % FRAME_ALIGNMENT
  }

  function Zeros(n: nat): (b: seq<Byte>)
    ensures |b| == n
  {
    seq(n, _ => 0)
  }

  /** A header for a frame whose payload follows at once. */
  function HeaderOf(f: Frame, step: nat): (h: seq<Byte>)
    requires FitsFrame(f) && step < UINT32
    ensures |h| == FRAME_HEADER_LEN
  {
    ToLe32(step) + ToLe32(f.sec) + ToLe32(f.nsec) + ToLe32(|f.data|) + Zeros(8) + ToLe16(FRAME_HEADER_LEN) + Zeros(32) + [f.packetType] + Zeros(9)
  }

  function Place(f: Frame): Placed
    requires FitsFrame(f)
  {
    Placed(HeaderOf(f, FRAME_HEADER_LEN + |f.data| + Padding(f)), [], f, Zeros(Padding(f)))
  }

  lemma Pieces32(h: seq<Byte>, i: nat, b: seq<Byte>)
    requires |b| == 4 && i + 4 <= |h| && h[i..i + 4] == b
    ensures Le32(h, i) == Le32(b, 0)
  {
    Same32(h, i, b, 0);
  }

  lemma HeaderParts(f: Frame, step: nat)
    requires FitsFrame(f) && step < UINT32
    ensures var h := HeaderOf(f, step);
            && h[0..4] == ToLe32(step) && h[4..8] == ToLe32(f.sec) && h[8..12] == ToLe32(f.nsec) && h[12..16] == ToLe32(|f.data|)
            && h[24..26] == ToLe16(FRAME_HEADER_LEN) && h[PACKET_TYPE_OFFSET] == f.packetType
  {}

  lemma HeaderReadsAs(h: seq<Byte>, f: Frame, step: nat)
    requires FitsFrame(f) && step < UINT32 && |h| == FRAME_HEADER_LEN
    requires h[0..4] == ToLe32(step) && h[4..8] == ToLe32(f.sec) && h[8..12] == ToLe32(f.nsec) && h[12..16] == ToLe32(|f.data|)
    requires h[24..26] == ToLe16(FRAME_HEADER_LEN)
    ensures Le32(h, 0) == step && Le32(h, 4) == f.sec && Le32(h, 8) == f.nsec && Le32(h, 12) == |f.data| && Le16(h, 24) == FRAME_HEADER_LEN
  {
    Pieces32(h, 0, ToLe32(step));
    Pieces32(h, 4, ToLe32(f.sec));
    Pieces32(h, 8, ToLe32(f.nsec));
    Pieces32(h, 12, ToLe32(|f.data|));
    Same16(h, 24, ToLe16(FRAME_HEADER_LEN), 0);
  }

  lemma HeaderTells(f: Frame)
    requires FitsFrame(f)
    ensures Tells(Place(f)) && Links(Place(f))
  {
    var step := FRAME_HEADER_LEN + |f.data| + Padding(f);
    HeaderParts(f, step);
    HeaderReadsAs(HeaderOf(f, step), f, step);
  }

  /** Any frames, one behind the other on the alignment. */
  function Arrange(fs: seq<Frame>): (ps: seq<Placed>)
    requires AllFit(fs)
    ensures |ps| == |fs|
  {
    if fs == [] then [] else [Place(fs[0])] + Arrange(fs[1..])
  }

  lemma {:induction false} ArrangeFits(fs: seq<Frame>)
    requires AllFit(fs)
    ensures Fits(Arrange(fs)) && FramesIn(Arrange(fs)) == fs
  {
    if fs != [] {
      ArrangeFits(fs[1..]);
      HeaderTells(fs[0]);
      assert Arrange(fs)[1..] == Arrange(fs[1..]);
    }
  }

  // ---------------------------------------------------------------- blocks

  /** A block as laid out: its header, bytes up to the first frame, the frames, and bytes behind them. */
  datatype Layout = Layout(header: seq<Byte>, lead: seq<Byte>, ps: seq<Placed>, tail: seq<Byte>)

  /** The header hands the block over, with this many frames from this offset on. */
  predicate FitsBlock(l: Layout) {
    && |l.header| == 48 && Le32(l.header, 8) % 2 == 1
    && Le32(l.header, 12) == |l.ps| && Le32(l.header, 16) == 48 + |l.lead| && Fits(l.ps)
  }

  function EncodeBlock(l: Layout): seq<Byte> { l.header + l.lead + (LayOut(l.ps) + l.tail) }

  lemma BlockFields(l: Layout)
    requires FitsBlock(l)
    ensures var b := EncodeBlock(l);
            && |b| >= BLOCK_HEADER_LEN && UserOwned(b) && Le32(b, 12) == |l.ps| && Le32(b, 16) == BLOCK_HEADER_LEN + |l.lead|
            && BLOCK_HEADER_LEN + |l.lead| <= |b| && b[BLOCK_HEADER_LEN + |l.lead|..] == LayOut(l.ps) + l.tail
  {
    var b, h := EncodeBlock(l), l.header;
    assert b[0..0 + |h|] == h;
    Same32(b, 0, h, 8);
    Same32(b, 0, h, 12);
    Same32(b, 0, h, 16);
  }

  /** A block that was laid out and handed over is decoded, and walking it returns exactly its frames: payload, time and
      packet type of each, in order. */
  lemma DecodeReadsBack(l: Layout, memory: seq<Byte>, blockSize: nat, blockCount: nat, index: nat)
    requires FitsBlock(l) && InRing(memory, blockSize, blockCount, index)
    requires PhysicalBlock(memory, blockSize, blockCount, index) == EncodeBlock(l)
    ensures var r := Decode(memory, blockSize, blockCount, index);
            && r.Ready? && r.block.data == EncodeBlock(l) && r.block.count == |l.ps|
            && Rest(r.block, 0, r.block.first).0 == FramesIn(l.ps) && Rest(r.block, 0, r.block.first).1
  {
    var b, first := EncodeBlock(l), BLOCK_HEADER_LEN + |l.lead|;
    BlockFields(l);
    LayOutLen(l.ps);
    if l.ps != [] { WalkReadsBack(Block(b, |l.ps|, first), 0, first, l.ps, l.tail); }
  }

  function BlockOf(fs: seq<Frame>, tail: seq<Byte>): Layout
    requires AllFit(fs) && |fs| < UINT32
  {
    Layout(Zeros(8) + ToLe32(1) + ToLe32(|fs|) + ToLe32(BLOCK_HEADER_LEN) + Zeros(28), [], Arrange(fs), tail)
  }

  /** For any frames there is a block, and what is read from it are these frames. */
  lemma AnyFramesReadBack(fs: seq<Frame>, tail: seq<Byte>)
    requires AllFit(fs) && |fs| < UINT32
    ensures FitsBlock(BlockOf(fs, tail))
    ensures var b := EncodeBlock(BlockOf(fs, tail)); var r := Decode(b, |b|, 1, 0);
            r.Ready? && Rest(r.block, 0, r.block.first).0 == fs && Rest(r.block, 0, r.block.first).1
  {
    var l := BlockOf(fs, tail);
    var h := l.header;
    assert h[8..12] == ToLe32(1) && h[12..16] == ToLe32(|fs|) && h[16..20] == ToLe32(BLOCK_HEADER_LEN);
    Pieces32(h, 8, ToLe32(1));
    Pieces32(h, 12, ToLe32(|fs|));
    Pieces32(h, 16, ToLe32(BLOCK_HEADER_LEN));
    ArrangeFits(fs);
    var b := EncodeBlock(l);
    assert b[0..|b|] == b;
    DecodeReadsBack(l, b, |b|, 1, 0);
  }
}
