/**
 RTCP compound packets (section 6 of RFC 3550): the parser's loops, the walk over sub-packets they compute, and the
 encoding the walk inverts.
 */
module Rtcp {
  import opened Basics

  datatype Error = Invalid | NotRtcp | Truncated

  /** cumulativeLost is a signed 24-bit number. */
  datatype ReportBlock = ReportBlock(ssrc: nat, fractionLost: Byte, cumulativeLost: int, jitter: nat, lsr: nat, dlsr: nat)

  datatype Report = Report(pt: Byte, blocks: seq<ReportBlock>)

  datatype Parsed = Parsed(reports: seq<Report>, err: Option<Error>)

  const SR: Byte := 200
  const RR: Byte := 201
  const HEADER_LEN := 4
  const WORD_LEN := 4
  const BLOCK_LEN := 24
  const RR_MIN_LEN := 8
  const SR_MIN_LEN := 28

  // ---------------------------------------------------------------- numbers

  function U16(b: seq<Byte>, i: nat): (n: nat)
    requires i + 2 <= |b|
    ensures n < 0x1_0000
  {
    (b[i] as int) * 0x100 + b[i + 1] as int
  }

  function U24(b: seq<Byte>, i: nat): (n: nat)
    requires i + 3 <= |b|
    ensures n < 0x100_0000
  {
    (b[i] as int) * 0x1_0000 + (b[i + 1] as int) * 0x100 + b[i + 2] as int
  }

  function U32(b: seq<Byte>, i: nat): (n: nat)
    requires i + 4 <= |b|
    ensures n < 0x1_0000_0000
  {
    (b[i] as int) * 0x100_0000 + (b[i + 1] as int) * 0x1_0000 + (b[i + 2] as int) * 0x100 + b[i + 3] as int
  }

  function Be16(n: nat): (b: seq<Byte>)
    requires n < 0x1_0000
    ensures |b| == 2 && U16(b, 0) == n
  {
    [n / 0x100, n % 0x100]
  }

  function Be24(n: nat): (b: seq<Byte>)
    requires n < 0x100_0000
    ensures |b| == 3 && U24(b, 0) == n
  {
    [n / 0x1_0000, n / 0x100 % 0x100, n % 0x100]
  }

  function Be32(n: nat): (b: seq<Byte>)
    requires n < 0x1_0000_0000
    ensures |b| == 4 && U32(b, 0) == n
  {
    Be16(n / 0x1_0000) + Be16(n % 0x1_0000)
  }

  // ---------------------------------------------------------------- parsing as functions

  /** parseReportBlock. */
  function BlockAt(b: seq<Byte>): (r: ReportBlock)
    requires |b| == BLOCK_LEN
    ensures -0x80_0000 <= r.cumulativeLost < 0x80_0000
  {
    var raw := U24(b, 5);
    ReportBlock(U32(b, 0), b[4], if raw >= 0x80_0000 then raw - 0x100_0000 else raw, U32(b, 12), U32(b, 16), U32(b, 20))
  }

  /** The blocks of a report from `off` on: as many of n as fit, and whether all did. */
  function BlocksFrom(pkt: seq<Byte>, off: nat, n: nat): (seq<ReportBlock>, Option<Error>)
    requires off <= |pkt|
    decreases n
  {
    if n == 0 then ([], None)
    else if off + BLOCK_LEN > |pkt| then ([], Some(Truncated))
    else var (rest, err) := BlocksFrom(pkt, off + BLOCK_LEN, n - 1); ([BlockAt(pkt[off..off + BLOCK_LEN])] + rest, err)
  }

  function MinLen(pt: Byte): nat { if pt == SR then SR_MIN_LEN else RR_MIN_LEN }

  /** What one framed sub-packet contributes: at most one report, and an error. */
  function PacketReports(pkt: seq<Byte>): Parsed {
    if |pkt| < HEADER_LEN then Parsed([], Some(Invalid)) else ReportFrom(pkt, pkt[1])
  }

  function ReportFrom(pkt: seq<Byte>, pt: Byte): Parsed
    requires |pkt| >= HEADER_LEN
  {
    if pt != SR && pt != RR then Parsed([], None)
    else if |pkt| < MinLen(pt) then Parsed([], Some(Invalid))
    else
      var (blocks, err) := BlocksFrom(pkt, MinLen(pt), pkt[0] % 32);
      Parsed(if err.None? || blocks != [] then [Report(pt, blocks)] else [], err)
  }

  /** compoundPacketLen. */
  function PacketLen(p: seq<Byte>): (n: Option<nat>)
    ensures n.Some? ==> HEADER_LEN <= n.value <= |p|
  {
    if |p| < HEADER_LEN then None
    else
      var n := (U16(p, 2) + 1) * WORD_LEN;
      if n > |p| then None else Some(n)
  }

  function First(a: Option<Error>, b: Option<Error>): Option<Error> { if a.Some? then a else b }

  /** The reports of a before those of b, and the first error. */
  function Then(a: Parsed, b: Parsed): Parsed { Parsed(a.reports + b.reports, First(a.err, b.err)) }

  /** The sub-packets of a payload as their length fields cut it, and whether they use it up. */
  datatype Framing = Framing(packets: seq<Packet>, complete: bool)

  type Packet = seq<Byte>

  function Frames(p: seq<Byte>): Framing {
    if p == [] then Framing([], true)
    else
      var n := PacketLen(p);
      if n.None? then Framing([], false)
      else var rest := Frames(p[n.value..]); Framing([p[..n.value]] + rest.packets, rest.complete)
  }

  function ReportsIn(packets: seq<Packet>): Parsed {
    if packets == [] then Parsed([], None) else Then(PacketReports(packets[0]), ReportsIn(packets[1..]))
  }

  /** The walk over the sub-packets of p: what each contributes, and an error if the last one does not fit. */
  function Walk(p: seq<Byte>): Parsed {
    Then(ReportsIn(Frames(p).packets), Parsed([], if Frames(p).complete then None else Some(Truncated)))
  }

  function Compound(p: seq<Byte>): Parsed {
    if |p| < HEADER_LEN then Parsed([], Some(Invalid))
    else if p[0] / 64 != 2 then Parsed([], Some(NotRtcp))
    else Walk(p)
  }

  // ---------------------------------------------------------------- the parser

  method ParseReport(pkt: seq<Byte>, pt: Byte) returns (report: Report, err: Option<Error>)
    requires |pkt| >= HEADER_LEN && pkt[1] == pt && (pt == SR || pt == RR)
    ensures PacketReports(pkt) == Parsed(if err.None? || report.blocks != [] then [report] else [], err)
    ensures err.None? ==> |report.blocks| == pkt[0] % 32
    ensures |report.blocks| <= pkt[0] % 32 && (report.blocks == [] || MinLen(pt) + BLOCK_LEN * |report.blocks| <= |pkt|)
  {
    var rc := pkt[0] % 32;
    var minLen := RR_MIN_LEN;
    if pt == SR { minLen := SR_MIN_LEN; }
    if |pkt| < minLen { return Report(pt, []), Some(Invalid); }
    var blocks := [];
    var off := minLen;
    assert blocks + BlocksFrom(pkt, off, rc).0 == BlocksFrom(pkt, off, rc).0;
    for i := 0 to rc
      invariant |blocks| == i && off == minLen + BLOCK_LEN * i <= |pkt|
      invariant Read(pkt, minLen, rc, blocks, off, rc - i)
    {
      if off + BLOCK_LEN > |pkt| {
        assert blocks + [] == blocks;
        return Report(pt, blocks), Some(Truncated);
      }
      NextBlock(pkt, minLen, rc, blocks, off, rc - i);
      blocks := blocks + [BlockAt(pkt[off..off + BLOCK_LEN])];
      off := off + BLOCK_LEN;
    }
    assert blocks + [] == blocks;
    return Report(pt, blocks), None;
  }

  /** Of n blocks from `start`, `blocks` have been read up to `off`, and `left` are left. */
  predicate Read(pkt: seq<Byte>, start: nat, n: nat, blocks: seq<ReportBlock>, off: nat, left: nat)
    requires start <= |pkt| && off <= |pkt|
  {
    BlocksFrom(pkt, start, n) == (blocks + BlocksFrom(pkt, off, left).0, BlocksFrom(pkt, off, left).1)
  }

  lemma NextBlock(pkt: seq<Byte>, start: nat, n: nat, blocks: seq<ReportBlock>, off: nat, left: nat)
    requires start <= |pkt| && off + BLOCK_LEN <= |pkt| && left > 0 && Read(pkt, start, n, blocks, off, left)
    ensures Read(pkt, start, n, blocks + [BlockAt(pkt[off..off + BLOCK_LEN])], off + BLOCK_LEN, left - 1)
  {
    var b, rest := BlockAt(pkt[off..off + BLOCK_LEN]), BlocksFrom(pkt, off + BLOCK_LEN, left - 1).0;
    assert blocks + ([b] + rest) == blocks + [b] + rest;
  }

  /** Parse: total on any bytes, and never out of range. */
  method Parse(payload: seq<Byte>) returns (reports: seq<Report>, firstErr: Option<Error>)
    ensures Parsed(reports, firstErr) == Compound(payload)
  {
    if |payload| < HEADER_LEN { return [], Some(Invalid); }
    if payload[0] / 64 != 2 { return [], Some(NotRtcp); }
    reports, firstErr := [], None;
    var off := 0;
    ghost var done: seq<Packet> := [];
    assert payload[0..] == payload;
    while off < |payload|
      invariant 0 <= off <= |payload| && Continues(payload, off, done)
      invariant ReportsIn(done) == Parsed(reports, firstErr)
    {
      var n := PacketLen(payload[off..]);
      if n.None? {
        Unframed(payload, off, done);
        if firstErr.None? { firstErr := Some(Truncated); }
        return;
      }
      off, reports, firstErr, done := Turn(payload, off, n.value, reports, firstErr, done);
    }
    assert payload[off..] == [];
    Framed(payload, off, done);
  }

  /** One turn of the loop. */
  method Turn(payload: seq<Byte>, off: nat, n: nat, reports: seq<Report>, firstErr: Option<Error>, ghost done: seq<Packet>)
    returns (off': nat, reports': seq<Report>, firstErr': Option<Error>, ghost done': seq<Packet>)
    requires off < |payload| && PacketLen(payload[off..]) == Some(n) && Continues(payload, off, done)
    requires ReportsIn(done) == Parsed(reports, firstErr)
    ensures off < off' <= |payload| && Continues(payload, off', done') && ReportsIn(done') == Parsed(reports', firstErr')
  {
    TurnTells(payload, off, n, done);
    var pkt := payload[off..off + n];
    reports', firstErr' := Collect(pkt, reports, firstErr);
    off', done' := off + n, done + [pkt];
  }

  /** What one sub-packet adds. */
  method Collect(pkt: Packet, reports: seq<Report>, firstErr: Option<Error>) returns (reports': seq<Report>, firstErr': Option<Error>)
    requires |pkt| >= HEADER_LEN
    ensures Parsed(reports', firstErr') == Then(Parsed(reports, firstErr), PacketReports(pkt))
  {
    reports', firstErr' := reports, firstErr;
    if pkt[1] == SR || pkt[1] == RR {
      var report, err := ParseReport(pkt, pkt[1]);
      if err.None? || |report.blocks| > 0 { reports' := reports + [report]; }
      if err.Some? && firstErr.None? { firstErr' := err; }
    }
  }

  /** p is the packets `done` and, from `off` on, the rest. */
  predicate Continues(p: seq<Byte>, off: nat, done: seq<Packet>)
    requires off <= |p|
  {
    Frames(p) == Framing(done + Frames(p[off..]).packets, Frames(p[off..]).complete)
  }

  lemma Unframed(p: seq<Byte>, off: nat, done: seq<Packet>)
    requires off < |p| && PacketLen(p[off..]).None? && Continues(p, off, done)
    ensures Walk(p) == Then(ReportsIn(done), Parsed([], Some(Truncated)))
  {
    assert done + [] == done;
  }

  lemma Framed(p: seq<Byte>, off: nat, done: seq<Packet>)
    requires off <= |p| && p[off..] == [] && Continues(p, off, done)
    ensures Walk(p) == ReportsIn(done)
  {
    assert done + [] == done;
    ThenNothing(ReportsIn(done));
  }

  lemma NextPacket(p: seq<Byte>, off: nat, n: nat, done: seq<Packet>)
    requires off < |p| && PacketLen(p[off..]) == Some(n) && Continues(p, off, done)
    ensures off + n <= |p| && Continues(p, off + n, done + [p[off..off + n]])
  {
    assert p[off..][..n] == p[off..off + n] && p[off..][n..] == p[off + n..];
    Associates(done, [p[off..off + n]], Frames(p[off + n..]).packets);
  }

  lemma TurnTells(p: seq<Byte>, off: nat, n: nat, done: seq<Packet>)
    requires off < |p| && PacketLen(p[off..]) == Some(n) && Continues(p, off, done)
    ensures HEADER_LEN <= n && off + n <= |p| && Continues(p, off + n, done + [p[off..off + n]])
    ensures ReportsIn(done + [p[off..off + n]]) == Then(ReportsIn(done), PacketReports(p[off..off + n]))
  {
    NextPacket(p, off, n, done);
    OneMorePacket(done, p[off..off + n]);
  }

  lemma ThenAssociates(a: Parsed, b: Parsed, c: Parsed)
    ensures Then(a, Then(b, c)) == Then(Then(a, b), c)
  {}

  lemma ThenNothing(a: Parsed)
    ensures Then(a, Parsed([], None)) == a
  {}

  lemma {:induction false} ReportsJoin(a: seq<Packet>, b: seq<Packet>)
    ensures ReportsIn(a + b) == Then(ReportsIn(a), ReportsIn(b))
  {
    if a == [] {
      assert a + b == b;
    } else {
      ReportsJoin(a[1..], b);
      assert (a + b)[1..] == a[1..] + b;
      ThenAssociates(PacketReports(a[0]), ReportsIn(a[1..]), ReportsIn(b));
    }
  }

  lemma OneMorePacket(done: seq<Packet>, pkt: Packet)
    ensures ReportsIn(done + [pkt]) == Then(ReportsIn(done), PacketReports(pkt))
  {
    ReportsJoin(done, [pkt]);
    ReportsOne(pkt);
  }

  lemma ReportsOne(pkt: Packet)
    ensures ReportsIn([pkt]) == PacketReports(pkt)
  {
    assert [pkt][1..] == [];
  }

  // ---------------------------------------------------------------- salvage

  lemma {:induction false} FramesJoin(a: seq<Byte>, b: seq<Byte>)
    requires Frames(a).complete
    ensures Frames(a + b) == Framing(Frames(a).packets + Frames(b).packets, Frames(b).complete)
  {
    if a == [] {
      assert a + b == b;
    } else {
      var n := PacketLen(a).value;
      PrefixFrames(a, b);
      FramesJoin(a[n..], b);
      assert (a + b)[..n] == a[..n] && (a + b)[n..] == a[n..] + b;
      Associates([a[..n]], Frames(a[n..]).packets, Frames(b).packets);
    }
  }

  lemma Associates<X>(a: seq<X>, b: seq<X>, c: seq<X>)
    ensures a + (b + c) == (a + b) + c
  {}

  lemma PrefixFrames(a: seq<Byte>, b: seq<Byte>)
    requires PacketLen(a).Some?
    ensures PacketLen(a + b) == PacketLen(a)
  {
    assert (a + b)[2] == a[2] && (a + b)[3] == a[3];
  }

  /** Whatever follows a well-framed prefix, the reports of the prefix are kept and those behind it are still found;
      the first error is the one that is told. */
  lemma WalkSalvages(a: seq<Byte>, b: seq<Byte>)
    requires Frames(a).complete
    ensures Walk(a + b) == Then(Walk(a), Walk(b))
  {
    FramesJoin(a, b);
    var fa, fb := Frames(a), Frames(b);
    ReportsJoin(fa.packets, fb.packets);
    ThenAssociates(ReportsIn(fa.packets), ReportsIn(fb.packets), Parsed([], if fb.complete then None else Some(Truncated)));
    ThenNothing(ReportsIn(fa.packets));
  }

  lemma ParseSalvages(a: seq<Byte>, b: seq<Byte>)
    requires Frames(a).complete && a != []
    ensures Compound(a + b) == if a[0] / 64 == 2 then Then(Compound(a), Walk(b)) else Parsed([], Some(NotRtcp))
  {
    WalkSalvages(a, b);
  }

  /** The packets a payload is cut into are the payload, if they use it up, and else a proper prefix. */
  lemma {:induction false} FramesAreThePayload(p: seq<Byte>)
    ensures Joined(Frames(p).packets) <= p && (Frames(p).complete <==> Joined(Frames(p).packets) == p)
  {
    if p != [] && PacketLen(p).Some? {
      var n := PacketLen(p).value;
      FramesAreThePayload(p[n..]);
      assert p == p[..n] + p[n..];
      assert Frames(p).packets[1..] == Frames(p[n..]).packets;
    }
  }

  function Joined(packets: seq<Packet>): seq<Byte> {
    if packets == [] then [] else packets[0] + Joined(packets[1..])
  }

  // ---------------------------------------------------------------- encoding

  /** A report block as sent; highest is the extended highest sequence number, which the parser skips. */
  datatype WireBlock = WireBlock(block: ReportBlock, highest: nat)

  /** A sub-packet as sent: `lead` is the sender's SSRC, of 4 bytes, followed in an SR by 20 bytes of sender info; `tail` a
      profile extension.  `mark` holds the padding bit. */
  datatype Sub =
    | Rep(pt: Byte, mark: bool, lead: seq<Byte>, blocks: seq<WireBlock>, tail: seq<Byte>)
    | Other(pt: Byte, top: Byte, body: seq<Byte>)

  predicate FitsBlock(w: WireBlock) {
    var r := w.block;
    && r.ssrc < 0x1_0000_0000 && -0x80_0000 <= r.cumulativeLost < 0x80_0000 && r.jitter < 0x1_0000_0000
    && r.lsr < 0x1_0000_0000 && r.dlsr < 0x1_0000_0000 && w.highest < 0x1_0000_0000
  }

  predicate FitsBlocks(ws: seq<WireBlock>) { forall i :: 0 <= i < |ws| ==> FitsBlock(ws[i]) }

  function BodyLen(s: Sub): nat {
    match s
    case Rep(_, _, lead, blocks, tail) => |lead| + BLOCK_LEN * |blocks| + |tail|
    case Other(_, _, body) => |body|
  }

  predicate Fits(s: Sub) {
    && BodyLen(s) % WORD_LEN == 0 && BodyLen(s) / WORD_LEN < 0x1_0000
    && match s
       case Rep(pt, _, lead, blocks, tail) =>
         (pt == SR || pt == RR) && |lead| == (if pt == 200 then 24 else 4) && |blocks| < 32 && FitsBlocks(blocks)
       case Other(pt, top, _) => pt != SR && pt != RR && 128 <= top < 192
  }

  function EncodeBlock(w: WireBlock): (b: seq<Byte>)
    requires FitsBlock(w)
    ensures |b| == BLOCK_LEN && BlockAt(b) == w.block
  {
    var r := w.block;
    var lost := Be24(if r.cumulativeLost < 0 then r.cumulativeLost + 0x100_0000 else r.cumulativeLost);
    var b := Be32(r.ssrc) + [r.fractionLost] + lost + Be32(w.highest) + Be32(r.jitter) + Be32(r.lsr) + Be32(r.dlsr);
    assert b[0..4] == Be32(r.ssrc) && b[5..8] == lost && b[12..16] == Be32(r.jitter) && b[16..20] == Be32(r.lsr) && b[20..24] == Be32(r.dlsr);
    SameNumbers(b, Be32(r.ssrc), lost, Be32(r.jitter), Be32(r.lsr), Be32(r.dlsr));
    b
  }

  lemma SameNumbers(b: seq<Byte>, ssrc: seq<Byte>, lost: seq<Byte>, jitter: seq<Byte>, lsr: seq<Byte>, dlsr: seq<Byte>)
    requires |b| == BLOCK_LEN && b[0..4] == ssrc && b[5..8] == lost && b[12..16] == jitter && b[16..20] == lsr && b[20..24] == dlsr
    ensures U32(b, 0) == U32(ssrc, 0) && U24(b, 5) == U24(lost, 0) && U32(b, 12) == U32(jitter, 0)
    ensures U32(b, 16) == U32(lsr, 0) && U32(b, 20) == U32(dlsr, 0)
  {
    assert forall i :: 0 <= i < 4 ==> b[i] == ssrc[i] && b[12 + i] == jitter[i] && b[16 + i] == lsr[i] && b[20 + i] == dlsr[i];
    assert forall i :: 0 <= i < 3 ==> b[5 + i] == lost[i];
  }

  function EncodeBlocks(ws: seq<WireBlock>): (b: seq<Byte>)
    requires FitsBlocks(ws)
    ensures |b| == BLOCK_LEN * |ws|
  {
    if ws == [] then [] else EncodeBlock(ws[0]) + EncodeBlocks(ws[1..])
  }

  function Plain(ws: seq<WireBlock>): (r: seq<ReportBlock>)
    ensures |r| == |ws|
  {
    if ws == [] then [] else [ws[0].block] + Plain(ws[1..])
  }

  function Head(s: Sub): (b: seq<Byte>)
    requires Fits(s) && s.Rep?
    ensures |b| == HEADER_LEN + |s.lead| && b[0] % 32 == |s.blocks| && b[0] / 64 == 2 && b[1] == s.pt
    ensures b[2..4] == Be16(BodyLen(s) / WORD_LEN)
  {
    [128 + (if s.mark then 32 else 0) + |s.blocks|, s.pt] + Be16(BodyLen(s) / WORD_LEN) + s.lead
  }

  function EncodeSub(s: Sub): (b: seq<Byte>)
    requires Fits(s)
    ensures |b| == HEADER_LEN + BodyLen(s)
  {
    match s
    case Rep(pt, mark, lead, blocks, tail) =>
      Head(s) + EncodeBlocks(blocks) + tail
    case Other(pt, top, body) => [top, pt] + Be16(BodyLen(s) / WORD_LEN) + body
  }

  function Encode(ss: seq<Sub>): seq<Byte>
    requires forall i :: 0 <= i < |ss| ==> Fits(ss[i])
  {
    if ss == [] then [] else EncodeSub(ss[0]) + Encode(ss[1..])
  }

  /** The reports among the sub-packets, in order. */
  function ReportsOf(ss: seq<Sub>): seq<Report> {
    if ss == [] then []
    else (if ss[0].Rep? then [Report(ss[0].pt, Plain(ss[0].blocks))] else []) + ReportsOf(ss[1..])
  }

  /** Blocks are read back from wherever they were put. */
  lemma {:induction false} BlocksBack(pkt: seq<Byte>, off: nat, ws: seq<WireBlock>)
    requires FitsBlocks(ws) && off + BLOCK_LEN * |ws| <= |pkt|
    requires pkt[off..off + BLOCK_LEN * |ws|] == EncodeBlocks(ws)
    ensures BlocksFrom(pkt, off, |ws|) == (Plain(ws), None)
    decreases |ws|
  {
    if ws != [] {
      var b := EncodeBlocks(ws);
      assert b[..BLOCK_LEN] == EncodeBlock(ws[0]) && b[BLOCK_LEN..] == EncodeBlocks(ws[1..]);
      assert pkt[off..off + BLOCK_LEN] == b[..BLOCK_LEN];
      assert pkt[off + BLOCK_LEN..off + BLOCK_LEN + BLOCK_LEN * |ws[1..]|] == b[BLOCK_LEN..];
      BlocksBack(pkt, off + BLOCK_LEN, ws[1..]);
    }
  }

  lemma Early<X>(a: seq<X>, b: seq<X>, i: nat, j: nat)
    requires i <= j <= |a|
    ensures (a + b)[i..j] == a[i..j]
  {}

  lemma LengthField(s: Sub)
    requires Fits(s)
    ensures EncodeSub(s)[2..4] == Be16(BodyLen(s) / WORD_LEN)
  {
    match s
    case Rep(_, _, _, blocks, tail) =>
      assert EncodeSub(s) == Head(s) + (EncodeBlocks(blocks) + tail);
      Early(Head(s), EncodeBlocks(blocks) + tail, 2, 4);
    case Other(pt, top, body) =>
      assert EncodeSub(s) == [top, pt] + (Be16(BodyLen(s) / WORD_LEN) + body);
  }

  lemma SubFramed(s: Sub, rest: seq<Byte>)
    requires Fits(s)
    ensures PacketLen(EncodeSub(s) + rest) == Some(HEADER_LEN + BodyLen(s))
  {
    var p := EncodeSub(s) + rest;
    LengthField(s);
    Early(EncodeSub(s), rest, 2, 4);
    assert p[2] == p[2..4][0] && p[3] == p[2..4][1];
    Words(BodyLen(s));
  }

  lemma Words(n: nat)
    requires n % WORD_LEN == 0
    ensures (n / WORD_LEN + 1) * WORD_LEN == HEADER_LEN + n
  {}

  lemma Middle<X>(a: seq<X>, b: seq<X>, c: seq<X>)
    ensures (a + b + c)[|a|..|a| + |b|] == b
  {}

  /** Where the fields of an encoded report are. */
  lemma RepBytes(s: Sub)
    requires Fits(s) && s.Rep?
    ensures var p, at := EncodeSub(s), HEADER_LEN + |s.lead|;
            && p[0] % 32 == |s.blocks| && p[1] == s.pt && at + BLOCK_LEN * |s.blocks| <= |p|
            && p[at..at + BLOCK_LEN * |s.blocks|] == EncodeBlocks(s.blocks)
  {
    Middle(Head(s), EncodeBlocks(s.blocks), s.tail);
  }

  lemma TopByte(s: Sub)
    requires Fits(s)
    ensures EncodeSub(s)[0] / 64 == 2
  {}

  lemma RepBack(s: Sub)
    requires Fits(s) && s.Rep?
    ensures PacketReports(EncodeSub(s)) == Parsed([Report(s.pt, Plain(s.blocks))], None)
  {
    RepBytes(s);
    BlocksBack(EncodeSub(s), HEADER_LEN + |s.lead|, s.blocks);
  }

  lemma SubBack(s: Sub)
    requires Fits(s)
    ensures PacketReports(EncodeSub(s)) == Parsed(if s.Rep? then [Report(s.pt, Plain(s.blocks))] else [], None)
  {
    if s.Rep? { RepBack(s); }
  }

  function Encoded(ss: seq<Sub>): seq<Packet>
    requires forall i :: 0 <= i < |ss| ==> Fits(ss[i])
  {
    if ss == [] then [] else [EncodeSub(ss[0])] + Encoded(ss[1..])
  }

  lemma FramesCons(p: seq<Byte>, rest: seq<Byte>)
    requires PacketLen(p + rest) == Some(|p|)
    ensures Frames(p + rest) == Framing([p] + Frames(rest).packets, Frames(rest).complete)
  {
    assert (p + rest)[..|p|] == p && (p + rest)[|p|..] == rest;
  }

  /** The encoding of a compound is cut into the encodings of its sub-packets. */
  lemma {:induction false} FramesBack(ss: seq<Sub>)
    requires forall i :: 0 <= i < |ss| ==> Fits(ss[i])
    ensures Frames(Encode(ss)) == Framing(Encoded(ss), true)
  {
    if ss != [] {
      SubFramed(ss[0], Encode(ss[1..]));
      FramesBack(ss[1..]);
      FramesCons(EncodeSub(ss[0]), Encode(ss[1..]));
    }
  }

  lemma {:induction false} ReportsBack(ss: seq<Sub>)
    requires forall i :: 0 <= i < |ss| ==> Fits(ss[i])
    ensures ReportsIn(Encoded(ss)) == Parsed(ReportsOf(ss), None)
  {
    if ss != [] {
      SubBack(ss[0]);
      ReportsBack(ss[1..]);
      assert Encoded(ss)[1..] == Encoded(ss[1..]);
    }
  }

  lemma FirstByte(ss: seq<Sub>)
    requires ss != [] && forall i :: 0 <= i < |ss| ==> Fits(ss[i])
    ensures |Encode(ss)| >= HEADER_LEN && Encode(ss)[0] == EncodeSub(ss[0])[0]
  {}

  /** Parsing inverts encoding: what was sent as SR and RR comes back, signed losses included, and all else is skipped. */
  lemma RoundTrip(ss: seq<Sub>)
    requires ss != [] && forall i :: 0 <= i < |ss| ==> Fits(ss[i])
    ensures Compound(Encode(ss)) == Parsed(ReportsOf(ss), None)
  {
    FramesBack(ss);
    ReportsBack(ss);
    ThenNothing(ReportsIn(Encoded(ss)));
    TopByte(ss[0]);
    FirstByte(ss);
  }

  // ---------------------------------------------------------------- the bytes of one block

  /** The big-endian number in four bytes. */
  function Number(a: Byte, b: Byte, c: Byte, d: Byte): nat {
    0x100_0000 * a as int + 0x1_0000 * b as int + 0x100 * c as int + d as int
  }

  /** The 24 bytes of a report block, byte by byte. */
  function BlockIn(p: seq<Byte>, o: nat): ReportBlock
    requires o + 24 <= |p|
  {
    ReportBlock(Number(p[o], p[o + 1], p[o + 2], p[o + 3]), p[o + 4],
                Number(0, p[o + 5], p[o + 6], p[o + 7]) - (if p[o + 5] >= 128 then 0x100_0000 else 0),
                Number(p[o + 12], p[o + 13], p[o + 14], p[o + 15]), Number(p[o + 16], p[o + 17], p[o + 18], p[o + 19]),
                Number(p[o + 20], p[o + 21], p[o + 22], p[o + 23]))
  }

  lemma BlockBytes(p: seq<Byte>, o: nat)
    requires o + 24 <= |p|
    ensures BlockAt(p[o..o + 24]) == BlockIn(p, o)
  {
    var b := p[o..o + 24];
    assert forall i :: 0 <= i < 24 ==> b[i] == p[o + i];
  }

  lemma OneBlock(p: seq<Byte>, o: nat)
    requires o + 24 <= |p|
    ensures BlocksFrom(p, o, 1) == ([BlockIn(p, o)], None)
  {
    BlockBytes(p, o);
    assert BlocksFrom(p, o + 24, 0) == ([], None);
    assert [BlockIn(p, o)] + [] == [BlockIn(p, o)];
    assert BlocksFrom(p, o, 1).0 == [BlockAt(p[o..o + 24])] + BlocksFrom(p, o + 24, 0).0;
  }

  /** A payload that is a single sub-packet. */
  lemma OnePacket(p: seq<Byte>)
    requires |p| >= 4 && p[0] / 64 == 2 && PacketLen(p) == Some(|p|)
    ensures Compound(p) == PacketReports(p)
  {
    assert p[..|p|] == p && p[|p|..] == [];
    assert Frames(p).packets == [p] + [] && Frames(p).complete;
    ReportsOne(p);
    ThenNothing(PacketReports(p));
  }

  /** A receiver report with one block is 32 bytes, the block from byte 8 on. */
  lemma ReceiverReport(p: seq<Byte>)
    requires |p| == 32 && p[0] == 0x81 && p[1] == 201 && p[2] == 0 && p[3] == 7
    ensures Compound(p) == Parsed([Report(201, [BlockIn(p, 8)])], None)
  {
    OnePacket(p);
    OneBlock(p, 8);
  }

  /** A sender report with one block is 52 bytes, the block from byte 28 on. */
  lemma SenderReport(p: seq<Byte>)
    requires |p| == 52 && p[0] == 0x81 && p[1] == 200 && p[2] == 0 && p[3] == 12
    ensures Compound(p) == Parsed([Report(200, [BlockIn(p, 28)])], None)
  {
    OnePacket(p);
    OneBlock(p, 28);
  }
}
