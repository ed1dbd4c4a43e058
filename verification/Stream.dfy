/**
 Sequence accounting of one RTP stream (`StreamState`): 16-bit sequence numbers, loss, duplicates,
 reordering and the burst/gap split of losses.  Jitter is floating point and not modelled.
 */
module Stream {

  const SEQ_MOD := 65536
  const SEQ_HALF := 32768        // wrapped deltas from here on are old packets
  const MAX_GAP := 1000          // larger forward jumps restart the stream
  const BURST_THRESHOLD := 3

  /** The counters of a stream; `lossRun` is the loss run not yet classified. */
  datatype Counters = Counters(
    hasPrev: bool, maxSeq: nat, lastTS: nat, lastArrival: int,
    total: nat, lost: nat, duplicate: nat, reorder: nat, burst: nat, gap: nat, lossRun: nat)

  datatype Packet = Packet(seqNo: nat, ts: nat, arrival: int, audio: bool)

  function Fresh(now: int): Counters { Counters(false, 0, 0, now, 0, 0, 0, 0, 0, 0, 0) }

  /** Forward distance in 16-bit arithmetic. */
  function Delta(seqNo: nat, maxSeq: nat): nat { (seqNo - maxSeq) % SEQ_MOD }

  /** classifyLossRun: the loss run is over, count it as a burst or as a gap. */
  function Classify(c: Counters): Counters {
    if c.lossRun >= BURST_THRESHOLD then c.(burst := c.burst + c.lossRun, lossRun := 0)
    else c.(gap := c.gap + c.lossRun, lossRun := 0)
  }

  function Baseline(c: Counters, p: Packet): Counters {
    c.(hasPrev := true, lastTS := p.ts, lastArrival := p.arrival)
  }

  /** StreamState.observe as a function of the counters. */
  function Observe(c: Counters, p: Packet): Counters { ObserveAt(c, p, Delta(p.seqNo, c.maxSeq)) }

  function ObserveAt(c: Counters, p: Packet, delta: nat): Counters {
    if !c.hasPrev then Baseline(c.(total := c.total + 1, maxSeq := p.seqNo), p)
    else if delta >= SEQ_HALF then c.(reorder := c.reorder + 1)
    else if delta > MAX_GAP then
      Baseline(c.(lost := 0, duplicate := 0, reorder := 0, burst := 0, gap := 0, lossRun := 0, total := 1, maxSeq := p.seqNo), p)
    else if delta > 0 then
      var k := Classify(c);
      var timed := if p.audio then Baseline(k, p) else k;
      timed.(total := c.total + 1, lost := c.lost + (delta - 1), lossRun := delta - 1, maxSeq := p.seqNo)
    else c.(duplicate := c.duplicate + 1)
  }

  class StreamState {
    var maxSeq: nat
    var lastTS: nat
    var lastArrival: int
    var packetsTotal: nat
    var packetsLost: nat
    var packetsDuplicate: nat
    var packetsReorder: nat
    var burstLoss: nat
    var gapLoss: nat
    var lossRun: nat
    var hasPrev: bool

    ghost function Contents(): Counters
      reads this
    {
      Counters(hasPrev, maxSeq, lastTS, lastArrival, packetsTotal, packetsLost, packetsDuplicate, packetsReorder,
               burstLoss, gapLoss, lossRun)
    }

    constructor (now: int)
      ensures Contents() == Fresh(now)
    {
      maxSeq, lastTS, lastArrival := 0, 0, now;
      packetsTotal, packetsLost, packetsDuplicate, packetsReorder := 0, 0, 0, 0;
      burstLoss, gapLoss, lossRun, hasPrev := 0, 0, 0, false;
    }

    method SaveBaseline(p: Packet)
      modifies this
      ensures Contents() == Baseline(old(Contents()), p)
    {
      lastArrival := p.arrival;
      lastTS := p.ts;
      hasPrev := true;
    }

    method ClassifyLossRun()
      modifies this
      ensures Contents() == Classify(old(Contents()))
    {
      if lossRun == 0 { return; }
      if lossRun >= BURST_THRESHOLD { burstLoss := burstLoss + lossRun; } else { gapLoss := gapLoss + lossRun; }
      lossRun := 0;
    }

    method ObservePacket(p: Packet)
      modifies this
      ensures Contents() == Observe(old(Contents()), p)
    {
      if !hasPrev {
        packetsTotal := packetsTotal + 1;
        maxSeq := p.seqNo;
        SaveBaseline(p);
        return;
      }
      var delta := Delta(p.seqNo, maxSeq);
      if delta >= SEQ_HALF {
        packetsReorder := packetsReorder + 1;
      } else if delta > MAX_GAP {
        packetsLost, packetsDuplicate, packetsReorder := 0, 0, 0;
        burstLoss, gapLoss, lossRun := 0, 0, 0;
        packetsTotal := 1;
        maxSeq := p.seqNo;
        SaveBaseline(p);
      } else if delta > 0 {
        ClassifyLossRun();
        if p.audio { SaveBaseline(p); }
        packetsTotal := packetsTotal + 1;
        if delta > 1 {
          packetsLost := packetsLost + (delta - 1);
          lossRun := lossRun + (delta - 1);
        }
        maxSeq := p.seqNo;
      } else {
        packetsDuplicate := packetsDuplicate + 1;
      }
    }
  }

  // ---------------------------------------------------------------- reference: unbounded numbers

  /** What happened to a stream since it last restarted, told with unbounded sequence numbers and the
      list of its loss runs; no wrap-around, no running loss counter.  `ts` and `seen` are the timestamp and the arrival
      of the packet that later ones are timed against. */
  datatype History = History(first: int, highest: int, received: nat, duplicate: nat, reorder: nat, gaps: seq<nat>, ts: nat, seen: int)

  function Restart(x: int, ts: nat, seen: int): History { History(x, x, 1, 0, 0, [], ts, seen) }

  function Extend(h: History, x: int): History {
    if x < h.highest then h.(reorder := h.reorder + 1)
    else if x == h.highest then h.(duplicate := h.duplicate + 1)
    else if x - h.highest > 1000 then Restart(x, h.ts, h.seen)
    else h.(highest := x, received := h.received + 1,
            gaps := if x - h.highest > 1 then h.gaps + [x - h.highest - 1] else h.gaps)
  }

  ghost function Total(gaps: seq<nat>): nat { if gaps == [] then 0 else Total(gaps[..|gaps| - 1]) + gaps[|gaps| - 1] }

  /** The losses in runs of three or more. */
  ghost function Bursts(gaps: seq<nat>): nat {
    if gaps == [] then 0
    else Bursts(gaps[..|gaps| - 1]) + if gaps[|gaps| - 1] >= 3 then gaps[|gaps| - 1] else 0
  }

  /** A packet whose unbounded sequence number is x, or a snapshot of the statistics. */
  datatype Event = Arrive(x: int, ts: nat, arrival: int, audio: bool) | Snapshot

  function Apply(c: Counters, e: Event): Counters {
    match e
    case Arrive(x, ts, arrival, audio) => Observe(c, Packet(x % SEQ_MOD, ts, arrival, audio))
    case Snapshot => Classify(c)
  }

  /** A packet that restarts the stream, or is audio and moves it forward: later ones are timed against it. */
  predicate Times(h: History, e: Event) { e.Arrive? && (e.x - h.highest > 1000 || (e.audio && e.x > h.highest)) }

  /** The history does not see snapshots. */
  function ApplyRef(h: History, e: Event): History {
    match e
    case Arrive(x, ts, arrival, _) => var h' := Extend(h, x); if Times(h, e) then h'.(ts := ts, seen := arrival) else h'
    case Snapshot => h
  }

  function Run(c: Counters, es: seq<Event>): Counters {
    if es == [] then c else Apply(Run(c, es[..|es| - 1]), es[|es| - 1])
  }

  function RunRef(h: History, es: seq<Event>): History {
    if es == [] then h else ApplyRef(RunRef(h, es[..|es| - 1]), es[|es| - 1])
  }

  /** 16 bits can tell where x lies relative to the highest number seen. */
  predicate InWindow(h: History, e: Event) { e.Arrive? ==> -32768 <= e.x - h.highest < 32768 }

  ghost predicate AllInWindow(h: History, es: seq<Event>) {
    forall k :: 0 <= k < |es| ==> InWindow(RunRef(h, es[..k]), es[k])
  }

  /** The counters tell the history, and what the next packet is timed against. */
  ghost predicate Tells(c: Counters, h: History) { Counts(c, h) && c.lastTS == h.ts && c.lastArrival == h.seen }

  /** Every number between the first and the highest is either received or lost, and closing the open loss run gives the
      burst/gap split of the list of runs. */
  ghost predicate Counts(c: Counters, h: History) {
    && c.hasPrev && c.maxSeq == h.highest % SEQ_MOD
    && c.total == h.received && c.duplicate == h.duplicate && c.reorder == h.reorder
    && c.lost == Total(h.gaps)
    && c.total + c.lost == h.highest - h.first + 1
    && c.burst + c.gap + c.lossRun == c.lost
    && Classify(c).burst == Bursts(h.gaps)
  }

  lemma DeltaIsDistance(x: int, highest: int)
    requires -SEQ_HALF <= x - highest < SEQ_HALF
    ensures Delta(x % SEQ_MOD, highest % SEQ_MOD) == if x >= highest then x - highest else x - highest + SEQ_MOD
  {
    var q := x / SEQ_MOD - highest / SEQ_MOD;
    assert x % SEQ_MOD - highest % SEQ_MOD == x - highest - q * SEQ_MOD;
  }

  lemma GapAppend(gaps: seq<nat>, g: nat)
    ensures Total(gaps + [g]) == Total(gaps) + g
    ensures Bursts(gaps + [g]) == Bursts(gaps) + if g >= BURST_THRESHOLD then g else 0
  {
    assert (gaps + [g])[..|gaps|] == gaps;
  }

  lemma CountsArrive(c: Counters, h: History, p: Packet, x: int, delta: nat)
    requires Counts(c, h) && -SEQ_HALF <= x - h.highest < SEQ_HALF && p.seqNo == x % SEQ_MOD
    requires delta == if x >= h.highest then x - h.highest else x - h.highest + SEQ_MOD
    ensures Counts(ObserveAt(c, p, delta), Extend(h, x))
  {
    if x - h.highest > 1 { GapAppend(h.gaps, x - h.highest - 1); }
  }

  lemma TimesArrive(c: Counters, h: History, e: Event, p: Packet, delta: nat)
    requires Tells(c, h) && e.Arrive? && -SEQ_HALF <= e.x - h.highest < SEQ_HALF && p.ts == e.ts && p.arrival == e.arrival && p.audio == e.audio
    requires delta == if e.x >= h.highest then e.x - h.highest else e.x - h.highest + SEQ_MOD
    ensures ObserveAt(c, p, delta).lastTS == ApplyRef(h, e).ts && ObserveAt(c, p, delta).lastArrival == ApplyRef(h, e).seen
  {}

  lemma TellsStep(c: Counters, h: History, e: Event)
    requires Tells(c, h) && InWindow(h, e)
    ensures Tells(Apply(c, e), ApplyRef(h, e))
  {
    if e.Arrive? {
      DeltaIsDistance(e.x, h.highest);
      var p := Packet(e.x % SEQ_MOD, e.ts, e.arrival, e.audio);
      CountsArrive(c, h, p, e.x, Delta(p.seqNo, c.maxSeq));
      TimesArrive(c, h, e, p, Delta(p.seqNo, c.maxSeq));
    }
  }

  /** Wrapped 16-bit accounting refines accounting over unbounded numbers, across any number of wraps and
      restarts and with snapshots interleaved anywhere: since the last restart received + lost is the
      extended highest number minus the first plus one, and once the open run is closed the burst/gap split
      is that of the history, which no snapshot can change. */
  lemma {:induction false} AccountingRefinesHistory(x: int, ts: nat, now: int, audio: bool, es: seq<Event>)
    requires AllInWindow(Restart(x, ts, now), es)
    ensures Tells(Run(Observe(Fresh(now), Packet(x % SEQ_MOD, ts, now, audio)), es), RunRef(Restart(x, ts, now), es))
  {
    if es != [] {
      var init := es[..|es| - 1];
      assert forall k :: 0 <= k < |init| ==> init[..k] == es[..k];
      AccountingRefinesHistory(x, ts, now, audio, init);
      TellsStep(Run(Observe(Fresh(now), Packet(x % SEQ_MOD, ts, now, audio)), init), RunRef(Restart(x, ts, now), init), es[|es| - 1]);
    }
  }

  function Packets(es: seq<Event>): seq<Event> {
    if es == [] then []
    else Packets(es[..|es| - 1]) + if es[|es| - 1].Arrive? then [es[|es| - 1]] else []
  }

  lemma {:induction false} PacketsHistory(h: History, es: seq<Event>)
    requires AllInWindow(h, es)
    ensures RunRef(h, Packets(es)) == RunRef(h, es) && AllInWindow(h, Packets(es))
  {
    if es != [] {
      var init, e := es[..|es| - 1], es[|es| - 1];
      assert forall k :: 0 <= k < |init| ==> init[..k] == es[..k];
      PacketsHistory(h, init);
      var ps, qs := Packets(init), Packets(es);
      assert RunRef(h, es) == ApplyRef(RunRef(h, init), e);
      if e.Arrive? {
        assert qs == ps + [e];
        assert qs[..|qs| - 1] == ps;
        assert forall k :: 0 <= k < |ps| ==> qs[..k] == ps[..k];
      } else {
        assert qs == ps;
      }
    }
  }

  /** Dropping all snapshots from a run changes no counter of the result and not its burst/gap split. */
  lemma SnapshotsDoNotMatter(x: int, ts: nat, now: int, audio: bool, es: seq<Event>)
    requires AllInWindow(Restart(x, ts, now), es)
    ensures var c := Observe(Fresh(now), Packet(x % SEQ_MOD, ts, now, audio));
            var a, b := Classify(Run(c, es)), Classify(Run(c, Packets(es)));
            && a.burst == b.burst && a.gap == b.gap && a.lost == b.lost && a.total == b.total
            && a.duplicate == b.duplicate && a.reorder == b.reorder && a.maxSeq == b.maxSeq
            && a.lastTS == b.lastTS && a.lastArrival == b.lastArrival
  {
    PacketsHistory(Restart(x, ts, now), es);
    AccountingRefinesHistory(x, ts, now, audio, es);
    AccountingRefinesHistory(x, ts, now, audio, Packets(es));
  }

  // ---------------------------------------------------------------- what packets are timed against

  /** Event k is timed against by those behind it. */
  ghost predicate TimesAt(h: History, es: seq<Event>, k: nat) { k < |es| && Times(RunRef(h, es[..k]), es[k]) }

  lemma {:induction false} SeenSince(h: History, es: seq<Event>, k: nat)
    requires k <= |es| && forall l: nat :: k <= l ==> !TimesAt(h, es, l)
    ensures RunRef(h, es).seen == RunRef(h, es[..k]).seen && RunRef(h, es).ts == RunRef(h, es[..k]).ts
    decreases |es|
  {
    if k == |es| {
      assert es[..k] == es;
    } else {
      var init := es[..|es| - 1];
      assert forall l :: 0 <= l <= |init| ==> init[..l] == es[..l];
      forall l: nat | k <= l ensures !TimesAt(h, init, l) { assert !TimesAt(h, es, l); }
      SeenSince(h, init, k);
      assert !TimesAt(h, es, |init|);
    }
  }

  /** Event k is the latest of the kind. */
  ghost predicate LatestTimed(h: History, es: seq<Event>, k: nat) {
    TimesAt(h, es, k) && forall l: nat :: k < l ==> !TimesAt(h, es, l)
  }

  lemma SeenAt(h: History, es: seq<Event>, k: nat)
    requires LatestTimed(h, es, k)
    ensures RunRef(h, es).seen == es[k].arrival && RunRef(h, es).ts == es[k].ts
  {
    SeenSince(h, es, k + 1);
    assert es[..k + 1][..k] == es[..k];
  }

  /** The arrival and the timestamp a stream is timed against are those of the latest packet that restarted it, or was
      audio and moved it forward; of the packet that opened it, if there was none since. */
  lemma TimedAgainstTheLatest(x: int, ts: nat, now: int, audio: bool, es: seq<Event>)
    requires AllInWindow(Restart(x, ts, now), es)
    ensures var c, h := Run(Observe(Fresh(now), Packet(x % SEQ_MOD, ts, now, audio)), es), Restart(x, ts, now);
            && ((forall k: nat :: !TimesAt(h, es, k)) ==> c.lastArrival == now && c.lastTS == ts)
            && (forall k: nat :: LatestTimed(h, es, k) ==> c.lastArrival == es[k].arrival && c.lastTS == es[k].ts)
  {
    var h := Restart(x, ts, now);
    AccountingRefinesHistory(x, ts, now, audio, es);
    if forall k: nat :: !TimesAt(h, es, k) { SeenSince(h, es, 0); }
    forall k: nat | LatestTimed(h, es, k) ensures RunRef(h, es).seen == es[k].arrival && RunRef(h, es).ts == es[k].ts {
      SeenAt(h, es, k);
    }
  }

  // ---------------------------------------------------------------- what a caller sees per packet

  predicate Counted(c: Counters, p: Packet) { Observe(c, p).total > c.total }
  predicate IsDuplicate(c: Counters, p: Packet) { Observe(c, p).duplicate > c.duplicate }
  predicate IsReorder(c: Counters, p: Packet) { Observe(c, p).reorder > c.reorder }

  /** The packet jumps ahead by more than 1000 and makes the stream start over. */
  predicate Restarts(c: Counters, p: Packet) { c.hasPrev && 1000 < Delta(p.seqNo, c.maxSeq) < 32768 }

  /** Each packet is reported as exactly one of counted, duplicate and reordered, except the packet a running
      stream restarts on, which is reported as none of the three. */
  lemma OneVerdictPerPacket(c: Counters, p: Packet)
    requires c.hasPrev ==> c.total >= 1
    ensures Restarts(c, p) ==> !Counted(c, p) && !IsDuplicate(c, p) && !IsReorder(c, p)
    ensures !Restarts(c, p) ==>
              multiset{Counted(c, p), IsDuplicate(c, p), IsReorder(c, p)} == multiset{true, false, false}
  {}
}
