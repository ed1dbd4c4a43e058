/**
 The media tracker over runs of its operations: which streams the sweep keeps, and what a call's summary says, in terms of
 the packets and reports that were handled.
 */
module TrackerRuns {
  import opened Basics
  import opened Ownership
  import opened Tracking
  import opened TrackerClass
  import opened TrackerOps
  import Stream

  datatype Op =
    | AddMedia(k: Endpoint, labels: Labels)
    | AddRtcp(k: Endpoint, rtp: Endpoint, callID: CallId)
    | Replace(callID: CallId)
    | Unregister(callID: CallId)
    | Rtp(src: Endpoint, dst: Endpoint, h: Header)
    | Rtcp(ssrc: nat, cumulative: int, src: Endpoint, dst: Endpoint)
    | Sweep(ttl: int)

  /** `at` is the arrival of an RTP packet and else the time the operation reads from the clock. */
  datatype Event = Event(at: int, op: Op)

  /** The stream a report is recorded at. */
  ghost function ReportedAt(t: State, op: Op): Option<StreamKey>
    requires op.Rtcp?
  {
    FlatSelect(t.streams, op.ssrc, RtpSide(t.rtcpMedia, op.src), RtpSide(t.rtcpMedia, op.dst))
  }

  lemma ReportedIn(t: State, op: Op)
    requires op.Rtcp?
    ensures ReportedAt(t, op).Some? ==> ReportedAt(t, op).value in t.streams
  {
    var only := OfSsrc(t.streams, op.ssrc);
    if |only| == 1 { assert only != {}; }
  }

  ghost function Forgotten(t: State, c: CallId): State { RemoveCall(t, c).(rtpObserved := t.rtpObserved - {c}) }

  predicate HasSource(t: State, k: Endpoint) { k in t.mediaAliases ==> t.mediaAliases[k].callID in t.sourceAliases }

  /** Every alias has a source, so registering is always possible (OkStep). */
  ghost function Step(t: State, e: Event): State {
    match e.op
    case AddMedia(k, v) => if HasSource(t, k) then Register(t, k, v) else t
    case AddRtcp(k, rtp, c) => RegisterRtcp(t, k, Owned(c, rtp))
    case Replace(c) => RemoveCall(t, c)
    case Unregister(c) => Forgotten(t, c)
    case Rtp(src, dst, h) => Observe(t, src, dst, h, e.at)
    case Rtcp(_, cumulative, _, _) =>
      var r := ReportedAt(t, e.op);
      if r.Some? && r.value in t.streams then RecordAt(t, r.value, cumulative, e.at) else t
    case Sweep(ttl) => Cleanup(t, e.at, ttl)
  }

  ghost predicate Follows(tr: seq<State>, es: seq<Event>, n: nat) { n < |es| && n + 1 < |tr| && tr[n + 1] == Step(tr[n], es[n]) }

  /** The states before each event, and after the last. */
  ghost predicate IsRun(tr: seq<State>, es: seq<Event>) {
    |tr| == |es| + 1 && tr[0] == EMPTY && forall n: nat :: n < |es| ==> Follows(tr, es, n)
  }

  lemma ForgottenOk(t: State, c: CallId)
    requires Ok(t)
    ensures Ok(Forgotten(t, c))
  {
    RemoveCallKeeps(t, c);
    StreamsOnly(RemoveCall(t, c), Forgotten(t, c));
  }

  lemma ReportOk(t: State, e: Event)
    requires Ok(t) && e.op.Rtcp?
    ensures Ok(Step(t, e))
  {
    var r := ReportedAt(t, e.op);
    if r.Some? && r.value in t.streams { RecordKeeps(t, r.value, e.op.cumulative, e.at); }
  }

  lemma AddedOk(t: State, e: Event)
    requires Ok(t) && (e.op.AddMedia? || e.op.AddRtcp?)
    ensures Ok(Step(t, e)) && (e.op.AddMedia? ==> HasSource(t, e.op.k))
  {
    match e.op
    case AddMedia(k, v) => RegisterKeeps(t, k, v);
    case AddRtcp(k, rtp, c) => RegisterRtcpKeeps(t, k, Owned(c, rtp));
  }

  lemma OkStep(t: State, e: Event)
    requires Ok(t)
    ensures Ok(Step(t, e)) && (e.op.AddMedia? ==> HasSource(t, e.op.k))
  {
    match e.op
    case AddMedia(_, _) => AddedOk(t, e);
    case AddRtcp(_, _, _) => AddedOk(t, e);
    case Replace(c) => RemoveCallKeeps(t, c);
    case Unregister(c) => ForgottenOk(t, c);
    case Rtp(src, dst, h) => ObserveKeeps(t, src, dst, h, e.at);
    case Rtcp(_, _, _, _) => ReportOk(t, e);
    case Sweep(ttl) => CleanupKeeps(t, e.at, ttl);
  }

  lemma {:induction false} RunsAreOk(tr: seq<State>, es: seq<Event>, n: nat)
    requires IsRun(tr, es) && n <= |es|
    ensures Ok(tr[n])
  {
    if n > 0 {
      RunsAreOk(tr, es, n - 1);
      assert Follows(tr, es, n - 1);
      OkStep(tr[n - 1], es[n - 1]);
    }
  }

  // ---------------------------------------------------------------- what keeps a stream alive

  /** An RTP packet that is counted in stream `key`, for call c. */
  ghost predicate Reaches(t: State, e: Event, key: StreamKey) {
    e.op.Rtp? && var l := Lookup(t, e.op.src, e.op.dst); l.Some? && key == StreamKey(l.value.endpoint, e.op.h.ssrc)
  }

  /** It is the first of the stream. */
  ghost predicate Opens(t: State, e: Event, key: StreamKey) { Reaches(t, e, key) && key !in t.streams }

  /** It restarts the stream, or is audio and moves it forward. */
  ghost predicate Advances(t: State, e: Event, key: StreamKey) {
    && Reaches(t, e, key) && key in t.streams
    && var h, labels := e.op.h, Lookup(t, e.op.src, e.op.dst).value.labels;
       var ahead := Stream.Delta(h.seqNo, t.streams[key].state.maxSeq);
       && 0 < ahead < 32768
       && (ahead > 1000 || IsAudioCodec(CodecName(h.payloadType, labels.info.codecs)))
  }

  ghost predicate Times(t: State, e: Event, key: StreamKey) { Opens(t, e, key) || Advances(t, e, key) }

  /** An RTCP report on the stream. */
  ghost predicate Reports(t: State, e: Event, key: StreamKey) { e.op.Rtcp? && ReportedAt(t, e.op) == Some(key) }

  ghost predicate Begun(streams: Streams) { forall key :: key in streams ==> streams[key].state.hasPrev }

  lemma TimingOf(c: Stream.Counters, p: Stream.Packet)
    ensures var c', ahead := Stream.Observe(c, p), Stream.Delta(p.seqNo, c.maxSeq);
            && c'.hasPrev
            && c'.lastArrival == if !c.hasPrev || (0 < ahead < 32768 && (ahead > 1000 || p.audio)) then p.arrival else c.lastArrival
  {}

  /** What a packet does to streams. */
  lemma PacketStreams(t: State, e: Event, key: StreamKey)
    requires e.op.Rtp? && Begun(t.streams)
    ensures var t' := Observe(t, e.op.src, e.op.dst, e.op.h, e.at);
            && Begun(t'.streams)
            && (key in t'.streams <==> key in t.streams || Opens(t, e, key))
            && (Times(t, e, key) ==> t'.streams[key].state.lastArrival == e.at)
            && (key in t.streams && !Times(t, e, key) ==> t'.streams[key].state.lastArrival == t.streams[key].state.lastArrival)
            && (Opens(t, e, key) ==> t'.streams[key].lastRTCP == None)
            && (key in t.streams ==> t'.streams[key].lastRTCP == t.streams[key].lastRTCP)
  {
    var l := Lookup(t, e.op.src, e.op.dst);
    if l.Some? {
      var m, h := l.value, e.op.h;
      var own := StreamKey(m.endpoint, h.ssrc);
      CountedStream(t, m, e.op.src, h, e.at);
      TimingOf(if own in t.streams then t.streams[own].state else Stream.Fresh(e.at), PacketOf(m, h, e.at));
    }
  }

  lemma RecordedStream(t: State, at: StreamKey, cumulative: int, now: int, key: StreamKey)
    requires at in t.streams && key in t.streams
    ensures var t' := RecordAt(t, at, cumulative, now);
            && t'.streams.Keys == t.streams.Keys && t'.streams[key].state == t.streams[key].state
            && t'.streams[key].lastRTCP == if key == at then Some(now) else t.streams[key].lastRTCP
  {}

  lemma ReportStreams(t: State, e: Event, key: StreamKey)
    requires e.op.Rtcp? && key in t.streams
    ensures var t' := Step(t, e);
            && t'.streams.Keys == t.streams.Keys && t'.streams[key].state == t.streams[key].state
            && t'.streams[key].lastRTCP == if Reports(t, e, key) then Some(e.at) else t.streams[key].lastRTCP
  {
    ReportedIn(t, e.op);
    var r := ReportedAt(t, e.op);
    if r.Some? { RecordedStream(t, r.value, e.op.cumulative, e.at, key); }
  }

  lemma ReportKeys(t: State, e: Event)
    requires e.op.Rtcp?
    ensures Step(t, e).streams.Keys == t.streams.Keys && (Begun(t.streams) ==> Begun(Step(t, e).streams))
  {
    if ReportedAt(t, e.op).Some? && ReportedAt(t, e.op).value in t.streams {
      assert Step(t, e).streams.Keys == t.streams.Keys;
      forall key | key in t.streams ensures Step(t, e).streams[key].state == t.streams[key].state { ReportStreams(t, e, key); }
    }
  }

  /** Streams may be gone; the others are as they were. */
  ghost predicate Fewer(streams: Streams, streams': Streams) {
    forall key :: key in streams' ==> key in streams && streams'[key] == streams[key]
  }

  lemma RegisterQuiet(t: State, k: Endpoint, v: Labels)
    requires HasSource(t, k)
    ensures var t' := Register(t, k, v); Fewer(t.streams, t'.streams) && t'.callRTP == t.callRTP && t'.rtpObserved == t.rtpObserved
  {}

  lemma RemoveQuiet(t: State, c: CallId)
    ensures var t' := RemoveCall(t, c); Fewer(t.streams, t'.streams) && t'.callRTP == t.callRTP - {c} && t'.rtpObserved == t.rtpObserved
  {}

  lemma CleanupQuiet(t: State, now: int, ttl: int)
    ensures var t' := Cleanup(t, now, ttl); Fewer(t.streams, t'.streams) && t'.callRTP == t.callRTP && t'.rtpObserved == t.rtpObserved
  {}

  lemma ForgetQuiet(t: State, c: CallId)
    ensures var t' := Forgotten(t, c); Fewer(t.streams, t'.streams) && t'.callRTP == t.callRTP - {c} && t'.rtpObserved == t.rtpObserved - {c}
  {
    RemoveQuiet(t, c);
  }

  /** All other operations. */
  lemma QuietStep(t: State, e: Event)
    requires !e.op.Rtp? && !e.op.Rtcp?
    ensures var t' := Step(t, e);
            && Fewer(t.streams, t'.streams)
            && t'.callRTP == (if e.op.Replace? || e.op.Unregister? then t.callRTP - {e.op.callID} else t.callRTP)
            && t'.rtpObserved == if e.op.Unregister? then t.rtpObserved - {e.op.callID} else t.rtpObserved
  {
    match e.op
    case AddMedia(k, v) => if HasSource(t, k) { RegisterQuiet(t, k, v); }
    case Replace(c) => RemoveQuiet(t, c);
    case Unregister(c) => ForgetQuiet(t, c);
    case Sweep(ttl) => CleanupQuiet(t, e.at, ttl);
    case AddRtcp(_, _, _) =>
  }

  /** What any operation does to a stream's clocks. */
  lemma StreamsStep(t: State, e: Event, key: StreamKey)
    requires Begun(t.streams)
    ensures var t' := Step(t, e);
            && Begun(t'.streams)
            && (key in t'.streams ==>
                  && (key in t.streams || Opens(t, e, key))
                  && t'.streams[key].state.lastArrival == (if Times(t, e, key) then e.at else t.streams[key].state.lastArrival)
                  && t'.streams[key].lastRTCP == if Opens(t, e, key) then None else if Reports(t, e, key) then Some(e.at) else t.streams[key].lastRTCP)
  {
    match e.op
    case Rtp(_, _, _) => PacketStreams(t, e, key);
    case Rtcp(_, _, _, _) => ReportKeys(t, e); if key in t.streams { ReportStreams(t, e, key); }
    case _ => QuietStep(t, e);
  }

  lemma {:induction false} AlwaysBegun(tr: seq<State>, es: seq<Event>, n: nat)
    requires IsRun(tr, es) && n <= |es|
    ensures Begun(tr[n].streams)
  {
    if n > 0 {
      AlwaysBegun(tr, es, n - 1);
      assert Follows(tr, es, n - 1);
      StreamsStep(tr[n - 1], es[n - 1], StreamKey(Endpoint(0, 0), 0));
    }
  }

  ghost predicate TimesAt(tr: seq<State>, es: seq<Event>, i: nat, key: StreamKey) { i < |es| && i < |tr| && Times(tr[i], es[i], key) }

  ghost predicate OpensAt(tr: seq<State>, es: seq<Event>, i: nat, key: StreamKey) { i < |es| && i < |tr| && Opens(tr[i], es[i], key) }

  ghost predicate ReportsAt(tr: seq<State>, es: seq<Event>, i: nat, key: StreamKey) { i < |es| && i < |tr| && Reports(tr[i], es[i], key) }

  /** The latest packet before event n that opened the stream, restarted it, or was audio and moved it forward. */
  ghost predicate LatestTimed(tr: seq<State>, es: seq<Event>, n: nat, key: StreamKey, i: nat) {
    i < n && TimesAt(tr, es, i, key) && forall j: nat :: i < j < n ==> !TimesAt(tr, es, j, key)
  }

  /** The latest report before event n on the stream since it was opened. */
  ghost predicate LatestReport(tr: seq<State>, es: seq<Event>, n: nat, key: StreamKey, i: nat) {
    i < n && ReportsAt(tr, es, i, key) && forall j: nat :: i < j < n ==> !ReportsAt(tr, es, j, key) && !OpensAt(tr, es, j, key)
  }

  ghost predicate NoReport(tr: seq<State>, es: seq<Event>, n: nat, key: StreamKey) { forall i: nat :: !LatestReport(tr, es, n, key, i) }

  /** A stream's entry tells when the latest such packet and the latest report were handled. */
  ghost predicate ClocksTell(tr: seq<State>, es: seq<Event>, n: nat, key: StreamKey)
    requires n <= |es| && n < |tr| && key in tr[n].streams
  {
    var e := tr[n].streams[key];
    && (exists i: nat :: LatestTimed(tr, es, n, key, i) && e.state.lastArrival == es[i].at)
    && (e.lastRTCP.Some? ==> exists i: nat :: LatestReport(tr, es, n, key, i) && e.lastRTCP.value == es[i].at)
    && (e.lastRTCP.None? ==> NoReport(tr, es, n, key))
  }

  lemma TimedStep(tr: seq<State>, es: seq<Event>, n: nat, key: StreamKey)
    requires IsRun(tr, es) && n < |es| && key in tr[n + 1].streams
    requires key in tr[n].streams ==> ClocksTell(tr, es, n, key)
    ensures exists i: nat :: LatestTimed(tr, es, n + 1, key, i) && tr[n + 1].streams[key].state.lastArrival == es[i].at
  {
    AlwaysBegun(tr, es, n);
    assert Follows(tr, es, n);
    StreamsStep(tr[n], es[n], key);
    if TimesAt(tr, es, n, key) {
      assert LatestTimed(tr, es, n + 1, key, n);
    } else {
      var i: nat :| LatestTimed(tr, es, n, key, i) && tr[n].streams[key].state.lastArrival == es[i].at;
      assert LatestTimed(tr, es, n + 1, key, i);
    }
  }

  lemma LatestStep(tr: seq<State>, es: seq<Event>, n: nat, n': nat, key: StreamKey)
    requires IsRun(tr, es) && n < |es| && n' == n + 1
    ensures forall i: nat :: LatestReport(tr, es, n', key, i) <==>
              if ReportsAt(tr, es, n, key) then i == n else !OpensAt(tr, es, n, key) && LatestReport(tr, es, n, key, i)
  {}

  lemma ReportedStep(tr: seq<State>, es: seq<Event>, n: nat, n': nat, key: StreamKey)
    requires IsRun(tr, es) && n < |es| && n' == n + 1 && key in tr[n'].streams
    requires key in tr[n].streams ==> ClocksTell(tr, es, n, key)
    ensures var r := tr[n'].streams[key].lastRTCP;
            && (r.Some? ==> exists i: nat :: LatestReport(tr, es, n', key, i) && r.value == es[i].at)
            && (r.None? ==> NoReport(tr, es, n', key))
  {
    AlwaysBegun(tr, es, n);
    assert Follows(tr, es, n);
    StreamsStep(tr[n], es[n], key);
    LatestStep(tr, es, n, n', key);
    if !OpensAt(tr, es, n, key) && !ReportsAt(tr, es, n, key) {
      var r := tr[n].streams[key].lastRTCP;
      if r.Some? { var i: nat :| LatestReport(tr, es, n, key, i) && r.value == es[i].at; assert LatestReport(tr, es, n', key, i); }
    } else if ReportsAt(tr, es, n, key) {
      assert LatestReport(tr, es, n', key, n);
    }
  }

  lemma {:induction false} ClocksAlwaysTell(tr: seq<State>, es: seq<Event>, n: nat, key: StreamKey)
    requires IsRun(tr, es) && n <= |es| && key in tr[n].streams
    ensures ClocksTell(tr, es, n, key)
  {
    if n > 0 {
      if key in tr[n - 1].streams { ClocksAlwaysTell(tr, es, n - 1, key); }
      TimedStep(tr, es, n - 1, key);
      ReportedStep(tr, es, n - 1, n, key);
    }
  }

  lemma SweepStep(t: State, e: Event, key: StreamKey)
    requires e.op.Sweep? && key in t.streams
    ensures var s := t.streams[key];
            key in Step(t, e).streams <==>
              e.at - s.state.lastArrival <= e.op.ttl || (s.lastRTCP.Some? && e.at - s.lastRTCP.value <= e.op.ttl)
  {}

  /** A packet or report that counts was handled no longer than `ttl` ago. */
  ghost predicate ActiveAt(tr: seq<State>, es: seq<Event>, n: nat, key: StreamKey, now: int, ttl: int)
    requires n <= |es|
  {
    exists i: nat :: (LatestTimed(tr, es, n, key, i) || LatestReport(tr, es, n, key, i)) && now - es[i].at <= ttl
  }

  lemma ActiveByClocks(tr: seq<State>, es: seq<Event>, n: nat, key: StreamKey, now: int, ttl: int)
    requires IsRun(tr, es) && n <= |es| && key in tr[n].streams && ClocksTell(tr, es, n, key)
    ensures var s := tr[n].streams[key];
            ActiveAt(tr, es, n, key, now, ttl) <==>
              now - s.state.lastArrival <= ttl || (s.lastRTCP.Some? && now - s.lastRTCP.value <= ttl)
  {
    var s := tr[n].streams[key];
    var i: nat :| LatestTimed(tr, es, n, key, i) && s.state.lastArrival == es[i].at;
    forall j: nat | LatestTimed(tr, es, n, key, j) ensures j == i {}
    if s.lastRTCP.Some? {
      var r: nat :| LatestReport(tr, es, n, key, r) && s.lastRTCP.value == es[r].at;
      forall j: nat | LatestReport(tr, es, n, key, j) ensures j == r {}
    }
  }

  /** A sweep keeps a stream if and only if the latest packet that it is timed against, or the latest report on it, was
      handled no longer than the TTL ago. */
  lemma SweepKeepsExactly(tr: seq<State>, es: seq<Event>, n: nat, key: StreamKey)
    requires IsRun(tr, es) && n < |es| && es[n].op.Sweep? && key in tr[n].streams
    ensures key in tr[n + 1].streams <==> ActiveAt(tr, es, n, key, es[n].at, es[n].op.ttl)
  {
    ClocksAlwaysTell(tr, es, n, key);
    ActiveByClocks(tr, es, n, key, es[n].at, es[n].op.ttl);
    assert Follows(tr, es, n);
    SweepStep(tr[n], es[n], key);
  }

  ghost predicate Timed(es: seq<Event>) { forall i, j :: 0 <= i <= j < |es| ==> es[i].at <= es[j].at }

  /** Where time does not run backwards, a packet or report of that kind keeps the stream through every sweep up to the TTL
      later, whatever else is handled in between, as long as the stream is not removed with its call. */
  lemma SweepSparesActive(tr: seq<State>, es: seq<Event>, i: nat, n: nat, key: StreamKey)
    requires IsRun(tr, es) && i < n < |es| && Timed(es) && es[n].op.Sweep? && key in tr[n].streams
    requires (TimesAt(tr, es, i, key) || ReportsAt(tr, es, i, key)) && es[n].at - es[i].at <= es[n].op.ttl
    ensures key in tr[n + 1].streams
  {
    ClocksAlwaysTell(tr, es, n, key);
    SweepKeepsExactly(tr, es, n, key);
    var k: nat :| LatestTimed(tr, es, n, key, k) && tr[n].streams[key].state.lastArrival == es[k].at;
    if i > k {
      LastReportSince(tr, es, i, n, key);
      var l: nat :| i <= l && LatestReport(tr, es, n, key, l);
    }
  }

  lemma {:induction false} LastReportSince(tr: seq<State>, es: seq<Event>, i: nat, n: nat, key: StreamKey)
    requires IsRun(tr, es) && i < n <= |es| && ReportsAt(tr, es, i, key) && forall j: nat :: i < j < n ==> !TimesAt(tr, es, j, key)
    ensures exists l: nat :: i <= l && LatestReport(tr, es, n, key, l)
    decreases n
  {
    if ReportsAt(tr, es, n - 1, key) {
      assert LatestReport(tr, es, n, key, n - 1);
    } else {
      LastReportSince(tr, es, i, n - 1, key);
      var l: nat :| i <= l && LatestReport(tr, es, n - 1, key, l);
      assert !TimesAt(tr, es, n - 1, key);
      assert LatestReport(tr, es, n, key, l);
    }
  }

  lemma MediaStay(t: State, m: Match, src: Endpoint, h: Header, at: int)
    ensures ObserveMatch(t, m, src, h, at).media == t.media
  {}

  lemma OpenedByFirst(t: State, k: Endpoint, v: Labels, src: Endpoint, h: Header, at: int)
    requires k in t.media && t.media[k] == v && StreamKey(k, h.ssrc) !in t.streams
    ensures var t', key := Observe(t, src, k, h, at), StreamKey(k, h.ssrc);
            && key in t'.streams && t'.streams[key].state == Stream.Observe(Stream.Fresh(at), PacketOf(Match(v, k, true), h, at))
            && t'.streams[key].lastRTCP == None && t'.media == t.media
  {
    MediaStay(t, Match(v, k, true), src, h, at);
    CountedStream(t, Match(v, k, true), src, h, at);
    assert Lookup(t, src, k) == Some(Match(v, k, true));
  }

  lemma CountedNext(t: State, k: Endpoint, v: Labels, src: Endpoint, h: Header, at: int)
    requires k in t.media && t.media[k] == v && StreamKey(k, h.ssrc) in t.streams
    ensures var t', key := Observe(t, src, k, h, at), StreamKey(k, h.ssrc);
            && key in t'.streams && t'.streams[key].lastRTCP == t.streams[key].lastRTCP
            && t'.streams[key].state == Stream.Observe(t.streams[key].state, PacketOf(Match(v, k, true), h, at))
  {
    CountedStream(t, Match(v, k, true), src, h, at);
  }

  /** A stream that carries packets within the TTL is swept all the same if they are not audio: here comfort noise, with
      one packet after another and none lost. */
  lemma ComfortNoiseIsSwept(k: Endpoint, v: Labels, src: Endpoint, ssrc: nat, first: int, second: int, now: int, ttl: int)
    requires v.info.codecs == map[] && first < second && now - second <= ttl < now - first
    ensures var s1 := Step(EMPTY, Event(first, AddMedia(k, v)));
            var s2 := Step(s1, Event(first, Rtp(src, k, Header(13, 0, 0, ssrc))));
            var s3 := Step(s2, Event(second, Rtp(src, k, Header(13, 1, 0, ssrc))));
            var s4 := Step(s3, Event(now, Sweep(ttl)));
            StreamKey(k, ssrc) in s3.streams && s3.streams[StreamKey(k, ssrc)].state.total == 2 && StreamKey(k, ssrc) !in s4.streams
  {
    var s1 := Step(EMPTY, Event(first, AddMedia(k, v)));
    var h1, h2 := Header(13, 0, 0, ssrc), Header(13, 1, 0, ssrc);
    OpenedByFirst(s1, k, v, src, h1, first);
    var s2 := Step(s1, Event(first, Rtp(src, k, h1)));
    CountedNext(s2, k, v, src, h2, second);
    SweepStep(Step(s2, Event(second, Rtp(src, k, h2))), Event(now, Sweep(ttl)), StreamKey(k, ssrc));
  }

  // ---------------------------------------------------------------- what a call's summary says

  /** A packet of call c that opens a stream; that opens one at endpoint k. */
  ghost predicate StartsSome(t: State, e: Event, c: CallId) {
    e.op.Rtp? && var l := Lookup(t, e.op.src, e.op.dst);
      l.Some? && l.value.labels.callID == c && StreamKey(l.value.endpoint, e.op.h.ssrc) !in t.streams
  }

  ghost predicate Starts(t: State, e: Event, c: CallId, k: Endpoint) {
    StartsSome(t, e, c) && Lookup(t, e.op.src, e.op.dst).value.endpoint == k
  }

  predicate RemovesMedia(e: Event, c: CallId) { e.op == Replace(c) || e.op == Unregister(c) }

  lemma HeardStep(t: State, e: Event, c: CallId, k: Endpoint)
    ensures k in Heard(Step(t, e), c) <==> Starts(t, e, c, k) || (k in Heard(t, c) && !RemovesMedia(e, c))
    ensures c in Step(t, e).rtpObserved <==> StartsSome(t, e, c) || (c in t.rtpObserved && e.op != Unregister(c))
  {
    match e.op
    case Rtp(_, _, _) => PacketHeard(t, e, c, k);
    case Rtcp(_, _, _, _) => ReportHeard(t, e, c);
    case _ => QuietStep(t, e);
  }

  lemma MatchHeard(t: State, m: Match, src: Endpoint, h: Header, arrival: int, c: CallId, k: Endpoint)
    ensures var t', opens := ObserveMatch(t, m, src, h, arrival), m.labels.callID == c && StreamKey(m.endpoint, h.ssrc) !in t.streams;
            && (k in Heard(t', c) <==> (opens && m.endpoint == k) || k in Heard(t, c))
            && (c in t'.rtpObserved <==> opens || c in t.rtpObserved)
  {
    CountedCall(t, m, src, h, arrival);
  }

  lemma PacketHeard(t: State, e: Event, c: CallId, k: Endpoint)
    requires e.op.Rtp?
    ensures var t' := Observe(t, e.op.src, e.op.dst, e.op.h, e.at);
            && (k in Heard(t', c) <==> Starts(t, e, c, k) || k in Heard(t, c))
            && (c in t'.rtpObserved <==> StartsSome(t, e, c) || c in t.rtpObserved)
  {
    var l := Lookup(t, e.op.src, e.op.dst);
    if l.Some? { MatchHeard(t, l.value, e.op.src, e.op.h, e.at, c, k); }
  }

  lemma ReportHeard(t: State, e: Event, c: CallId)
    requires e.op.Rtcp?
    ensures Heard(Step(t, e), c) == Heard(t, c) && Step(t, e).rtpObserved == t.rtpObserved
  {}

  /** Something of `starts` was before n, and nothing of `ends` since. */
  ghost predicate Since(starts: set<nat>, ends: set<nat>, n: nat) {
    exists i :: i in starts && i < n && forall j :: j in ends && j < n ==> j <= i
  }

  lemma SinceStep(starts: set<nat>, ends: set<nat>, n: nat)
    requires n in starts ==> n !in ends
    ensures Since(starts, ends, n + 1) <==> n in starts || (Since(starts, ends, n) && n !in ends)
  {
    if n in starts { assert forall j :: j in ends && j < n + 1 ==> j <= n; }
    if Since(starts, ends, n) && n !in ends {
      var i :| i in starts && i < n && forall j :: j in ends && j < n ==> j <= i;
      assert forall j :: j in ends && j < n + 1 ==> j <= i;
    }
    if Since(starts, ends, n + 1) && n !in starts {
      var i :| i in starts && i < n + 1 && forall j :: j in ends && j < n + 1 ==> j <= i;
      assert i < n;
    }
  }

  ghost function StartsOf(tr: seq<State>, es: seq<Event>, c: CallId, k: Endpoint): set<nat> { set i: nat | i < |es| && i < |tr| && Starts(tr[i], es[i], c, k) }

  ghost function AllStartsOf(tr: seq<State>, es: seq<Event>, c: CallId): set<nat> { set i: nat | i < |es| && i < |tr| && StartsSome(tr[i], es[i], c) }

  ghost function RemovalsOf(es: seq<Event>, c: CallId): set<nat> { set i: nat | i < |es| && RemovesMedia(es[i], c) }

  ghost function EndsOf(es: seq<Event>, c: CallId): set<nat> { set i: nat | i < |es| && es[i].op == Unregister(c) }

  /** The call has had RTP at k since its media were last replaced. */
  ghost predicate HadRtp(tr: seq<State>, es: seq<Event>, n: nat, c: CallId, k: Endpoint) { Since(StartsOf(tr, es, c, k), RemovalsOf(es, c), n) }

  /** The call has had RTP since it was last unregistered. */
  ghost predicate WasHeard(tr: seq<State>, es: seq<Event>, n: nat, c: CallId) { Since(AllStartsOf(tr, es, c), EndsOf(es, c), n) }

  /** What `starts` makes true and `ends` makes false. */
  ghost predicate Turns(f: nat -> bool, starts: set<nat>, ends: set<nat>, m: nat) {
    (m in starts ==> m !in ends) && (f(m + 1) <==> m in starts || (f(m) && m !in ends))
  }

  lemma {:induction false} TrueSince(f: nat -> bool, starts: set<nat>, ends: set<nat>, n: nat)
    requires !f(0) && forall m: nat :: m < n ==> Turns(f, starts, ends, m)
    ensures f(n) <==> Since(starts, ends, n)
  {
    if n > 0 {
      TrueSince(f, starts, ends, n - 1);
      assert Turns(f, starts, ends, n - 1);
      SinceStep(starts, ends, n - 1);
    }
  }

  ghost predicate IsHeard(tr: seq<State>, es: seq<Event>, c: CallId, k: Endpoint, n: nat) { n < |tr| && k in Heard(tr[n], c) }

  ghost predicate IsObserved(tr: seq<State>, es: seq<Event>, c: CallId, n: nat) { n < |tr| && c in tr[n].rtpObserved }

  lemma HeardTurns(tr: seq<State>, es: seq<Event>, m: nat, c: CallId, k: Endpoint, f: nat -> bool, starts: set<nat>, ends: set<nat>)
    requires IsRun(tr, es) && m < |es| && (f(m) <==> k in Heard(tr[m], c)) && (f(m + 1) <==> k in Heard(tr[m + 1], c))
    requires (m in starts <==> Starts(tr[m], es[m], c, k)) && (m in ends <==> RemovesMedia(es[m], c))
    ensures Turns(f, starts, ends, m)
  {
    assert Follows(tr, es, m);
    HeardStep(tr[m], es[m], c, k);
  }

  lemma ObservedTurns(tr: seq<State>, es: seq<Event>, m: nat, c: CallId, f: nat -> bool, starts: set<nat>, ends: set<nat>)
    requires IsRun(tr, es) && m < |es| && (f(m) <==> c in tr[m].rtpObserved) && (f(m + 1) <==> c in tr[m + 1].rtpObserved)
    requires (m in starts <==> StartsSome(tr[m], es[m], c)) && (m in ends <==> es[m].op == Unregister(c))
    ensures Turns(f, starts, ends, m)
  {
    assert Follows(tr, es, m);
    HeardStep(tr[m], es[m], c, Endpoint(0, 0));
  }

  lemma HeardBy(tr: seq<State>, es: seq<Event>, n: nat, c: CallId, k: Endpoint, starts: set<nat>, ends: set<nat>)
    requires IsRun(tr, es) && n <= |es|
    requires forall i: nat {:trigger i in starts} :: i in starts <==> i < |es| && i < |tr| && Starts(tr[i], es[i], c, k)
    requires forall i: nat {:trigger i in ends} :: i in ends <==> i < |es| && RemovesMedia(es[i], c)
    ensures k in Heard(tr[n], c) <==> Since(starts, ends, n)
  {
    var f := (n: nat) => IsHeard(tr, es, c, k, n);
    forall m: nat | m < n ensures Turns(f, starts, ends, m) { HeardTurns(tr, es, m, c, k, f, starts, ends); }
    TrueSince(f, starts, ends, n);
  }

  lemma HeardExactly(tr: seq<State>, es: seq<Event>, n: nat, c: CallId, k: Endpoint)
    requires IsRun(tr, es) && n <= |es|
    ensures k in Heard(tr[n], c) <==> HadRtp(tr, es, n, c, k)
  {
    HeardBy(tr, es, n, c, k, StartsOf(tr, es, c, k), RemovalsOf(es, c));
  }

  lemma ObservedBy(tr: seq<State>, es: seq<Event>, n: nat, c: CallId, starts: set<nat>, ends: set<nat>)
    requires IsRun(tr, es) && n <= |es|
    requires forall i: nat {:trigger i in starts} :: i in starts <==> i < |es| && i < |tr| && StartsSome(tr[i], es[i], c)
    requires forall i: nat {:trigger i in ends} :: i in ends <==> i < |es| && es[i].op == Unregister(c)
    ensures c in tr[n].rtpObserved <==> Since(starts, ends, n)
  {
    var f := (n: nat) => IsObserved(tr, es, c, n);
    forall m: nat | m < n ensures Turns(f, starts, ends, m) { ObservedTurns(tr, es, m, c, f, starts, ends); }
    TrueSince(f, starts, ends, n);
  }

  lemma ObservedExactly(tr: seq<State>, es: seq<Event>, n: nat, c: CallId)
    requires IsRun(tr, es) && n <= |es|
    ensures c in tr[n].rtpObserved <==> WasHeard(tr, es, n, c)
  {
    ObservedBy(tr, es, n, c, AllStartsOf(tr, es, c), EndsOf(es, c));
  }

  /** ... and nowhere else. */
  ghost predicate OnlyRtp(tr: seq<State>, es: seq<Event>, n: nat, c: CallId, k: Endpoint) { forall x :: HadRtp(tr, es, n, c, x) <==> x == k }

  lemma {:induction false} OneElement(s: set<Endpoint>)
    ensures |s| == 1 <==> exists k :: s == {k}
  {
    if |s| == 1 {
      var k :| k in s;
      assert |s - {k}| == 0;
      assert s == {k};
    }
  }

  lemma TwoOrMore(s: set<Endpoint>)
    ensures |s| >= 2 <==> exists a, b :: a in s && b in s && a != b
  {
    if a, b :| a in s && b in s && a != b { assert |s| == |s - {a} - {b}| + 2; }
    if |s| >= 2 {
      var a :| a in s;
      assert |s - {a}| >= 1;
      var b :| b in s - {a};
    }
  }

  /** What Unregister tells of a call: media were expected if it owns an endpoint; RTP was observed if some packet has
      opened a stream of the call since it was last unregistered; it was one-way if the call owns two endpoints or more,
      and packets have opened streams at exactly one since its media were last replaced. */
  lemma SummaryTells(tr: seq<State>, es: seq<Event>, n: nat, c: CallId)
    requires IsRun(tr, es) && n <= |es|
    ensures var t, s := tr[n], Summary(tr[n], c);
            && (s.mediaExpected <==> exists k :: Owns(t.callMedia, c, k))
            && (s.rtpObserved <==> WasHeard(tr, es, n, c))
            && (s.oneWay <==> (exists a, b :: a != b && Owns(t.callMedia, c, a) && Owns(t.callMedia, c, b))
                              && exists k :: OnlyRtp(tr, es, n, c, k))
  {
    var t := tr[n];
    ObservedExactly(tr, es, n, c);
    forall k ensures k in Heard(t, c) <==> HadRtp(tr, es, n, c, k) { HeardExactly(tr, es, n, c, k); }
    var owned := Claims(t.callMedia, c).Keys;
    assert |Claims(t.callMedia, c)| == |owned|;
    forall k ensures k in owned <==> Owns(t.callMedia, c, k) {}
    TwoOrMore(owned);
    OneElement(Heard(t, c));
    OnlyHeard(Heard(t, c), tr, es, n, c);
    if owned != {} { var k :| k in owned; assert Owns(t.callMedia, c, k); }
    SomeOwned(owned);
  }

  lemma SomeOwned(s: set<Endpoint>)
    ensures |s| > 0 <==> s != {}
  {}

  lemma OnlyHeard(s: set<Endpoint>, tr: seq<State>, es: seq<Event>, n: nat, c: CallId)
    requires IsRun(tr, es) && forall k :: k in s <==> HadRtp(tr, es, n, c, k)
    ensures (exists k :: s == {k}) <==> exists k :: OnlyRtp(tr, es, n, c, k)
  {
    if k :| s == {k} { assert OnlyRtp(tr, es, n, c, k); }
    if k :| OnlyRtp(tr, es, n, c, k) { assert s == {k}; }
  }
}
