/**
 The operations of the media tracker as functions from state to state, with what each keeps of the
 invariant and what it does to the abstract view: the set of (call, endpoint) claims of each kind.
 */
module TrackerOps {
  import opened Basics
  import opened Ownership
  import opened Tracking
  import Stream

  const ALIAS_ENDPOINT_COUNT := 2
  const DEFAULT_CLOCK_RATE := 8000

  /** Different peers have different aliases. */
  ghost predicate Injective(peers: map<Endpoint, Endpoint>) {
    forall p, q :: p in peers && q in peers && peers[p] == peers[q] ==> p == q
  }

  /** Who owns what: media claims, RTCP claims, learned aliases. */
  datatype View = View(media: set<(CallId, Endpoint)>, rtcp: set<(CallId, Endpoint)>, aliases: set<(CallId, Endpoint)>)

  ghost function ViewOf(t: State): View { View(Pairs(t.callMedia), Pairs(t.callRTCP), AliasPairs(t.sourceAliases)) }

  // ---------------------------------------------------------------- registering

  function StreamsAt(t: State, k: Endpoint, c: CallId): set<StreamKey> {
    set key | key in t.streams && key.endpoint == k && t.streams[key].labels.callID == c
  }

  /** An explicit endpoint takes the place of a learned alias. */
  function Displace(t: State, k: Endpoint): State
    requires k in t.mediaAliases && t.mediaAliases[k].callID in t.sourceAliases
  {
    var c := t.mediaAliases[k].callID;
    DropStreams(t, StreamsAt(t, k, c)).(
      sourceAliases := DropAlias(t.sourceAliases, c, k), mediaAliases := t.mediaAliases - {k})
  }

  /** The part of Register after a displaced alias is gone. */
  function Enter(t: State, k: Endpoint, v: Labels): State {
    var c := v.callID;
    t.(callMedia := Claim(t.callMedia, k, v), mediaOwners := AddOwner(t.callMedia, t.mediaOwners, c, k), media := t.media[k := v],
       callMediaOrder := if Owns(t.callMedia, c, k) then t.callMediaOrder
                         else t.callMediaOrder[c := OrderOf(t.callMediaOrder, c) + [k]])
  }

  function Register(t: State, k: Endpoint, v: Labels): State
    requires k in t.mediaAliases ==> t.mediaAliases[k].callID in t.sourceAliases
  {
    Enter(if k in t.mediaAliases then Displace(t, k) else t, k, v)
  }

  function RegisterRtcp(t: State, k: Endpoint, v: Owned<Endpoint>): State {
    t.(callRTCP := Claim(t.callRTCP, k, v), rtcpOwners := AddOwner(t.callRTCP, t.rtcpOwners, v.callID, k),
       rtcpMedia := t.rtcpMedia[k := v])
  }

  lemma DisplaceKeeps(t: State, k: Endpoint)
    requires Ok(t) && k in t.mediaAliases
    ensures t.mediaAliases[k].callID in t.sourceAliases && Ok(Displace(t, k))
    ensures ViewOf(Displace(t, k)) == ViewOf(t).(aliases := ViewOf(t).aliases - {(t.mediaAliases[k].callID, k)})
  {
    DisplaceAlias(t.sourceAliases, t.mediaAliases, t.callMediaOrder, t.media, k);
    DropAliasPairs(t.sourceAliases, t.mediaAliases, t.callMediaOrder, t.media, k);
    DropStreamsKeeps(t.streams, t.ssrcIndex, StreamsAt(t, k, t.mediaAliases[k].callID));
  }

  lemma EnterKeeps(t: State, k: Endpoint, v: Labels)
    requires Ok(t) && k !in t.mediaAliases
    ensures Ok(Enter(t, k, v))
    ensures ViewOf(Enter(t, k, v)) == ViewOf(t).(media := ViewOf(t).media + {(v.callID, k)})
  {
    ClaimKeeps(t.callMedia, t.mediaOwners, t.media, k, v);
    OrderClaim(t.callMediaOrder, t.callMedia, k, v);
    OrderAlias(t.sourceAliases, t.mediaAliases, t.callMediaOrder, Enter(t, k, v).callMediaOrder, t.media, k, v);
    PairsClaim(t.callMedia, k, v);
  }

  /** Registering keeps the invariant; the call owns the endpoint from now on, and no call has it as an alias. */
  lemma RegisterKeeps(t: State, k: Endpoint, v: Labels)
    requires Ok(t)
    ensures (k in t.mediaAliases ==> t.mediaAliases[k].callID in t.sourceAliases) && Ok(Register(t, k, v))
    ensures var w := ViewOf(t);
            ViewOf(Register(t, k, v)) == w.(media := w.media + {(v.callID, k)},
              aliases := w.aliases - if k in t.mediaAliases then {(t.mediaAliases[k].callID, k)} else {})
    ensures k in t.mediaAliases ==> !Owns(t.callMedia, v.callID, k) && (t.mediaAliases[k].callID, k) in ViewOf(t).aliases
  {
    if k in t.mediaAliases {
      DisplaceKeeps(t, k);
      EnterKeeps(Displace(t, k), k, v);
      AliasPairIn(t.sourceAliases, t.mediaAliases, t.callMediaOrder, t.media, (t.mediaAliases[k].callID, k));
      assert k !in t.mediaOwners;
    } else {
      EnterKeeps(t, k, v);
    }
  }

  /** With a displaced alias go the streams that its call has had there, and no others. */
  lemma RegisterDropsStreams(t: State, k: Endpoint, v: Labels, key: StreamKey)
    requires k in t.mediaAliases ==> t.mediaAliases[k].callID in t.sourceAliases
    ensures key in Register(t, k, v).streams <==>
              key in t.streams && !(k in t.mediaAliases && key.endpoint == k && t.streams[key].labels.callID == t.mediaAliases[k].callID)
    ensures key in Register(t, k, v).streams ==> Register(t, k, v).streams[key] == t.streams[key]
  {}

  lemma RegisterRtcpKeeps(t: State, k: Endpoint, v: Owned<Endpoint>)
    requires Ok(t)
    ensures Ok(RegisterRtcp(t, k, v))
    ensures ViewOf(RegisterRtcp(t, k, v)) == ViewOf(t).(rtcp := ViewOf(t).rtcp + {(v.callID, k)})
  {
    ClaimKeeps(t.callRTCP, t.rtcpOwners, t.rtcpMedia, k, v);
    PairsClaim(t.callRTCP, k, v);
  }

  // ---------------------------------------------------------------- removing a call

  function StreamsOf(streams: Streams, c: CallId): set<StreamKey> { set key | key in streams && streams[key].labels.callID == c }

  function LetGoMedia(t: State, c: CallId): State {
    var ks := Claims(t.callMedia, c).Keys;
    t.(callMedia := t.callMedia - {c}, mediaOwners := OwnersAfter(t.mediaOwners, c, ks),
       media := CurrentAfter(t.callMedia, t.mediaOwners, t.media, c, ks), callMediaOrder := t.callMediaOrder - {c})
  }

  function LetGoAliases(t: State, c: CallId): State {
    t.(sourceAliases := t.sourceAliases - {c}, mediaAliases := t.mediaAliases - Peers(t.sourceAliases, c).Values)
  }

  function LetGoRtcp(t: State, c: CallId): State {
    var rs := Claims(t.callRTCP, c).Keys;
    t.(callRTCP := t.callRTCP - {c}, rtcpOwners := OwnersAfter(t.rtcpOwners, c, rs),
       rtcpMedia := CurrentAfter(t.callRTCP, t.rtcpOwners, t.rtcpMedia, c, rs), callRTP := t.callRTP - {c})
  }

  /** The media, aliases and RTCP part of removeCallMedia. */
  function LetGo(t: State, c: CallId): State { LetGoRtcp(LetGoAliases(LetGoMedia(t, c), c), c) }

  /** removeCallMedia. */
  function RemoveCall(t: State, c: CallId): State { DropStreams(LetGo(t, c), StreamsOf(t.streams, c)) }

  lemma RemoveCallOk(t: State, c: CallId)
    requires Ok(t)
    ensures Ok(RemoveCall(t, c))
  {
    RemoveKeeps(t.callMedia, t.mediaOwners, t.media, c);
    RemoveKeeps(t.callRTCP, t.rtcpOwners, t.rtcpMedia, c);
    var t' := RemoveCall(t, c);
    RemoveAliases(t.sourceAliases, t.mediaAliases, t.callMediaOrder, t.media, t'.media, c);
    DropStreamsKeeps(t.streams, t.ssrcIndex, StreamsOf(t.streams, c));
    RemoveOrder(t.callMediaOrder, t.callMedia, c);
    assert CallsOk(t'.streams, t'.callMedia);
  }

  lemma RemoveOrder(orders: Orders, callMedia: ByCall<LabelInfo>, c: CallId)
    requires OrderOk(orders, callMedia)
    ensures OrderOk(orders - {c}, callMedia - {c})
  {}

  /** Removing a call keeps the invariant and removes every claim, alias and stream of that call, and no other. */
  lemma RemoveCallKeeps(t: State, c: CallId)
    requires Ok(t)
    ensures Ok(RemoveCall(t, c))
    ensures var w := ViewOf(t);
            ViewOf(RemoveCall(t, c)) == View(OtherCalls(w.media, c), OtherCalls(w.rtcp, c), OtherCalls(w.aliases, c))
    ensures RemoveCall(t, c).streams == t.streams - StreamsOf(t.streams, c)
  {
    RemoveCallOk(t, c);
    PairsRemove(t.callMedia, c);
    PairsRemove(t.callRTCP, c);
    RemoveAliasPairs(t.sourceAliases, c);
  }

  lemma RemoveAliasPairs(sources: Sources, c: CallId)
    ensures AliasPairs(sources - {c}) == OtherCalls(AliasPairs(sources), c)
  {
    forall x ensures x in AliasPairs(sources - {c}) <==> x in OtherCalls(AliasPairs(sources), c) {
      AliasPairHas(sources, x);
      AliasPairHas(sources - {c}, x);
    }
  }

  // ---------------------------------------------------------------- learning an alias

  /** The endpoint of a two-endpoint call on the other side of `matched`. */
  function PeerOf(order: seq<Endpoint>, matched: Endpoint): Option<Endpoint> {
    if |order| != ALIAS_ENDPOINT_COUNT then None
    else if order[0] == matched then Some(order[1])
    else if order[1] == matched then Some(order[0])
    else None
  }

  /** learnSourceAlias accepts `source` as an alias of the peer. */
  predicate Learns(t: State, c: CallId, matched: Endpoint, source: Endpoint) {
    var peer := PeerOf(OrderOf(t.callMediaOrder, c), matched);
    && peer.Some? && OwnersOf(t.mediaOwners, matched) == [c]
    && IsAliasOf(source, peer.value)
    && source !in t.media && source !in t.mediaAliases && peer.value !in Peers(t.sourceAliases, c)
    && Owns(t.callMedia, c, peer.value)
  }

  function Learn(t: State, c: CallId, matched: Endpoint, source: Endpoint): State
    requires Learns(t, c, matched, source)
  {
    var peer := PeerOf(OrderOf(t.callMediaOrder, c), matched).value;
    t.(sourceAliases := AddAlias(t.sourceAliases, c, peer, source), mediaAliases := t.mediaAliases[source := t.callMedia[c][peer]])
  }

  /** The call has exactly the two endpoints a and b. */
  predicate TwoSides(order: seq<Endpoint>, a: Endpoint, b: Endpoint) { a != b && (order == [a, b] || order == [b, a]) }

  lemma PeerIs(order: seq<Endpoint>, matched: Endpoint)
    requires NoDup(order)
    ensures forall peer :: PeerOf(order, matched) == Some(peer) <==> TwoSides(order, matched, peer)
  {
    if |order| == 2 { assert order == [order[0], order[1]]; }
  }

  lemma SidesOwned(orders: Orders, callMedia: ByCall<LabelInfo>, c: CallId)
    requires OrderOk(orders, callMedia)
    ensures NoDup(OrderOf(orders, c)) && forall k :: k in OrderOf(orders, c) ==> Owns(callMedia, c, k)
  {}

  /** An alias is learned for the other side of a call with two endpoints, exactly if only this call owns the endpoint the
      packet reached, the source has the address of the other side and another port, and neither is taken. */
  lemma LearnsExactly(t: State, c: CallId, matched: Endpoint, source: Endpoint)
    requires OrderOk(t.callMediaOrder, t.callMedia)
    ensures Learns(t, c, matched, source) <==>
              exists peer :: TwoSides(OrderOf(t.callMediaOrder, c), matched, peer) && OwnersOf(t.mediaOwners, matched) == [c]
                && source.ip == peer.ip && source.port != peer.port && source !in t.media && source !in t.mediaAliases
                && peer !in Peers(t.sourceAliases, c)
  {
    PeerIs(OrderOf(t.callMediaOrder, c), matched);
    SidesOwned(t.callMediaOrder, t.callMedia, c);
  }

  /** ... and it stands for that side from then on: a packet to the alias is one of the call, under the labels of that
      side. */
  lemma LearnedIsThePeer(t: State, c: CallId, matched: Endpoint, peer: Endpoint, source: Endpoint, from: Endpoint)
    requires OrderOk(t.callMediaOrder, t.callMedia) && ClaimsOk(t.callMedia)
    requires Learns(t, c, matched, source) && TwoSides(OrderOf(t.callMediaOrder, c), matched, peer)
    ensures Owns(t.callMedia, c, peer) && t.callMedia[c][peer].callID == c
    ensures Peers(Learn(t, c, matched, source).sourceAliases, c) == Peers(t.sourceAliases, c)[peer := source]
    ensures Lookup(Learn(t, c, matched, source), from, source) == Some(Match(t.callMedia[c][peer], source, true))
  {
    SidesOwned(t.callMediaOrder, t.callMedia, c);
    PeerIs(OrderOf(t.callMediaOrder, c), matched);
  }

  lemma AddAliasPairs(sources: Sources, aliases: Aliases, orders: Orders, media: Current<LabelInfo>,
                      c: CallId, peer: Endpoint, a: Endpoint, v: Labels)
    requires AliasOk(sources, aliases, orders, media) && AliasOk(AddAlias(sources, c, peer, a), aliases[a := v], orders, media)
    requires a !in aliases && v.callID == c
    ensures AliasPairs(AddAlias(sources, c, peer, a)) == AliasPairs(sources) + {(c, a)} && (c, a) !in AliasPairs(sources)
  {
    var sources' := AddAlias(sources, c, peer, a);
    forall x
      ensures x in AliasPairs(sources') <==> x in AliasPairs(sources) + {(c, a)}
      ensures x in AliasPairs(sources) ==> x.1 in aliases
    {
      AliasPairIn(sources, aliases, orders, media, x);
      AliasPairIn(sources', aliases[a := v], orders, media, x);
    }
  }

  lemma LearnKeeps(t: State, c: CallId, matched: Endpoint, source: Endpoint)
    requires Ok(t) && Learns(t, c, matched, source)
    ensures Ok(Learn(t, c, matched, source))
    ensures ViewOf(Learn(t, c, matched, source)) == ViewOf(t).(aliases := ViewOf(t).aliases + {(c, source)})
    ensures (c, source) !in ViewOf(t).aliases
  {
    var order := OrderOf(t.callMediaOrder, c);
    var peer := PeerOf(order, matched).value;
    var v := t.callMedia[c][peer];
    assert c in t.callMediaOrder && NoDup(order);
    LearnAlias(t.sourceAliases, t.mediaAliases, t.callMediaOrder, t.media, c, peer, source, v);
    AddAliasPairs(t.sourceAliases, t.mediaAliases, t.callMediaOrder, t.media, c, peer, source, v);
  }

  // ---------------------------------------------------------------- observing a packet

  datatype Header = Header(payloadType: nat, seqNo: nat, ts: nat, ssrc: nat)

  /** The media endpoint a packet belongs to, and whether it was matched by its destination. */
  datatype Match = Match(labels: Labels, endpoint: Endpoint, byDst: bool)

  function StaticCodecName(pt: nat): string {
    if pt == 0 then "PCMU" else if pt == 8 then "PCMA" else if pt == 9 then "G.722" else if pt == 4 then "G.723"
    else if pt == 15 then "G.728" else if pt == 18 then "G.729" else if pt == 13 then "CN" else "other"
  }

  function CodecName(pt: nat, codecs: map<nat, string>): string {
    if pt in codecs && codecs[pt] != "" then codecs[pt] else StaticCodecName(pt)
  }

  predicate IsAudioCodec(codec: string) { codec != "telephone-event" && codec != "CN" }

  function ClockRate(pt: nat, rates: map<nat, nat>): nat {
    if pt in rates && rates[pt] > 0 then rates[pt] else DEFAULT_CLOCK_RATE
  }

  /** lookupLabels: destination first, then source; media before aliases. */
  function Lookup(t: State, src: Endpoint, dst: Endpoint): Option<Match> {
    if dst in t.media then Some(Match(t.media[dst], dst, true))
    else if dst in t.mediaAliases then Some(Match(t.mediaAliases[dst], dst, true))
    else if src in t.media then Some(Match(t.media[src], src, false))
    else if src in t.mediaAliases then Some(Match(t.mediaAliases[src], src, false))
    else None
  }

  function NewEntry(m: Match, h: Header, arrival: int): StreamEntry {
    StreamEntry(Stream.Fresh(arrival), m.labels, CodecName(h.payloadType, m.labels.info.codecs),
                ClockRate(h.payloadType, m.labels.info.clockRates), None, 0, false)
  }

  function IxAppend(ix: SsrcIndex, key: StreamKey): SsrcIndex {
    ix[key.ssrc := (if key.ssrc in ix then ix[key.ssrc] else []) + [key]]
  }

  /** A first packet opens its stream. */
  function OpenStream(t: State, m: Match, h: Header, arrival: int): State {
    var key, c := StreamKey(m.endpoint, h.ssrc), m.labels.callID;
    if key in t.streams then t
    else t.(streams := t.streams[key := NewEntry(m, h, arrival)], ssrcIndex := IxAppend(t.ssrcIndex, key),
            callRTP := t.callRTP[c := (if c in t.callRTP then t.callRTP[c] else {}) + {m.endpoint}],
            rtpObserved := t.rtpObserved + {c})
  }

  function PacketOf(m: Match, h: Header, arrival: int): Stream.Packet {
    Stream.Packet(h.seqNo, h.ts, arrival, IsAudioCodec(CodecName(h.payloadType, m.labels.info.codecs)))
  }

  /** The packet is counted in its stream. */
  function CountPacket(t: State, m: Match, h: Header, arrival: int): State {
    var key, t1 := StreamKey(m.endpoint, h.ssrc), OpenStream(t, m, h, arrival);
    t1.(streams := t1.streams[key := t1.streams[key].(state := Stream.Observe(t1.streams[key].state, PacketOf(m, h, arrival)))])
  }

  /** The counters the packet meets. */
  function StateBefore(t: State, m: Match, h: Header, arrival: int): Stream.Counters {
    OpenStream(t, m, h, arrival).streams[StreamKey(m.endpoint, h.ssrc)].state
  }

  datatype Observation = Observation(
    counted: bool, duplicate: bool, reorder: bool, lost: nat, total: nat, m: Match, learned: Option<Endpoint>)

  predicate LearnsFrom(t: State, m: Match, src: Endpoint, h: Header, arrival: int) {
    && Stream.Counted(StateBefore(t, m, h, arrival), PacketOf(m, h, arrival)) && m.byDst
    && Learns(CountPacket(t, m, h, arrival), m.labels.callID, m.endpoint, src)
  }

  function ObserveMatch(t: State, m: Match, src: Endpoint, h: Header, arrival: int): State {
    var t1 := CountPacket(t, m, h, arrival);
    if LearnsFrom(t, m, src, h, arrival) then Learn(t1, m.labels.callID, m.endpoint, src) else t1
  }

  function Report(t: State, m: Match, src: Endpoint, h: Header, arrival: int): Observation {
    var p, before := PacketOf(m, h, arrival), StateBefore(t, m, h, arrival);
    var after := Stream.Observe(before, p);
    Observation(
      Stream.Counted(before, p), Stream.IsDuplicate(before, p), Stream.IsReorder(before, p),
      if after.lost >= before.lost then after.lost - before.lost else 0, after.total, m,
      if LearnsFrom(t, m, src, h, arrival) then Some(src) else None)
  }

  function Observe(t: State, src: Endpoint, dst: Endpoint, h: Header, arrival: int): State {
    var l := Lookup(t, src, dst);
    if l.Some? then ObserveMatch(t, l.value, src, h, arrival) else t
  }

  function Observed(t: State, src: Endpoint, dst: Endpoint, h: Header, arrival: int): Option<Observation> {
    var l := Lookup(t, src, dst);
    if l.Some? then Some(Report(t, l.value, src, h, arrival)) else None
  }

  lemma PutTwice<K, V>(m: map<K, V>, k: K, a: V, b: V)
    ensures m[k := a][k := b] == m[k := b]
  {}

  /** What a packet makes of its stream. */
  function StreamAfter(streams: Streams, m: Match, h: Header, arrival: int): StreamEntry {
    var own := StreamKey(m.endpoint, h.ssrc);
    var e := if own in streams then streams[own] else NewEntry(m, h, arrival);
    e.(state := Stream.Observe(e.state, PacketOf(m, h, arrival)))
  }

  lemma CountPacketStream(t: State, m: Match, h: Header, arrival: int)
    ensures CountPacket(t, m, h, arrival).streams == t.streams[StreamKey(m.endpoint, h.ssrc) := StreamAfter(t.streams, m, h, arrival)]
  {
    PutTwice(t.streams, StreamKey(m.endpoint, h.ssrc), NewEntry(m, h, arrival), StreamAfter(t.streams, m, h, arrival));
  }

  /** A packet changes its own stream only. */
  lemma CountedStream(t: State, m: Match, src: Endpoint, h: Header, arrival: int)
    ensures ObserveMatch(t, m, src, h, arrival).streams == t.streams[StreamKey(m.endpoint, h.ssrc) := StreamAfter(t.streams, m, h, arrival)]
  {
    CountPacketStream(t, m, h, arrival);
  }

  /** ... and what is known of its call only if it opens the stream. */
  lemma CountedCall(t: State, m: Match, src: Endpoint, h: Header, arrival: int)
    ensures var own, t' := StreamKey(m.endpoint, h.ssrc), ObserveMatch(t, m, src, h, arrival);
            && (own in t.streams ==> t'.callRTP == t.callRTP && t'.rtpObserved == t.rtpObserved)
            && (own !in t.streams ==>
                  && t'.rtpObserved == t.rtpObserved + {m.labels.callID}
                  && t'.callRTP == t.callRTP[m.labels.callID := Heard(t, m.labels.callID) + {m.endpoint}])
  {}

  /** The endpoints of a call that have had a stream. */
  function Heard(t: State, c: CallId): set<Endpoint> { if c in t.callRTP then t.callRTP[c] else {} }

  /** What is told of a packet, by how far its sequence number is ahead of the highest: behind it or far ahead counts for
      nothing lost, and a step of d tells d - 1 lost. */
  lemma VerdictByDistance(t: State, m: Match, src: Endpoint, h: Header, arrival: int)
    ensures var key, o := StreamKey(m.endpoint, h.ssrc), Report(t, m, src, h, arrival);
            && (key !in t.streams ==> o.counted && !o.duplicate && !o.reorder && o.lost == 0 && o.total == 1)
            && (key in t.streams && t.streams[key].state.hasPrev && t.streams[key].state.total >= 1 ==>
                  var c := t.streams[key].state;
                  var d := (h.seqNo - c.maxSeq) % 65536;
                  && (o.duplicate <==> d == 0) && (o.reorder <==> d >= 32768) && (o.counted <==> 0 < d <= 1000)
                  && o.lost == (if 0 < d <= 1000 then d - 1 else 0)
                  && o.total == if 0 < d <= 1000 then c.total + 1 else if 1000 < d < 32768 then 1 else c.total)
  {}

  /** What handling a packet of match m leaves in the streams, field by field. */
  ghost predicate CountedIn(streams: Streams, streams': Streams, m: Match, h: Header, arrival: int) {
    var key, codecs, rates := StreamKey(m.endpoint, h.ssrc), m.labels.info.codecs, m.labels.info.clockRates;
    && streams'.Keys == streams.Keys + {key}
    && (forall x :: x in streams && x != key ==> streams'[x] == streams[x])
    && (key in streams ==> streams'[key] == streams[key].(state := streams'[key].state))
    && (key !in streams ==>
          && streams'[key].labels == m.labels && streams'[key].lastRTCP == None && !streams'[key].lossSeen
          && (h.payloadType in codecs && codecs[h.payloadType] != "" ==> streams'[key].codec == codecs[h.payloadType])
          && streams'[key].clockRate == (if h.payloadType in rates && rates[h.payloadType] > 0 then rates[h.payloadType] else 8000))
    && exists audio ::
         && streams'[key].state == Stream.Observe(if key in streams then streams[key].state else Stream.Fresh(arrival), Stream.Packet(h.seqNo, h.ts, arrival, audio))
         && (h.payloadType in codecs && codecs[h.payloadType] != "" ==>
               (audio <==> codecs[h.payloadType] != "telephone-event" && codecs[h.payloadType] != "CN"))
         && (h.payloadType !in codecs ==> (audio <==> h.payloadType != 13))
  }

  lemma ObserveCounts(t: State, src: Endpoint, dst: Endpoint, h: Header, arrival: int)
    ensures var l, t' := Lookup(t, src, dst), Observe(t, src, dst, h, arrival);
            if l.None? then t' == t else CountedIn(t.streams, t'.streams, l.value, h, arrival)
  {
    var l := Lookup(t, src, dst);
    if l.Some? {
      var m, t' := l.value, Observe(t, src, dst, h, arrival);
      var key, p := StreamKey(m.endpoint, h.ssrc), PacketOf(m, h, arrival);
      CountedStream(t, m, src, h, arrival);
      assert t'.streams[key].state == Stream.Observe(if key in t.streams then t.streams[key].state else Stream.Fresh(arrival), Stream.Packet(h.seqNo, h.ts, arrival, p.audio));
    }
  }

  lemma LookupRegistered(t: State, k: Endpoint, v: Labels, other: Endpoint)
    requires k in t.mediaAliases ==> t.mediaAliases[k].callID in t.sourceAliases
    ensures Lookup(Register(t, k, v), other, k) == Some(Match(v, k, true))
    ensures other != k && other !in t.media && other !in t.mediaAliases ==> Lookup(Register(t, k, v), k, other) == Some(Match(v, k, false))
  {}

  lemma ObservedMatch(t: State, src: Endpoint, dst: Endpoint, h: Header, arrival: int)
    ensures var l, o := Lookup(t, src, dst), Observed(t, src, dst, h, arrival);
            if l.None? then o.None? else o.Some? && o.value.m == l.value
  {
    var l := Lookup(t, src, dst);
    if l.Some? { ReportOf(t, l.value, src, h, arrival); }
  }

  /** A packet to an endpoint that a call has registered is one of that call, wherever it comes from; a packet from there is,
      if nobody is known to be at its destination. */
  lemma RegisteredIsMatched(t: State, k: Endpoint, v: Labels, other: Endpoint, h: Header, arrival: int)
    requires AliasOk(t.sourceAliases, t.mediaAliases, t.callMediaOrder, t.media)
    ensures (k in t.mediaAliases ==> t.mediaAliases[k].callID in t.sourceAliases)
    ensures var o := Observed(Register(t, k, v), other, k, h, arrival); o.Some? && o.value.m == Match(v, k, true)
    ensures other != k && other !in t.media && other !in t.mediaAliases ==>
              var o := Observed(Register(t, k, v), k, other, h, arrival); o.Some? && o.value.m == Match(v, k, false)
  {
    if k in t.mediaAliases { assert Backed(t.sourceAliases, t.mediaAliases[k].callID, k); }
    LookupRegistered(t, k, v, other);
    ObservedMatch(Register(t, k, v), other, k, h, arrival);
    ObservedMatch(Register(t, k, v), k, other, h, arrival);
  }

  lemma SpeakerOwns(callMedia: ByCall<LabelInfo>, owners: Owners, media: Current<LabelInfo>, k: Endpoint)
    requires IndexOk(callMedia, owners, media) && k in media
    ensures media[k].callID in callMedia
  {
    assert Speaks(callMedia, k, media[k]);
  }

  lemma AliasOwns(sources: Sources, aliases: Aliases, orders: Orders, media: Current<LabelInfo>, callMedia: ByCall<LabelInfo>, k: Endpoint)
    requires AliasOk(sources, aliases, orders, media) && OrderOk(orders, callMedia) && k in aliases
    ensures aliases[k].callID in callMedia
  {
    assert Backed(sources, aliases[k].callID, k);
  }

  lemma EndpointOwner(t: State, k: Endpoint)
    requires Ok(t)
    ensures k in t.media ==> t.media[k].callID in t.callMedia
    ensures k in t.mediaAliases ==> t.mediaAliases[k].callID in t.callMedia
  {
    if k in t.media { SpeakerOwns(t.callMedia, t.mediaOwners, t.media, k); }
    if k in t.mediaAliases { AliasOwns(t.sourceAliases, t.mediaAliases, t.callMediaOrder, t.media, t.callMedia, k); }
  }

  /** Changing only streams and their index. */
  lemma StreamsOnly(t: State, t': State)
    requires Ok(t) && IxOk(t'.streams, t'.ssrcIndex) && CallsOk(t'.streams, t.callMedia)
    requires t' == t.(streams := t'.streams, ssrcIndex := t'.ssrcIndex, callRTP := t'.callRTP, rtpObserved := t'.rtpObserved)
    ensures Ok(t') && ViewOf(t') == ViewOf(t)
  {}

  lemma OpenStreamIx(streams: Streams, ix: SsrcIndex, key: StreamKey, e: StreamEntry)
    requires IxOk(streams, ix) && key !in streams
    ensures IxOk(streams[key := e], IxAppend(ix, key))
  {
    assert !Listed(ix, key);
    var ix' := IxAppend(ix, key);
    forall k ensures k in streams[key := e] <==> Listed(ix', k) {
      assert k in streams <==> Listed(ix, k);
    }
  }

  /** Changing one stream without relabelling it. */
  lemma TouchStream(t: State, key: StreamKey, e: StreamEntry)
    requires Ok(t) && key in t.streams && e.labels == t.streams[key].labels
    ensures Ok(t.(streams := t.streams[key := e])) && ViewOf(t.(streams := t.streams[key := e])) == ViewOf(t)
  {
    var t' := t.(streams := t.streams[key := e]);
    SameKeysIx(t.streams, t'.streams, t.ssrcIndex);
    SameCalls(t.streams, t'.streams, t.callMedia, key);
    StreamsOnly(t, t');
  }

  lemma OpenKeeps(t: State, m: Match, h: Header, arrival: int)
    requires Ok(t) && m.labels.callID in t.callMedia
    ensures Ok(OpenStream(t, m, h, arrival)) && ViewOf(OpenStream(t, m, h, arrival)) == ViewOf(t)
  {
    var key := StreamKey(m.endpoint, h.ssrc);
    if key !in t.streams {
      var t1 := OpenStream(t, m, h, arrival);
      OpenStreamIx(t.streams, t.ssrcIndex, key, NewEntry(m, h, arrival));
      NewCalls(t.streams, t.callMedia, key, NewEntry(m, h, arrival));
      StreamsOnly(t, t1);
    }
  }

  lemma NewCalls(streams: Streams, callMedia: ByCall<LabelInfo>, key: StreamKey, e: StreamEntry)
    requires CallsOk(streams, callMedia) && e.labels.callID in callMedia
    ensures CallsOk(streams[key := e], callMedia)
  {}

  lemma CountPacketKeeps(t: State, m: Match, h: Header, arrival: int)
    requires Ok(t) && m.labels.callID in t.callMedia
    ensures Ok(CountPacket(t, m, h, arrival)) && ViewOf(CountPacket(t, m, h, arrival)) == ViewOf(t)
  {
    OpenKeeps(t, m, h, arrival);
    var key, t1 := StreamKey(m.endpoint, h.ssrc), OpenStream(t, m, h, arrival);
    TouchStream(t1, key, t1.streams[key].(state := Stream.Observe(t1.streams[key].state, PacketOf(m, h, arrival))));
  }

  lemma SameCalls(streams: Streams, streams': Streams, callMedia: ByCall<LabelInfo>, key: StreamKey)
    requires CallsOk(streams, callMedia) && key in streams && key in streams'
    requires streams' == streams[key := streams'[key]] && streams'[key].labels == streams[key].labels
    ensures CallsOk(streams', callMedia)
  {}

  lemma SameKeysIx(streams: Streams, streams': Streams, ix: SsrcIndex)
    requires IxOk(streams, ix) && streams'.Keys == streams.Keys
    ensures IxOk(streams', ix)
  {}

  /** What observing a packet does to the view: the learned alias is added, if there is one. */
  ghost function Learned(w: View, o: Option<Observation>): View {
    if o.Some? && o.value.learned.Some?
    then w.(aliases := w.aliases + {(o.value.m.labels.callID, o.value.learned.value)})
    else w
  }

  lemma ObserveMatchKeeps(t: State, m: Match, src: Endpoint, h: Header, arrival: int)
    requires Ok(t) && m.labels.callID in t.callMedia
    ensures var t' := ObserveMatch(t, m, src, h, arrival);
            && Ok(t')
            && (if LearnsFrom(t, m, src, h, arrival)
                then ViewOf(t') == ViewOf(t).(aliases := ViewOf(t).aliases + {(m.labels.callID, src)})
                     && (m.labels.callID, src) !in ViewOf(t).aliases
                else ViewOf(t') == ViewOf(t))
  {
    CountPacketKeeps(t, m, h, arrival);
    if LearnsFrom(t, m, src, h, arrival) { LearnKeeps(CountPacket(t, m, h, arrival), m.labels.callID, m.endpoint, src); }
  }

  lemma ReportOf(t: State, m: Match, src: Endpoint, h: Header, arrival: int)
    ensures var o := Report(t, m, src, h, arrival);
            o.m == m && o.learned == if LearnsFrom(t, m, src, h, arrival) then Some(src) else None
  {}

  lemma ObserveMatchView(t: State, m: Match, src: Endpoint, h: Header, arrival: int)
    requires Ok(t) && m.labels.callID in t.callMedia
    ensures var t', o := ObserveMatch(t, m, src, h, arrival), Report(t, m, src, h, arrival);
            && Ok(t') && ViewOf(t') == Learned(ViewOf(t), Some(o)) && o.m.labels.callID in t.callMedia
            && (o.learned.Some? ==> (o.m.labels.callID, o.learned.value) !in ViewOf(t).aliases)
  {
    ObserveMatchKeeps(t, m, src, h, arrival);
    ReportOf(t, m, src, h, arrival);
  }

  lemma MatchOwns(t: State, src: Endpoint, dst: Endpoint)
    requires Ok(t)
    ensures Lookup(t, src, dst).Some? ==> Lookup(t, src, dst).value.labels.callID in t.callMedia
  {
    EndpointOwner(t, src);
    EndpointOwner(t, dst);
  }

  /** Observing a packet keeps the invariant, is attributed to a call that owns media, and changes the view by
      the learned alias only, which nobody had. */
  lemma ObserveKeeps(t: State, src: Endpoint, dst: Endpoint, h: Header, arrival: int)
    requires Ok(t)
    ensures var t', o := Observe(t, src, dst, h, arrival), Observed(t, src, dst, h, arrival);
            && Ok(t') && ViewOf(t') == Learned(ViewOf(t), o)
            && (o.Some? ==> o.value.m.labels.callID in t.callMedia)
            && (o.Some? && o.value.learned.Some? ==> (o.value.m.labels.callID, o.value.learned.value) !in ViewOf(t).aliases)
  {
    MatchOwns(t, src, dst);
    var l := Lookup(t, src, dst);
    if l.Some? { ObserveMatchView(t, l.value, src, h, arrival); }
  }

  // ---------------------------------------------------------------- idle streams and RTCP

  function LastSeen(e: StreamEntry): int {
    if e.lastRTCP.Some? && e.lastRTCP.value > e.state.lastArrival then e.lastRTCP.value else e.state.lastArrival
  }

  function IdleStreams(streams: Streams, now: int, ttl: int): set<StreamKey> {
    set key | key in streams && now - LastSeen(streams[key]) > ttl
  }

  function Cleanup(t: State, now: int, ttl: int): State { DropStreams(t, IdleStreams(t.streams, now, ttl)) }

  lemma CleanupKeeps(t: State, now: int, ttl: int)
    requires Ok(t)
    ensures Ok(Cleanup(t, now, ttl)) && ViewOf(Cleanup(t, now, ttl)) == ViewOf(t)
  {
    DropStreamsKeeps(t.streams, t.ssrcIndex, IdleStreams(t.streams, now, ttl));
    StreamsOnly(t, Cleanup(t, now, ttl));
  }

  /** An RTCP endpoint stands for the RTP endpoint it was declared with. */
  function RtpSide(rtcpMedia: Current<Endpoint>, ep: Endpoint): Endpoint {
    if ep in rtcpMedia then rtcpMedia[ep].info else ep
  }

  function OfSsrc(streams: Streams, ssrc: nat): set<StreamKey> { set key | key in streams && key.ssrc == ssrc }

  /** Scanning all streams: the one at the destination, else the one at the source, else the only one. */
  ghost function FlatSelect(streams: Streams, ssrc: nat, src: Endpoint, dst: Endpoint): Option<StreamKey> {
    if StreamKey(dst, ssrc) in streams then Some(StreamKey(dst, ssrc))
    else if StreamKey(src, ssrc) in streams then Some(StreamKey(src, ssrc))
    else if |OfSsrc(streams, ssrc)| == 1 then var key :| key in OfSsrc(streams, ssrc); Some(key)
    else None
  }

  lemma OnlyOneStream(streams: Streams, ix: SsrcIndex, ssrc: nat)
    requires IxOk(streams, ix)
    ensures ssrc in ix && |ix[ssrc]| == 1 <==> |OfSsrc(streams, ssrc)| == 1
    ensures ssrc in ix && |ix[ssrc]| == 1 ==> OfSsrc(streams, ssrc) == {ix[ssrc][0]}
    ensures ssrc !in ix ==> OfSsrc(streams, ssrc) == {}
  {
    forall key ensures key in OfSsrc(streams, ssrc) <==> ssrc in ix && key in ix[ssrc] {
      assert key in streams <==> Listed(ix, key);
    }
    if ssrc in ix {
      if |ix[ssrc]| == 1 {
        assert OfSsrc(streams, ssrc) == {ix[ssrc][0]};
      } else {
        assert {ix[ssrc][0], ix[ssrc][1]} <= OfSsrc(streams, ssrc);
        TwoElements(OfSsrc(streams, ssrc), ix[ssrc][0], ix[ssrc][1]);
      }
    } else {
      assert OfSsrc(streams, ssrc) == {};
    }
  }

  lemma TwoElements(s: set<StreamKey>, a: StreamKey, b: StreamKey)
    requires a in s && b in s && a != b
    ensures |s| >= 2
  {
    assert |s| == |s - {a}| + 1 && |s - {a}| == |s - {a} - {b}| + 1;
  }

  /** recordRTCP on one stream: the new loss baseline and the loss since the last report. */
  function RecordLoss(e: StreamEntry, cumulative: int, now: int): (StreamEntry, nat) {
    var seen := e.(lastRTCP := Some(now), lossSeen := true);
    if cumulative < 0 then (if e.lossSeen then seen else seen.(prevLoss := cumulative), 0)
    else (seen.(prevLoss := cumulative),
          if !e.lossSeen then 0 else if cumulative >= e.prevLoss then cumulative - e.prevLoss else cumulative)
  }

  function RecordAt(t: State, key: StreamKey, cumulative: int, now: int): State
    requires key in t.streams
  {
    t.(streams := t.streams[key := RecordLoss(t.streams[key], cumulative, now).0])
  }

  lemma RecordKeeps(t: State, key: StreamKey, cumulative: int, now: int)
    requires Ok(t) && key in t.streams
    ensures Ok(RecordAt(t, key, cumulative, now)) && ViewOf(RecordAt(t, key, cumulative, now)) == ViewOf(t)
  {
    TouchStream(t, key, RecordLoss(t.streams[key], cumulative, now).0);
  }

  ghost function TotalLoss(e: StreamEntry, reports: seq<int>, now: int): nat
    decreases |reports|
  {
    if reports == [] then 0
    else var (e', d) := RecordLoss(e, reports[0], now); d + TotalLoss(e', reports[1..], now)
  }

  /** The stream after these reports. */
  ghost function AfterReports(e: StreamEntry, reports: seq<int>, now: int): StreamEntry {
    if reports == [] then e else RecordLoss(AfterReports(e, reports[..|reports| - 1], now), reports[|reports| - 1], now).0
  }

  /** Report k is the last one that is not negative, or the first of all with only negative ones behind it. */
  predicate LastToCount(reports: seq<int>, k: nat) {
    k < |reports| && (k == 0 || reports[k] >= 0) && forall l :: k < l < |reports| ==> reports[l] < 0
  }

  lemma {:induction false} BaselineIs(e: StreamEntry, reports: seq<int>, now: int, k: nat)
    requires !e.lossSeen && LastToCount(reports, k)
    ensures AfterReports(e, reports, now).lossSeen && AfterReports(e, reports, now).prevLoss == reports[k]
    decreases |reports|
  {
    var init := reports[..|reports| - 1];
    if k < |init| {
      BaselineIs(e, init, now, k);
    } else if init != [] {
      SeenAfter(e, init, now);
    }
  }

  lemma {:induction false} SeenAfter(e: StreamEntry, reports: seq<int>, now: int)
    requires reports != []
    ensures AfterReports(e, reports, now).lossSeen
  {
    if |reports| > 1 { SeenAfter(e, reports[..|reports| - 1], now); }
  }

  /** The first report of a stream adds nothing.  A later one adds nothing if it is negative, and else the growth since the
      last one that was not, or all of it if it has gone back. */
  lemma DeltaOfReport(e: StreamEntry, reports: seq<int>, r: int, now: int)
    requires !e.lossSeen
    ensures RecordLoss(e, r, now).1 == 0
    ensures forall k: nat :: LastToCount(reports, k) ==>
              RecordLoss(AfterReports(e, reports, now), r, now).1
              == if r < 0 then 0 else if r >= reports[k] then r - reports[k] else r
  {
    forall k: nat | LastToCount(reports, k)
      ensures AfterReports(e, reports, now).lossSeen && AfterReports(e, reports, now).prevLoss == reports[k]
    {
      BaselineIs(e, reports, now, k);
    }
  }

  /** Over reports that never go back, from the first of a stream on, the deltas add up to the growth since then. */
  lemma LossSinceTheFirst(e: StreamEntry, reports: seq<int>, now: int)
    requires !e.lossSeen && reports != [] && 0 <= reports[0]
    requires forall i, j :: 0 <= i <= j < |reports| ==> reports[i] <= reports[j]
    ensures TotalLoss(e, reports, now) == reports[|reports| - 1] - reports[0]
  {
    LossTelescopes(RecordLoss(e, reports[0], now).0, reports[1..], now);
  }

  /** Over reports that never go back, the deltas add up to the growth since the baseline. */
  lemma {:induction false} LossTelescopes(e: StreamEntry, reports: seq<int>, now: int)
    requires e.lossSeen && 0 <= e.prevLoss
    requires forall i :: 0 <= i < |reports| ==> e.prevLoss <= reports[i]
    requires forall i, j :: 0 <= i <= j < |reports| ==> reports[i] <= reports[j]
    decreases |reports|
    ensures TotalLoss(e, reports, now) == if reports == [] then 0 else reports[|reports| - 1] - e.prevLoss
  {
    if reports != [] {
      LossTelescopes(RecordLoss(e, reports[0], now).0, reports[1..], now);
    }
  }

  /** A report that goes to, or comes from, a declared RTCP endpoint is recorded at the stream of the media endpoint it was
      declared with. */
  lemma RtcpFindsItsStream(t: State, k: Endpoint, rtp: Endpoint, c: CallId, ssrc: nat, other: Endpoint)
    requires StreamKey(rtp, ssrc) in t.streams
    ensures var t' := RegisterRtcp(t, k, Owned(c, rtp));
            && FlatSelect(t'.streams, ssrc, RtpSide(t'.rtcpMedia, other), RtpSide(t'.rtcpMedia, k)) == Some(StreamKey(rtp, ssrc))
            && (StreamKey(RtpSide(t'.rtcpMedia, other), ssrc) !in t.streams ==>
                  FlatSelect(t'.streams, ssrc, RtpSide(t'.rtcpMedia, k), RtpSide(t'.rtcpMedia, other)) == Some(StreamKey(rtp, ssrc)))
  {}
}
