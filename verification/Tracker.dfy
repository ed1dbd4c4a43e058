/**
 The media tracker as the class it is: its maps are fields that the methods update in place, entry by
 entry.  Every method is tied to the operation of TrackerOps it implements.
 */
module TrackerClass {
  import opened Basics
  import opened ClaimLoops
  import opened Ownership
  import opened Tracking
  import opened TrackerOps
  import Stream

  /** A dialog's RTP activity, reported when it ends. */
  datatype DialogResult = DialogResult(mediaExpected: bool, rtpObserved: bool, oneWay: bool)

  /** What a call's media came to: whether any was registered and observed, and whether only one of several sides was
      heard. */
  function Summary(t: State, c: CallId): DialogResult {
    var n := |Claims(t.callMedia, c)|;
    DialogResult(n > 0, c in t.rtpObserved, n >= 2 && c in t.callRTP && |t.callRTP[c]| == 1)
  }

  /** The endpoints a call holds, each as often as it holds it: as media, as alias, as RTCP. */
  ghost function Holdings(t: State, c: CallId): multiset<Endpoint> {
    multiset(Claims(t.callMedia, c).Keys) + multiset(Peers(t.sourceAliases, c).Values) + multiset(Claims(t.callRTCP, c).Keys)
  }

  class Tracker {
    var streams: Streams
    var ssrcIndex: SsrcIndex
    var callMedia: ByCall<LabelInfo>
    var mediaOwners: Owners
    var media: Current<LabelInfo>
    var callMediaOrder: Orders
    var sourceAliases: Sources
    var mediaAliases: Aliases
    var callRTCP: ByCall<Endpoint>
    var rtcpOwners: Owners
    var rtcpMedia: Current<Endpoint>
    var callRTP: map<CallId, set<Endpoint>>
    var rtpObserved: set<CallId>
    const ttl: int

    ghost function Contents(): State
      reads this
    {
      State(streams, ssrcIndex, callMedia, mediaOwners, media, callMediaOrder, sourceAliases, mediaAliases,
            callRTCP, rtcpOwners, rtcpMedia, callRTP, rtpObserved)
    }

    ghost predicate Valid()
      reads this
    {
      Ok(Contents())
    }

    constructor (ttl: int)
      ensures Valid() && Contents() == EMPTY
    {
      this.ttl := ttl;
      streams, ssrcIndex := map[], map[];
      callMedia, mediaOwners, media, callMediaOrder := map[], map[], map[], map[];
      sourceAliases, mediaAliases := map[], map[];
      callRTCP, rtcpOwners, rtcpMedia := map[], map[], map[];
      callRTP, rtpObserved := map[], {};
    }

    // -------------------------------------------------------------- loops over one field

    method RemoveSSRCIndex(key: StreamKey)
      modifies this`ssrcIndex
      ensures ssrcIndex == IxWithout(old(ssrcIndex), key)
    {
      if key.ssrc !in ssrcIndex { return; }
      var keys := ssrcIndex[key.ssrc];
      var i := 0;
      while i < |keys|
        invariant 0 <= i <= |keys| && key !in keys[..i] && ssrcIndex == old(ssrcIndex)
      {
        if keys[i] == key {
          if |keys| == 1 { ssrcIndex := ssrcIndex - {key.ssrc}; return; }
          WithoutAt(keys, i, key);
          ssrcIndex := ssrcIndex[key.ssrc := keys[..i] + keys[i + 1..]];
          return;
        }
        i := i + 1;
      }
    }

    /** The deletion loops over streams: each doomed stream leaves the index and the map. */
    method DeleteStreams(doomed: set<StreamKey>)
      requires IxOk(streams, ssrcIndex) && doomed <= streams.Keys
      modifies this`streams, this`ssrcIndex
      ensures streams == old(streams) - doomed && ssrcIndex == IxAfter(old(ssrcIndex), doomed)
    {
      var todo := doomed;
      ghost var gone: set<StreamKey> := {};
      IxNone(ssrcIndex);
      while todo != {}
        invariant gone + todo == doomed && gone !! todo
        invariant streams == old(streams) - gone && ssrcIndex == IxAfter(old(ssrcIndex), gone)
        decreases todo
      {
        var key :| key in todo;
        IxOneMore(old(streams), old(ssrcIndex), gone, key);
        MinusOneMore(old(streams), gone, key);
        RemoveSSRCIndex(key);
        streams := streams - {key};
        todo, gone := todo - {key}, gone + {key};
      }
    }

    /** The aliases of a call, one per peer. */
    static method ListAliases(peers: map<Endpoint, Endpoint>) returns (found: seq<Endpoint>)
      requires Injective(peers)
      ensures multiset(found) == multiset(peers.Values)
    {
      found := [];
      var todo := peers.Keys;
      ghost var seen: set<Endpoint> := {};
      while todo != {}
        invariant todo <= peers.Keys && multiset(found) == multiset(seen)
        invariant forall p :: p in peers ==> (peers[p] in seen <==> p !in todo)
        invariant seen <= peers.Values
        decreases todo
      {
        var p :| p in todo;
        found := found + [peers[p]];
        todo, seen := todo - {p}, seen + {peers[p]};
      }
      assert seen == peers.Values;
    }

    static method ListKeys<T>(claims: map<Endpoint, T>) returns (found: seq<Endpoint>)
      ensures multiset(found) == multiset(claims.Keys)
    {
      found := [];
      var todo := claims.Keys;
      ghost var seen: set<Endpoint> := {};
      while todo != {}
        invariant seen + todo == claims.Keys && seen !! todo && multiset(found) == multiset(seen)
        decreases todo
      {
        var k :| k in todo;
        found := found + [k];
        todo, seen := todo - {k}, seen + {k};
      }
    }

    // -------------------------------------------------------------- operations

    /** Drops the first peer that has alias k. */
    static method DeleteAliasOf(peers: map<Endpoint, Endpoint>, k: Endpoint) returns (rest: map<Endpoint, Endpoint>)
      requires Injective(peers)
      ensures rest == OtherPeers(peers, k)
    {
      rest := peers;
      var todo := peers.Keys;
      while todo != {}
        invariant todo <= peers.Keys && forall p :: p in peers && p !in todo ==> peers[p] != k
        decreases todo
      {
        var p :| p in todo;
        if peers[p] == k {
          return peers - {p};
        }
        todo := todo - {p};
      }
    }

    method ForgetAlias(k: Endpoint, owner: CallId)
      requires owner in sourceAliases
      requires Injective(sourceAliases[owner])
      modifies this`sourceAliases, this`mediaAliases
      ensures sourceAliases == DropAlias(old(sourceAliases), owner, k) && mediaAliases == old(mediaAliases) - {k}
    {
      var peers := DeleteAliasOf(sourceAliases[owner], k);
      sourceAliases := if peers == map[] then sourceAliases - {owner} else sourceAliases[owner := peers];
      mediaAliases := mediaAliases - {k};
    }

    method RemoveStreamsAt(k: Endpoint, owner: CallId)
      requires IxOk(streams, ssrcIndex)
      modifies this`streams, this`ssrcIndex
      ensures var doomed := StreamsAt(old(Contents()), k, owner);
              streams == old(streams) - doomed && ssrcIndex == IxAfter(old(ssrcIndex), doomed)
    {
      ghost var t0 := Contents();
      var doomed := set key | key in streams && key.endpoint == k && streams[key].labels.callID == owner;
      assert doomed == StreamsAt(t0, k, owner);
      DeleteStreams(doomed);
    }

    /** The part of Register for an endpoint that some call has learned as an alias. */
    method DisplaceAliasAt(k: Endpoint) returns (owner: CallId)
      requires k in mediaAliases && mediaAliases[k].callID in sourceAliases && IxOk(streams, ssrcIndex)
      requires Injective(sourceAliases[mediaAliases[k].callID])
      modifies this
      ensures Contents() == Displace(old(Contents()), k) && owner == old(mediaAliases)[k].callID
    {
      ghost var t0 := Contents();
      owner := mediaAliases[k].callID;
      ForgetAlias(k, owner);
      SameStreamsAt(t0, Contents(), k, owner);
      RemoveStreamsAt(k, owner);
    }

    method EnterEndpoint(k: Endpoint, labels: Labels) returns (added: bool)
      modifies this
      ensures Contents() == Enter(old(Contents()), k, labels)
      ensures added <==> !Owns(old(callMedia), labels.callID, k)
    {
      ghost var t0 := Contents();
      var callID := labels.callID;
      var owned := callID in callMedia && k in callMedia[callID];
      if !owned {
        mediaOwners := mediaOwners[k := OwnersOf(mediaOwners, k) + [callID]];
        callMediaOrder := callMediaOrder[callID := OrderOf(callMediaOrder, callID) + [k]];
      }
      callMedia := callMedia[callID := Claims(callMedia, callID)[k := labels]];
      media := media[k := labels];
      added := !owned;
      assert Contents() == Enter(t0, k, labels);
    }

    method RegisterAt(k: Endpoint, labels: Labels) returns (added: bool, displaced: Option<CallId>)
      requires k in mediaAliases ==> mediaAliases[k].callID in sourceAliases
      requires k in mediaAliases ==> Injective(sourceAliases[mediaAliases[k].callID])
      requires IxOk(streams, ssrcIndex)
      modifies this
      ensures Contents() == Register(old(Contents()), k, labels)
      ensures added <==> !Owns(old(callMedia), labels.callID, k)
      ensures displaced == if k in old(mediaAliases) then Some(old(mediaAliases)[k].callID) else None
    {
      displaced := None;
      if k in mediaAliases {
        var owner := DisplaceAliasAt(k);
        displaced := Some(owner);
      }
      added := EnterEndpoint(k, labels);
    }

    /** Registers an SDP endpoint; reports whether the call newly owns it and the call whose alias it displaced. */
    method RegisterEndpoint(k: Endpoint, labels: Labels) returns (added: bool, displaced: Option<CallId>)
      requires Valid()
      modifies this
      ensures Valid() && (k in old(mediaAliases) ==> old(mediaAliases)[k].callID in old(sourceAliases))
      ensures Contents() == Register(old(Contents()), k, labels)
      ensures added <==> !Owns(old(callMedia), labels.callID, k)
      ensures displaced == if k in old(mediaAliases) then Some(old(mediaAliases)[k].callID) else None
      ensures forall key :: key in streams <==>
                key in old(streams) && !(displaced.Some? && key.endpoint == k && old(streams)[key].labels.callID == displaced.value)
    {
      RegisterOk(Contents(), k, labels);
      if k in mediaAliases { AliasesDistinct(Contents(), mediaAliases[k].callID); }
      added, displaced := RegisterAt(k, labels);
    }

    method EnterRTCP(k: Endpoint, rtp: Endpoint, callID: CallId) returns (added: bool)
      modifies this
      ensures Contents() == RegisterRtcp(old(Contents()), k, Owned(callID, rtp))
      ensures added <==> !Owns(old(callRTCP), callID, k)
    {
      ghost var t0 := Contents();
      var owned := callID in callRTCP && k in callRTCP[callID];
      if !owned { rtcpOwners := rtcpOwners[k := OwnersOf(rtcpOwners, k) + [callID]]; }
      callRTCP := callRTCP[callID := Claims(callRTCP, callID)[k := Owned(callID, rtp)]];
      rtcpMedia := rtcpMedia[k := Owned(callID, rtp)];
      added := !owned;
      assert Contents() == RegisterRtcp(t0, k, Owned(callID, rtp));
    }

    method RegisterRTCP(k: Endpoint, rtp: Endpoint, callID: CallId) returns (added: bool)
      requires Valid()
      modifies this
      ensures Valid() && Contents() == RegisterRtcp(old(Contents()), k, Owned(callID, rtp))
      ensures added <==> !Owns(old(callRTCP), callID, k)
    {
      RegisterRtcpKeeps(Contents(), k, Owned(callID, rtp));
      added := EnterRTCP(k, rtp, callID);
    }

    method RemoveMedia(callID: CallId) returns (deleted: seq<Endpoint>)
      requires OwnersOk(callMedia, mediaOwners) && media.Keys == mediaOwners.Keys
      modifies this`callMedia, this`mediaOwners, this`media, this`callMediaOrder
      ensures Contents() == LetGoMedia(old(Contents()), callID)
      ensures multiset(deleted) == multiset(Claims(old(callMedia), callID).Keys)
    {
      mediaOwners, media, deleted := RemoveClaims(callMedia, mediaOwners, media, callID);
      callMedia, callMediaOrder := callMedia - {callID}, callMediaOrder - {callID};
    }

    method RemoveAliases(callID: CallId) returns (deleted: seq<Endpoint>)
      requires Injective(Peers(sourceAliases, callID))
      modifies this`sourceAliases, this`mediaAliases
      ensures Contents() == LetGoAliases(old(Contents()), callID)
      ensures multiset(deleted) == multiset(Peers(old(sourceAliases), callID).Values)
    {
      deleted := ListAliases(Peers(sourceAliases, callID));
      mediaAliases := mediaAliases - Peers(sourceAliases, callID).Values;
      sourceAliases := sourceAliases - {callID};
    }

    method RemoveRTCP(callID: CallId) returns (deleted: seq<Endpoint>)
      requires OwnersOk(callRTCP, rtcpOwners) && rtcpMedia.Keys == rtcpOwners.Keys
      modifies this`callRTCP, this`rtcpOwners, this`rtcpMedia, this`callRTP
      ensures Contents() == LetGoRtcp(old(Contents()), callID)
      ensures multiset(deleted) == multiset(Claims(old(callRTCP), callID).Keys)
    {
      rtcpOwners, rtcpMedia, deleted := RemoveClaims(callRTCP, rtcpOwners, rtcpMedia, callID);
      callRTCP, callRTP := callRTCP - {callID}, callRTP - {callID};
    }

    /** The media, alias and RTCP part of removeCallMedia. */
    method RemoveEndpoints(callID: CallId) returns (deleted: seq<Endpoint>)
      requires OwnersOk(callMedia, mediaOwners) && media.Keys == mediaOwners.Keys
      requires OwnersOk(callRTCP, rtcpOwners) && rtcpMedia.Keys == rtcpOwners.Keys
      requires Injective(Peers(sourceAliases, callID))
      modifies this
      ensures Contents() == LetGo(old(Contents()), callID)
      ensures multiset(deleted) == Holdings(old(Contents()), callID)
    {
      var ks := RemoveMedia(callID);
      var aliases := RemoveAliases(callID);
      var rtcp := RemoveRTCP(callID);
      deleted := ks + aliases + rtcp;
    }

    method RemoveStreams(callID: CallId)
      requires IxOk(streams, ssrcIndex)
      modifies this`streams, this`ssrcIndex
      ensures Contents() == DropStreams(old(Contents()), StreamsOf(old(streams), callID))
    {
      DeleteStreams(set key | key in streams && streams[key].labels.callID == callID);
    }

    /** removeCallMedia: everything of the call goes; the deleted endpoints are its holdings. */
    method RemoveCallMedia(callID: CallId) returns (deleted: seq<Endpoint>)
      requires Valid()
      modifies this
      ensures Valid() && Contents() == RemoveCall(old(Contents()), callID)
      ensures multiset(deleted) == Holdings(old(Contents()), callID)
    {
      RemoveCallKeeps(Contents(), callID);
      AliasesDistinct(Contents(), callID);
      deleted := RemoveEndpoints(callID);
      RemoveStreams(callID);
    }

    method Unregister(callID: CallId) returns (result: DialogResult, deleted: seq<Endpoint>)
      requires Valid()
      modifies this
      ensures Valid()
      ensures Contents() == RemoveCall(old(Contents()), callID).(rtpObserved := old(rtpObserved) - {callID})
      ensures multiset(deleted) == Holdings(old(Contents()), callID)
      ensures result == Summary(old(Contents()), callID)
    {
      var mediaCount := |Claims(callMedia, callID)|;
      var rtpEndpointCount := if callID in callRTP then |callRTP[callID]| else 0;
      result := DialogResult(mediaCount > 0, callID in rtpObserved, mediaCount >= 2 && rtpEndpointCount == 1);
      deleted := RemoveCallMedia(callID);
      StreamsOnly(Contents(), Contents().(rtpObserved := rtpObserved - {callID}));
      rtpObserved := rtpObserved - {callID};
    }

    method Replace(callID: CallId) returns (deleted: seq<Endpoint>)
      requires Valid()
      modifies this
      ensures Valid() && Contents() == RemoveCall(old(Contents()), callID)
      ensures multiset(deleted) == Holdings(old(Contents()), callID)
    {
      deleted := RemoveCallMedia(callID);
    }

    method OwnedEndpoints(callID: CallId) returns (owned: seq<Endpoint>)
      requires Valid()
      ensures multiset(owned) == Holdings(Contents(), callID)
    {
      AliasesDistinct(Contents(), callID);
      owned := ListKeys(Claims(callMedia, callID));
      var aliases := ListAliases(Peers(sourceAliases, callID));
      var rtcp := ListKeys(Claims(callRTCP, callID));
      owned := owned + aliases + rtcp;
    }

    method LearnAliasFor(callID: CallId, matched: Endpoint, source: Endpoint) returns (learned: bool)
      requires forall k :: k in OrderOf(callMediaOrder, callID) ==> Owns(callMedia, callID, k)
      modifies this`sourceAliases, this`mediaAliases
      ensures learned <==> Learns(old(Contents()), callID, matched, source)
      ensures Contents() == if learned then Learn(old(Contents()), callID, matched, source) else old(Contents())
    {
      var endpoints := OrderOf(callMediaOrder, callID);
      if |endpoints| != ALIAS_ENDPOINT_COUNT { return false; }
      var owners := OwnersOf(mediaOwners, matched);
      if !(|owners| == 1 && owners[0] == callID) { return false; }
      var peer := endpoints[0];
      if peer == matched {
        peer := endpoints[1];
      } else if endpoints[1] != matched {
        return false;
      }
      if peer.ip != source.ip || peer.port == source.port { return false; }
      if source in media { return false; }
      if source in mediaAliases { return false; }
      if callID in sourceAliases && peer in sourceAliases[callID] { return false; }
      assert owners == [callID] && peer in endpoints;
      sourceAliases := sourceAliases[callID := Peers(sourceAliases, callID)[peer := source]];
      mediaAliases := mediaAliases[source := callMedia[callID][peer]];
      return true;
    }

    /** learnSourceAlias: a call with two endpoints may learn, for the peer of the endpoint a packet reached, the
        port the packet came from. */
    method LearnSourceAlias(callID: CallId, matched: Endpoint, source: Endpoint) returns (learned: bool)
      requires Valid()
      modifies this`sourceAliases, this`mediaAliases
      ensures Valid() && (learned <==> Learns(old(Contents()), callID, matched, source))
      ensures Contents() == if learned then Learn(old(Contents()), callID, matched, source) else old(Contents())
    {
      OrderOwns(Contents(), callID);
      LearnOk(Contents(), callID, matched, source);
      learned := LearnAliasFor(callID, matched, source);
    }

    /** The stream of a packet, opened if this is its first. */
    method Open(m: Match, h: Header, arrival: int)
      modifies this
      ensures Contents() == OpenStream(old(Contents()), m, h, arrival)
    {
      var key, c := StreamKey(m.endpoint, h.ssrc), m.labels.callID;
      if key !in streams {
        streams, ssrcIndex := streams[key := NewEntry(m, h, arrival)], IxAppend(ssrcIndex, key);
        callRTP := callRTP[c := (if c in callRTP then callRTP[c] else {}) + {m.endpoint}];
        rtpObserved := rtpObserved + {c};
      }
    }

    /** Counts a packet in its stream; returns the counters before and after. */
    method CountIn(m: Match, h: Header, arrival: int) returns (before: Stream.Counters, after: Stream.Counters)
      modifies this
      ensures Contents() == CountPacket(old(Contents()), m, h, arrival)
      ensures before == StateBefore(old(Contents()), m, h, arrival)
      ensures after == Stream.Observe(before, PacketOf(m, h, arrival))
    {
      Open(m, h, arrival);
      var key := StreamKey(m.endpoint, h.ssrc);
      before := streams[key].state;
      after := Stream.Observe(before, PacketOf(m, h, arrival));
      streams := streams[key := streams[key].(state := after)];
    }

    method ObserveAt(m: Match, src: Endpoint, h: Header, arrival: int) returns (o: Observation)
      requires forall k :: k in OrderOf(callMediaOrder, m.labels.callID) ==> Owns(callMedia, m.labels.callID, k)
      modifies this
      ensures Contents() == ObserveMatch(old(Contents()), m, src, h, arrival)
      ensures o == Report(old(Contents()), m, src, h, arrival)
    {
      var before, after := CountIn(m, h, arrival);
      var counted := after.total > before.total;
      var learned := false;
      if counted && m.byDst { learned := LearnAliasFor(m.labels.callID, m.endpoint, src); }
      var lost := if after.lost >= before.lost then after.lost - before.lost else 0;
      o := Observation(counted, after.duplicate > before.duplicate, after.reorder > before.reorder, lost, after.total, m,
                       if learned then Some(src) else None);
    }

    /** Ingests an RTP packet. */
    method ObserveIPv4(src: Endpoint, dst: Endpoint, h: Header, arrival: int) returns (r: Option<Observation>)
      requires Valid()
      modifies this
      ensures Valid() && Contents() == Observe(old(Contents()), src, dst, h, arrival)
      ensures r == Observed(old(Contents()), src, dst, h, arrival)
      ensures r.None? <==> dst !in old(media) && dst !in old(mediaAliases) && src !in old(media) && src !in old(mediaAliases)
      ensures dst in old(media) ==> r.Some? && r.value.m == Match(old(media)[dst], dst, true)
      ensures dst !in old(media) && dst in old(mediaAliases) ==> r.Some? && r.value.m == Match(old(mediaAliases)[dst], dst, true)
      ensures dst !in old(media) && dst !in old(mediaAliases) && src in old(media) ==>
                r.Some? && r.value.m == Match(old(media)[src], src, false)
      ensures dst !in old(media) && dst !in old(mediaAliases) && src !in old(media) && src in old(mediaAliases) ==>
                r.Some? && r.value.m == Match(old(mediaAliases)[src], src, false)
      ensures r.None? ==> Contents() == old(Contents())
      ensures r.Some? ==> CountedIn(old(streams), streams, r.value.m, h, arrival)
    {
      ObserveCounts(Contents(), src, dst, h, arrival);
      ObservedMatch(Contents(), src, dst, h, arrival);
      var found := LookupLabels(src, dst);
      if found.None? { return None; }
      OrderOwns(Contents(), found.value.labels.callID);
      ObserveOk(Contents(), src, dst, h, arrival);
      var o := ObserveAt(found.value, src, h, arrival);
      r := Some(o);
    }

    function LookupLabels(src: Endpoint, dst: Endpoint): (r: Option<Match>)
      reads this
      ensures r == Lookup(Contents(), src, dst)
    {
      if dst in media then Some(Match(media[dst], dst, true))
      else if dst in mediaAliases then Some(Match(mediaAliases[dst], dst, true))
      else if src in media then Some(Match(media[src], src, false))
      else if src in mediaAliases then Some(Match(mediaAliases[src], src, false))
      else None
    }

    method DropIdle(now: int)
      requires IxOk(streams, ssrcIndex)
      modifies this`streams, this`ssrcIndex
      ensures Contents() == Cleanup(old(Contents()), now, ttl)
    {
      DeleteStreams(set key | key in streams && now - LastSeen(streams[key]) > ttl);
    }

    /** Removes streams idle for longer than the TTL. */
    method CleanupIdle(now: int)
      requires Valid()
      modifies this`streams, this`ssrcIndex
      ensures Valid() && Contents() == Cleanup(old(Contents()), now, ttl)
    {
      CleanupKeeps(Contents(), now, ttl);
      DropIdle(now);
    }

    /** Finds the stream an RTCP report names, through the SSRC index; the answer is that of a flat scan: the stream where
        the report goes, else the one it comes from, else the only one. */
    method SelectStream(ssrc: nat, src: Endpoint, dst: Endpoint) returns (r: Option<StreamKey>)
      requires Valid()
      ensures r == FlatSelect(streams, ssrc, RtpSide(rtcpMedia, src), RtpSide(rtcpMedia, dst))
      ensures r.Some? ==> r.value in streams && r.value.ssrc == ssrc
      ensures var to := StreamKey(if dst in rtcpMedia then rtcpMedia[dst].info else dst, ssrc);
              var from := StreamKey(if src in rtcpMedia then rtcpMedia[src].info else src, ssrc);
              && (to in streams ==> r == Some(to))
              && (to !in streams && from in streams ==> r == Some(from))
              && (to !in streams && from !in streams ==> (r.Some? <==> |OfSsrc(streams, ssrc)| == 1))
    {
      OnlyOneStream(streams, ssrcIndex, ssrc);
      ghost var near, far := StreamKey(RtpSide(rtcpMedia, dst), ssrc), StreamKey(RtpSide(rtcpMedia, src), ssrc);
      assert near in streams <==> Listed(ssrcIndex, near);
      assert far in streams <==> Listed(ssrcIndex, far);
      if ssrc !in ssrcIndex { return None; }
      var keys := ssrcIndex[ssrc];
      r := FindEndpoint(keys, RtpSide(rtcpMedia, dst), ssrc);
      if r.Some? { return; }
      r := FindEndpoint(keys, RtpSide(rtcpMedia, src), ssrc);
      if r.Some? { return; }
      if |keys| == 1 {
        assert OfSsrc(streams, ssrc) == {keys[0]};
        return Some(keys[0]);
      }
      return None;
    }

    method FindEndpoint(keys: seq<StreamKey>, ep: Endpoint, ssrc: nat) returns (r: Option<StreamKey>)
      requires forall k :: k in keys ==> k.ssrc == ssrc && k in streams
      ensures r == if StreamKey(ep, ssrc) in keys then Some(StreamKey(ep, ssrc)) else None
    {
      var i := 0;
      while i < |keys|
        invariant 0 <= i <= |keys| && StreamKey(ep, ssrc) !in keys[..i]
      {
        if keys[i].endpoint == ep && keys[i] in streams {
          assert keys[i] in keys && keys[i] == StreamKey(ep, ssrc);
          return Some(keys[i]);
        }
        assert keys[i] in keys;
        i := i + 1;
      }
      return None;
    }

    /** Records an RTCP receiver report and returns the loss since the previous one. */
    method RecordRTCP(ssrc: nat, cumulative: int, src: Endpoint, dst: Endpoint, now: int)
      returns (r: Option<StreamKey>, delta: nat)
      requires Valid()
      modifies this`streams
      ensures Valid()
      ensures r == FlatSelect(old(streams), ssrc, RtpSide(rtcpMedia, src), RtpSide(rtcpMedia, dst))
      ensures r.Some? ==> r.value in old(streams) && Contents() == RecordAt(old(Contents()), r.value, cumulative, now)
      ensures r.None? ==> Contents() == old(Contents())
      ensures delta == if r.Some? then RecordLoss(old(streams)[r.value], cumulative, now).1 else 0
    {
      r := SelectStream(ssrc, src, dst);
      if r.None? { return None, 0; }
      RecordKeeps(Contents(), r.value, cumulative, now);
      var e := streams[r.value].(lastRTCP := Some(now));
      delta := 0;
      if cumulative < 0 {
        if !e.lossSeen { e := e.(lossSeen := true, prevLoss := cumulative); }
      } else {
        if !e.lossSeen {
          e := e.(lossSeen := true);
        } else if cumulative >= e.prevLoss {
          delta := cumulative - e.prevLoss;
        } else {
          delta := cumulative;
        }
        e := e.(prevLoss := cumulative);
      }
      streams := streams[r.value := e];
    }
  }

  lemma MinusOneMore<K, V>(m: map<K, V>, gone: set<K>, key: K)
    ensures m - (gone + {key}) == m - gone - {key}
  {}

  lemma IxNone(ix: SsrcIndex)
    requires forall s :: s in ix ==> ix[s] != []
    ensures IxAfter(ix, {}) == ix
  {
    forall s | s in ix ensures Filter(ix[s], {}) == ix[s] { FilterNone(ix[s]); }
  }

  lemma AliasesDistinct(t: State, c: CallId)
    requires Ok(t)
    ensures Injective(Peers(t.sourceAliases, c))
  {
    if c in t.sourceAliases { DistinctPeers(t.sourceAliases[c], t.callMediaOrder[c], t.mediaAliases, c); }
  }

  lemma DistinctPeers(peers: map<Endpoint, Endpoint>, order: seq<Endpoint>, aliases: Aliases, c: CallId)
    requires CallAliasOk(peers, order, aliases, c)
    ensures Injective(peers)
  {
    assert forall p :: p in peers ==> p in peers.Keys;
  }

  lemma SameStreamsAt(t: State, t': State, k: Endpoint, c: CallId)
    requires t'.streams == t.streams
    ensures StreamsAt(t', k, c) == StreamsAt(t, k, c)
  {}

  lemma RegisterOk(t: State, k: Endpoint, v: Labels)
    requires Ok(t)
    ensures (k in t.mediaAliases ==> t.mediaAliases[k].callID in t.sourceAliases) && Ok(Register(t, k, v))
  {
    RegisterKeeps(t, k, v);
  }

  lemma LearnOk(t: State, c: CallId, matched: Endpoint, source: Endpoint)
    requires Ok(t)
    ensures Learns(t, c, matched, source) ==> Ok(Learn(t, c, matched, source))
  {
    if Learns(t, c, matched, source) { LearnKeeps(t, c, matched, source); }
  }

  lemma ObserveOk(t: State, src: Endpoint, dst: Endpoint, h: Header, arrival: int)
    requires Ok(t)
    ensures Ok(Observe(t, src, dst, h, arrival))
  {
    ObserveKeeps(t, src, dst, h, arrival);
  }

  lemma OrderOwns(t: State, c: CallId)
    requires Ok(t)
    ensures forall k :: k in OrderOf(t.callMediaOrder, c) ==> Owns(t.callMedia, c, k)
  {}
}
