/**
 The state of the media tracker (`Tracker`) and what each of its operations does to it, as functions.
 The class in Tracker.dfy refines them; the invariant `Ok` and its preservation are proved here.
 */
module Tracking {
  import opened Basics
  import opened Ownership
  import Stream

  datatype LabelInfo = LabelInfo(
    carrier: string, uaType: string, sourceCountry: string, direction: string,
    codecs: map<nat, string>, clockRates: map<nat, nat>)

  type Labels = Owned<LabelInfo>

  /** One RTP flow; SSRCs are unique only within a flow. */
  datatype StreamKey = StreamKey(endpoint: Endpoint, ssrc: nat)

  datatype StreamEntry = StreamEntry(
    state: Stream.Counters, labels: Labels, codec: string, clockRate: nat,
    lastRTCP: Option<int>, prevLoss: int, lossSeen: bool)

  type Streams = map<StreamKey, StreamEntry>
  type SsrcIndex = map<nat, seq<StreamKey>>
  type Orders = map<CallId, seq<Endpoint>>
  type Sources = map<CallId, map<Endpoint, Endpoint>>
  type Aliases = Current<LabelInfo>

  datatype State = State(
    streams: Streams, ssrcIndex: SsrcIndex,
    callMedia: ByCall<LabelInfo>, mediaOwners: Owners, media: Current<LabelInfo>, callMediaOrder: Orders,
    sourceAliases: Sources, mediaAliases: Aliases,
    callRTCP: ByCall<Endpoint>, rtcpOwners: Owners, rtcpMedia: Current<Endpoint>,
    callRTP: map<CallId, set<Endpoint>>, rtpObserved: set<CallId>)

  const EMPTY := State(map[], map[], map[], map[], map[], map[], map[], map[], map[], map[], map[], map[], {})

  // ---------------------------------------------------------------- the invariant

  /** The order list of a call enumerates its endpoints. */
  ghost predicate OrderOk(orders: Orders, callMedia: ByCall<LabelInfo>) {
    && orders.Keys == callMedia.Keys
    && (forall c :: c in orders ==> NoDup(orders[c]) && forall k :: k in orders[c] <==> k in callMedia[c])
  }

  /** An alias has the IP of the peer it stands for and another port. */
  predicate IsAliasOf(a: Endpoint, peer: Endpoint) { a.ip == peer.ip && a.port != peer.port }

  /** What holds of the alias that call c has learned for peer p, if any. */
  predicate AliasFor(peers: map<Endpoint, Endpoint>, p: Endpoint, aliases: Aliases, c: CallId) {
    p in peers ==> IsAliasOf(peers[p], p) && peers[p] in aliases && aliases[peers[p]].callID == c
  }

  /** The aliases of call c stand for its first two endpoints, and differ. */
  predicate CallAliasOk(peers: map<Endpoint, Endpoint>, order: seq<Endpoint>, aliases: Aliases, c: CallId) {
    && peers != map[] && |order| >= 2 && order[0] != order[1]
    && peers.Keys <= {order[0], order[1]}
    && AliasFor(peers, order[0], aliases, c) && AliasFor(peers, order[1], aliases, c)
    && (order[0] in peers && order[1] in peers ==> peers[order[0]] != peers[order[1]])
  }

  /** Some peer of call c has alias a. */
  ghost predicate Backed(sources: Sources, c: CallId, a: Endpoint) { c in sources && a in sources[c].Values }

  /** An alias belongs to exactly one call and one peer, which is one of the call's first two endpoints; no alias
      is a media endpoint. */
  ghost predicate AliasOk(sources: Sources, aliases: Aliases, orders: Orders, media: Current<LabelInfo>) {
    && (forall c :: c in sources ==> c in orders && CallAliasOk(sources[c], orders[c], aliases, c))
    && (forall a :: a in aliases ==> Backed(sources, aliases[a].callID, a))
    && aliases.Keys !! media.Keys
  }

  predicate Listed(ix: SsrcIndex, key: StreamKey) { key.ssrc in ix && key in ix[key.ssrc] }

  /** The SSRC index lists each stream under its SSRC exactly once, and nothing else. */
  ghost predicate IxOk(streams: Streams, ix: SsrcIndex) {
    && (forall s :: s in ix ==> ix[s] != [] && NoDup(ix[s]))
    && (forall s, key :: s in ix && key in ix[s] ==> key.ssrc == s)
    && (forall key :: key in streams <==> Listed(ix, key))
  }

  /** A stream is labelled with a call that owns media. */
  ghost predicate CallsOk(streams: Streams, callMedia: ByCall<LabelInfo>) {
    forall key :: key in streams ==> streams[key].labels.callID in callMedia
  }

  ghost predicate Ok(t: State) {
    && IndexOk(t.callMedia, t.mediaOwners, t.media) && OrderOk(t.callMediaOrder, t.callMedia)
    && AliasOk(t.sourceAliases, t.mediaAliases, t.callMediaOrder, t.media)
    && IndexOk(t.callRTCP, t.rtcpOwners, t.rtcpMedia)
    && IxOk(t.streams, t.ssrcIndex) && CallsOk(t.streams, t.callMedia)
  }

  // ---------------------------------------------------------------- dropping streams

  function Filter(keys: seq<StreamKey>, doomed: set<StreamKey>): seq<StreamKey> {
    if keys == [] then [] else (if keys[0] in doomed then [] else [keys[0]]) + Filter(keys[1..], doomed)
  }

  function IxAfter(ix: SsrcIndex, doomed: set<StreamKey>): SsrcIndex {
    map s | s in ix && Filter(ix[s], doomed) != [] :: Filter(ix[s], doomed)
  }

  /** removeSSRCIndex for one stream. */
  function IxWithout(ix: SsrcIndex, key: StreamKey): SsrcIndex {
    if !Listed(ix, key) then ix
    else if |ix[key.ssrc]| == 1 then ix - {key.ssrc}
    else ix[key.ssrc := Without(ix[key.ssrc], key)]
  }

  function DropStreams(t: State, doomed: set<StreamKey>): State {
    t.(streams := t.streams - doomed, ssrcIndex := IxAfter(t.ssrcIndex, doomed))
  }

  lemma {:induction false} FilterMembers(keys: seq<StreamKey>, doomed: set<StreamKey>)
    requires NoDup(keys)
    ensures NoDup(Filter(keys, doomed)) && forall k :: k in Filter(keys, doomed) <==> k in keys && k !in doomed
  {
    if keys != [] {
      FilterMembers(keys[1..], doomed);
      var rest := Filter(keys[1..], doomed);
      assert keys[0] !in keys[1..];
      if keys[0] !in doomed {
        forall i, j | 0 <= i < j < |[keys[0]] + rest| ensures ([keys[0]] + rest)[i] != ([keys[0]] + rest)[j] {
          assert ([keys[0]] + rest)[j] == rest[j - 1] && rest[j - 1] in rest;
          if i > 0 { assert rest[i - 1] != rest[j - 1]; }
        }
      }
    }
  }

  lemma {:induction false} FilterOneMore(keys: seq<StreamKey>, doomed: set<StreamKey>, key: StreamKey)
    requires NoDup(keys)
    ensures Filter(keys, doomed + {key}) == Without(Filter(keys, doomed), key)
  {
    if keys != [] {
      FilterOneMore(keys[1..], doomed, key);
      var rest := Filter(keys[1..], doomed);
      assert keys[0] !in keys[1..];
      assert ([keys[0]] + rest)[1..] == rest;
      if keys[0] == key { FilterSame(keys[1..], doomed, key); }
      if keys[0] in doomed { assert Filter(keys, doomed) == rest; }
    }
  }

  lemma {:induction false} FilterSame(keys: seq<StreamKey>, doomed: set<StreamKey>, key: StreamKey)
    requires key !in keys
    ensures Filter(keys, doomed + {key}) == Filter(keys, doomed)
  {
    if keys != [] { FilterSame(keys[1..], doomed, key); }
  }

  lemma {:induction false} FilterNone(keys: seq<StreamKey>)
    ensures Filter(keys, {}) == keys
  {
    if keys != [] { FilterNone(keys[1..]); }
  }

  /** Removing streams one by one from the index removes them all. */
  lemma IxOneMore(streams: Streams, ix: SsrcIndex, doomed: set<StreamKey>, key: StreamKey)
    requires IxOk(streams, ix) && key in streams && key !in doomed
    ensures IxAfter(ix, doomed + {key}) == IxWithout(IxAfter(ix, doomed), key)
  {
    assert Listed(ix, key);
    var before, after := IxAfter(ix, doomed), IxAfter(ix, doomed + {key});
    FilterMembers(ix[key.ssrc], doomed);
    FilterOneMore(ix[key.ssrc], doomed, key);
    WithoutMembers(before[key.ssrc], key);
    SingletonWithout(before[key.ssrc], key);
    forall s | s in ix && s != key.ssrc ensures Filter(ix[s], doomed + {key}) == Filter(ix[s], doomed) {
      FilterSame(ix[s], doomed, key);
    }
  }

  lemma SingletonWithout(keys: seq<StreamKey>, key: StreamKey)
    requires key in keys
    ensures |keys| == 1 <==> Without(keys, key) == []
  {}

  lemma DropStreamsKeeps(streams: Streams, ix: SsrcIndex, doomed: set<StreamKey>)
    requires IxOk(streams, ix)
    ensures IxOk(streams - doomed, IxAfter(ix, doomed))
  {
    var ix' := IxAfter(ix, doomed);
    forall s | s in ix
      ensures NoDup(Filter(ix[s], doomed)) && forall k :: k in Filter(ix[s], doomed) <==> k in ix[s] && k !in doomed
    {
      FilterMembers(ix[s], doomed);
    }
    forall key ensures key in streams - doomed <==> Listed(ix', key) {
      assert key in streams <==> Listed(ix, key);
    }
  }

  // ---------------------------------------------------------------- aliases and order, map by map

  function OrderOf(orders: Orders, c: CallId): seq<Endpoint> { if c in orders then orders[c] else [] }

  function Peers(sources: Sources, c: CallId): map<Endpoint, Endpoint> { if c in sources then sources[c] else map[] }

  /** The aliases of call c without alias a. */
  function DropAlias(sources: Sources, c: CallId, a: Endpoint): Sources
    requires c in sources
  {
    var rest := OtherPeers(sources[c], a);
    if rest == map[] then sources - {c} else sources[c := rest]
  }

  function AddAlias(sources: Sources, c: CallId, peer: Endpoint, a: Endpoint): Sources {
    sources[c := Peers(sources, c)[peer := a]]
  }

  /** The aliases of a call are its values for its first two endpoints. */
  lemma BackedBy(peers: map<Endpoint, Endpoint>, order: seq<Endpoint>, aliases: Aliases, c: CallId, a: Endpoint)
    requires CallAliasOk(peers, order, aliases, c)
    ensures a in peers.Values <==> (order[0] in peers && peers[order[0]] == a) || (order[1] in peers && peers[order[1]] == a)
    ensures a in peers.Values ==> a in aliases && aliases[a].callID == c
  {
    if a in peers.Values { var p :| p in peers && peers[p] == a; assert p in peers.Keys; }
  }

  function OtherPeers(peers: map<Endpoint, Endpoint>, a: Endpoint): map<Endpoint, Endpoint> {
    map p | p in peers && peers[p] != a :: peers[p]
  }

  lemma DropPeer(peers: map<Endpoint, Endpoint>, order: seq<Endpoint>, aliases: Aliases, c: CallId, a: Endpoint)
    requires CallAliasOk(peers, order, aliases, c) && OtherPeers(peers, a) != map[]
    ensures CallAliasOk(OtherPeers(peers, a), order, aliases - {a}, c)
  {}

  lemma KeepPeers(peers: map<Endpoint, Endpoint>, order: seq<Endpoint>, aliases: Aliases, c: CallId, a: Endpoint)
    requires CallAliasOk(peers, order, aliases, c) && a in aliases && aliases[a].callID != c
    ensures CallAliasOk(peers, order, aliases - {a}, c)
  {}

  lemma OtherPeersBack(peers: map<Endpoint, Endpoint>, a: Endpoint, b: Endpoint)
    requires b in peers.Values && b != a
    ensures b in OtherPeers(peers, a).Values
  {
    var p :| p in peers && peers[p] == b;
    assert p in OtherPeers(peers, a) && OtherPeers(peers, a)[p] == b;
  }

  lemma DisplaceAlias(sources: Sources, aliases: Aliases, orders: Orders, media: Current<LabelInfo>, a: Endpoint)
    requires AliasOk(sources, aliases, orders, media) && a in aliases
    ensures aliases[a].callID in sources
    ensures AliasOk(DropAlias(sources, aliases[a].callID, a), aliases - {a}, orders, media)
  {
    var c := aliases[a].callID;
    assert Backed(sources, c, a);
    var sources' := DropAlias(sources, c, a);
    forall d | d in sources' ensures d in orders && CallAliasOk(sources'[d], orders[d], aliases - {a}, d) {
      if d == c { DropPeer(sources[d], orders[d], aliases, d, a); } else { KeepPeers(sources[d], orders[d], aliases, d, a); }
    }
    forall b | b in aliases - {a} ensures Backed(sources', aliases[b].callID, b) {
      assert Backed(sources, aliases[b].callID, b);
      if aliases[b].callID == c { OtherPeersBack(sources[c], a, b); }
    }
  }

  lemma DropAliasPairs(sources: Sources, aliases: Aliases, orders: Orders, media: Current<LabelInfo>, a: Endpoint)
    requires AliasOk(sources, aliases, orders, media) && a in aliases && aliases[a].callID in sources
    ensures AliasPairs(DropAlias(sources, aliases[a].callID, a)) == AliasPairs(sources) - {(aliases[a].callID, a)}
  {
    DisplaceAlias(sources, aliases, orders, media, a);
    var sources' := DropAlias(sources, aliases[a].callID, a);
    forall x ensures x in AliasPairs(sources') <==> x in AliasPairs(sources) - {(aliases[a].callID, a)} {
      AliasPairIn(sources, aliases, orders, media, x);
      AliasPairIn(sources', aliases - {a}, orders, media, x);
    }
  }

  /** A new media endpoint that is no alias, at the end of its call's order, disturbs no alias. */
  lemma OrderAlias(sources: Sources, aliases: Aliases, orders: Orders, orders': Orders, media: Current<LabelInfo>, k: Endpoint, v: Labels)
    requires AliasOk(sources, aliases, orders, media) && k !in aliases
    requires orders' == orders || orders' == orders[v.callID := OrderOf(orders, v.callID) + [k]]
    ensures AliasOk(sources, aliases, orders', media[k := v])
  {
    forall d | d in sources ensures d in orders' && CallAliasOk(sources[d], orders'[d], aliases, d) {
      assert CallAliasOk(sources[d], orders[d], aliases, d);
    }
  }

  lemma LearnAlias(sources: Sources, aliases: Aliases, orders: Orders, media: Current<LabelInfo>,
                   c: CallId, peer: Endpoint, a: Endpoint, v: Labels)
    requires AliasOk(sources, aliases, orders, media)
    requires c in orders && |orders[c]| >= 2 && orders[c][0] != orders[c][1] && (peer == orders[c][0] || peer == orders[c][1])
    requires IsAliasOf(a, peer) && a !in media && a !in aliases && peer !in Peers(sources, c) && v.callID == c
    ensures AliasOk(AddAlias(sources, c, peer, a), aliases[a := v], orders, media)
  {
    var sources', aliases' := AddAlias(sources, c, peer, a), aliases[a := v];
    assert peer in sources'[c] && sources'[c][peer] == a;
    forall d | d in sources' ensures d in orders && CallAliasOk(sources'[d], orders[d], aliases', d) {
      if d in sources { assert CallAliasOk(sources[d], orders[d], aliases, d); }
    }
    forall b | b in aliases' ensures Backed(sources', aliases'[b].callID, b) {
      if b != a {
        var d := aliases[b].callID;
        assert Backed(sources, d, b);
        var p :| p in sources[d] && sources[d][p] == b;
        assert p in sources'[d] && sources'[d][p] == b;
      }
    }
  }

  lemma RemoveAliases(sources: Sources, aliases: Aliases, orders: Orders, media: Current<LabelInfo>, media': Current<LabelInfo>, c: CallId)
    requires AliasOk(sources, aliases, orders, media) && media'.Keys <= media.Keys
    ensures AliasOk(sources - {c}, aliases - Peers(sources, c).Values, orders - {c}, media')
  {
    var sources', aliases' := sources - {c}, aliases - Peers(sources, c).Values;
    if c in sources {
      forall a ensures a in sources[c].Values ==> a in aliases && aliases[a].callID == c {
        BackedBy(sources[c], orders[c], aliases, c, a);
      }
    }
    forall d | d in sources' ensures d in orders - {c} && CallAliasOk(sources'[d], orders[d], aliases', d) {
      assert CallAliasOk(sources[d], orders[d], aliases, d);
    }
    forall a | a in aliases' ensures Backed(sources', aliases'[a].callID, a) { assert Backed(sources, aliases[a].callID, a); }
  }

  lemma OrderClaim(orders: Orders, callMedia: ByCall<LabelInfo>, k: Endpoint, v: Labels)
    requires OrderOk(orders, callMedia)
    ensures var c := v.callID;
            OrderOk(if Owns(callMedia, c, k) then orders else orders[c := OrderOf(orders, c) + [k]], Claim(callMedia, k, v))
  {
    var c := v.callID;
    var callMedia' := Claim(callMedia, k, v);
    var order := OrderOf(orders, c);
    if c in orders { assert forall x :: x in orders[c] <==> x in callMedia[c]; }
    assert forall x :: x in order + [k] <==> x in order || x == k;
    assert callMedia'.Keys == callMedia.Keys + {c};
  }

  /** Every learned alias as a (call, endpoint) pair. */
  ghost function AliasPairs(sources: Sources): set<(CallId, Endpoint)> {
    set c, p | c in sources && p in sources[c] :: (c, sources[c][p])
  }

  lemma AliasPairHas(sources: Sources, x: (CallId, Endpoint))
    ensures x in AliasPairs(sources) <==> Backed(sources, x.0, x.1)
  {
    if Backed(sources, x.0, x.1) {
      var p :| p in sources[x.0] && sources[x.0][p] == x.1;
    }
  }

  /** The alias pairs are the mediaAliases entries with their calls. */
  lemma AliasPairIn(sources: Sources, aliases: Aliases, orders: Orders, media: Current<LabelInfo>, x: (CallId, Endpoint))
    requires AliasOk(sources, aliases, orders, media)
    ensures x in AliasPairs(sources) <==> x.1 in aliases && aliases[x.1].callID == x.0
  {
    AliasPairHas(sources, x);
    if x.0 in sources { BackedBy(sources[x.0], orders[x.0], aliases, x.0, x.1); }
  }

  /** An alias belongs to one call only. */
  lemma AliasAtMostOnce(sources: Sources, aliases: Aliases, orders: Orders, media: Current<LabelInfo>, k: Endpoint)
    requires AliasOk(sources, aliases, orders, media)
    ensures Count(AliasPairs(sources), k) == if k in aliases then 1 else 0
  {
    var pairs := AliasPairs(sources);
    forall x ensures x in pairs <==> x.1 in aliases && aliases[x.1].callID == x.0 {
      AliasPairIn(sources, aliases, orders, media, x);
    }
    OneHolder(pairs, aliases, k);
  }

  lemma OneHolder(pairs: set<(CallId, Endpoint)>, aliases: Aliases, k: Endpoint)
    requires forall x :: x in pairs <==> x.1 in aliases && aliases[x.1].callID == x.0
    ensures Count(pairs, k) == if k in aliases then 1 else 0
  {
    var holders := set x | x in pairs && x.1 == k;
    assert holders == if k in aliases then {(aliases[k].callID, k)} else {};
  }

  /** A call has at most two aliases. */
  lemma AtMostTwoAliases(sources: Sources, aliases: Aliases, orders: Orders, media: Current<LabelInfo>, c: CallId)
    requires AliasOk(sources, aliases, orders, media)
    ensures |Peers(sources, c)| <= 2
  {
    if c in sources {
      assert CallAliasOk(sources[c], orders[c], aliases, c);
      SubsetSize(sources[c].Keys, {orders[c][0], orders[c][1]});
      assert |sources[c]| == |sources[c].Keys|;
    }
  }

  lemma {:induction false} SubsetSize(a: set<Endpoint>, b: set<Endpoint>)
    requires a <= b
    ensures |a| <= |b|
  {
    if a != {} {
      var x :| x in a;
      SubsetSize(a - {x}, b - {x});
    }
  }
}
