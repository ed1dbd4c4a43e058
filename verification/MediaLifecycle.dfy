/**
 Media endpoints over the life of a call: the tracker's ownership index, the reference counts that mirror it into the
 kernel, and the labels under which learned aliases are reported, changed together.
 */
module MediaLifecycle {
  import opened Basics
  import opened EndpointRefs
  import opened Ownership
  import opened Tracking
  import opened TrackerClass
  import opened TrackerOps

  const MAX_UDP_PORT := 65535

  /** One media line of a session description. */
  datatype Media = Media(
    endpoint: Endpoint, rtcpPort: nat, rtcpAddr: Option<nat>, rtcpMux: bool, srtp: bool,
    codecs: map<nat, string>, clockRates: map<nat, nat>)

  /** resolveRTCEndpoint: the declared RTCP endpoint, none under rtcp-mux, else the next port. */
  function ResolveRtcp(m: Media): (r: Option<Endpoint>)
    ensures r.None? <==> m.rtcpPort == 0 && (m.rtcpMux || m.endpoint.port >= 65535)
    ensures r.Some? ==> r.value.port == (if m.rtcpPort != 0 then m.rtcpPort else m.endpoint.port + 1)
    ensures r.Some? ==> (r.value.ip == m.endpoint.ip || (m.rtcpPort != 0 && m.rtcpAddr == Some(r.value.ip)))
    ensures m.rtcpPort != 0 && m.rtcpAddr.Some? ==> r.Some? && r.value.ip == m.rtcpAddr.value
  {
    if m.rtcpPort != 0 then Some(Endpoint(if m.rtcpAddr.Some? then m.rtcpAddr.value else m.endpoint.ip, m.rtcpPort))
    else if m.rtcpMux then None
    else if m.endpoint.port < MAX_UDP_PORT then Some(Endpoint(m.endpoint.ip, m.endpoint.port + 1))
    else None
  }

  function MediaPairs(c: CallId, ms: seq<Media>): set<(CallId, Endpoint)> { set m | m in ms :: (c, m.endpoint) }

  function RtcpPairs(c: CallId, ms: seq<Media>): set<(CallId, Endpoint)> {
    set m | m in ms && ResolveRtcp(m).Some? :: (c, ResolveRtcp(m).value)
  }

  ghost function Unclaimed(aliases: set<(CallId, Endpoint)>, ms: seq<Media>): set<(CallId, Endpoint)> {
    set p | p in aliases && forall m :: m in ms ==> m.endpoint != p.1
  }

  /** The view once call c has registered the media lines ms: c owns their endpoints, and nobody has one of their media
      endpoints as an alias. */
  ghost function Registered(w: View, c: CallId, ms: seq<Media>): View {
    View(w.media + MediaPairs(c, ms), w.rtcp + RtcpPairs(c, ms), Unclaimed(w.aliases, ms))
  }

  ghost function Dropped(w: View, c: CallId): View { View(OtherCalls(w.media, c), OtherCalls(w.rtcp, c), OtherCalls(w.aliases, c)) }

  /** How often an endpoint is owned: by each call as media, by each call as RTCP, and as an alias. */
  ghost function OwnerCount(w: View, k: Endpoint): nat { Count(w.media, k) + Count(w.rtcp, k) + Count(w.aliases, k) }

  /** Every endpoint is referenced as often as it is owned, plus what is still owed. */
  ghost predicate Balanced(w: View, refs: Refs, debt: multiset<Endpoint>) {
    forall k :: RefCount(refs, k) == OwnerCount(w, k) + debt[k]
  }

  /** References and alias labels agree with the ownership index. */
  ghost predicate Agreement(w: View, refs: Refs, labels: AliasLabels) {
    Balanced(w, refs, multiset{}) && labels.Keys == w.aliases
  }

  type AliasLabels = map<(CallId, Endpoint), (string, string)>

  // ---------------------------------------------------------------- balance, step by step

  ghost function Elsewhere(pairs: set<(CallId, Endpoint)>, k: Endpoint): set<(CallId, Endpoint)> { set p | p in pairs && p.1 != k }

  ghost function EntersMedia(w: View, c: CallId, k: Endpoint): View {
    w.(media := w.media + {(c, k)}, aliases := Elsewhere(w.aliases, k))
  }

  lemma CountElsewhere(pairs: set<(CallId, Endpoint)>, k: Endpoint, j: Endpoint)
    ensures Count(Elsewhere(pairs, k), j) == if j == k then 0 else Count(pairs, j)
  {
    var rest := Elsewhere(pairs, k);
    if j == k {
      assert (set p | p in rest && p.1 == j) == {};
    } else {
      assert (set p | p in rest && p.1 == j) == set p | p in pairs && p.1 == j;
    }
  }

  lemma EntersMediaOwners(w: View, c: CallId, k: Endpoint, j: Endpoint)
    ensures OwnerCount(EntersMedia(w, c, k), j)
            == OwnerCount(w, j) + (if j == k && (c, k) !in w.media then 1 else 0) - (if j == k then Count(w.aliases, k) else 0)
  {
    CountAdd(w.media, c, k, j);
    CountElsewhere(w.aliases, k, j);
  }

  function RefsAfterMedia(refs: Refs, k: Endpoint, added: bool, displaced: bool): Refs {
    var refs1 := if added then Retained(refs, k) else refs;
    if displaced then Released(refs1, k) else refs1
  }

  lemma BalanceMedia(w: View, refs: Refs, debt: multiset<Endpoint>, c: CallId, k: Endpoint, added: bool, displaced: bool)
    requires Balanced(w, refs, debt) && (added <==> (c, k) !in w.media) && (displaced ==> added)
    requires Count(w.aliases, k) == if displaced then 1 else 0
    ensures Balanced(EntersMedia(w, c, k), RefsAfterMedia(refs, k, added, displaced), debt)
    ensures displaced ==> k in refs
  {
    var refs' := RefsAfterMedia(refs, k, added, displaced);
    assert RefCount(refs, k) == OwnerCount(w, k) + debt[k];
    forall j ensures RefCount(refs', j) == OwnerCount(EntersMedia(w, c, k), j) + debt[j] {
      EntersMediaOwners(w, c, k, j);
      assert RefCount(refs, j) == OwnerCount(w, j) + debt[j];
    }
  }

  lemma BalanceRtcp(w: View, refs: Refs, debt: multiset<Endpoint>, c: CallId, k: Endpoint)
    requires Balanced(w, refs, debt)
    ensures Balanced(w.(rtcp := w.rtcp + {(c, k)}), if (c, k) in w.rtcp then refs else Retained(refs, k), debt)
  {
    var w', refs' := w.(rtcp := w.rtcp + {(c, k)}), if (c, k) in w.rtcp then refs else Retained(refs, k);
    forall j ensures RefCount(refs', j) == OwnerCount(w', j) + debt[j] {
      CountAdd(w.rtcp, c, k, j);
      assert RefCount(refs, j) == OwnerCount(w, j) + debt[j];
    }
  }

  lemma BalanceAlias(w: View, refs: Refs, c: CallId, k: Endpoint)
    requires Balanced(w, refs, multiset{}) && (c, k) !in w.aliases
    ensures Balanced(w.(aliases := w.aliases + {(c, k)}), Retained(refs, k), multiset{})
  {
    var w' := w.(aliases := w.aliases + {(c, k)});
    forall j ensures RefCount(Retained(refs, k), j) == OwnerCount(w', j) {
      CountAdd(w.aliases, c, k, j);
      assert RefCount(refs, j) == OwnerCount(w, j) + multiset{}[j];
    }
  }

  lemma HoldingsIn(t: State, c: CallId, k: Endpoint)
    ensures (c, k) in Pairs(t.callMedia) <==> k in Claims(t.callMedia, c).Keys
    ensures (c, k) in Pairs(t.callRTCP) <==> k in Claims(t.callRTCP, c).Keys
    ensures (c, k) in AliasPairs(t.sourceAliases) <==> k in Peers(t.sourceAliases, c).Values
  {
    AliasPairHas(t.sourceAliases, (c, k));
  }

  /** What a call holds is exactly what its removal takes off the owners. */
  lemma HoldingsCount(t: State, c: CallId, k: Endpoint)
    ensures OwnerCount(ViewOf(t), k) == OwnerCount(Dropped(ViewOf(t), c), k) + Holdings(t, c)[k]
  {
    var w := ViewOf(t);
    HoldingsIn(t, c, k);
    CountRemove(w.media, c, k);
    CountRemove(w.rtcp, c, k);
    CountRemove(w.aliases, c, k);
  }

  lemma BalanceDrop(t: State, c: CallId, refs: Refs, debt: multiset<Endpoint>)
    requires Balanced(ViewOf(t), refs, debt)
    ensures Balanced(Dropped(ViewOf(t), c), refs, Holdings(t, c) + debt)
  {
    forall k ensures RefCount(refs, k) == OwnerCount(Dropped(ViewOf(t), c), k) + (Holdings(t, c) + debt)[k] {
      HoldingsCount(t, c, k);
      assert RefCount(refs, k) == OwnerCount(ViewOf(t), k) + debt[k];
    }
  }

  lemma BalanceRetain(w: View, refs: Refs, refs': Refs, debt: multiset<Endpoint>, more: multiset<Endpoint>)
    requires Balanced(w, refs, debt) && forall k :: RefCount(refs', k) == RefCount(refs, k) + more[k]
    ensures Balanced(w, refs', debt + more)
  {
    forall k ensures RefCount(refs', k) == OwnerCount(w, k) + (debt + more)[k] {
      assert RefCount(refs, k) == OwnerCount(w, k) + debt[k];
    }
  }

  lemma BalanceRelease(w: View, refs: Refs, refs': Refs, debt: multiset<Endpoint>, less: multiset<Endpoint>)
    requires Balanced(w, refs, debt + less) && forall k :: RefCount(refs', k) == RefCount(refs, k) - less[k]
    ensures Balanced(w, refs', debt)
  {
    forall k ensures RefCount(refs', k) == OwnerCount(w, k) + debt[k] {
      assert RefCount(refs, k) == OwnerCount(w, k) + (debt + less)[k];
    }
  }

  lemma Owed(w: View, refs: Refs, debt: multiset<Endpoint>, less: multiset<Endpoint>)
    requires Balanced(w, refs, debt + less)
    ensures forall k :: less[k] <= RefCount(refs, k)
  {
    forall k ensures less[k] <= RefCount(refs, k) { assert RefCount(refs, k) == OwnerCount(w, k) + (debt + less)[k]; }
  }

  // ---------------------------------------------------------------- main results on views

  lemma BalancedSame(w: View, refs: Refs, refs': Refs, debt: multiset<Endpoint>)
    requires Balanced(w, refs, debt) && Balanced(w, refs', debt) && Positive(refs) && Positive(refs')
    ensures refs == refs'
  {
    forall k ensures (k in refs <==> k in refs') && RefCount(refs, k) == RefCount(refs', k) {
      assert RefCount(refs, k) == OwnerCount(w, k) + debt[k];
      assert RefCount(refs', k) == OwnerCount(w, k) + debt[k];
    }
    forall k | k in refs ensures refs[k] == refs'[k] { assert RefCount(refs, k) == RefCount(refs', k); }
  }

  /** References are determined by who owns what, so any two ways to the same ownership end in the same counts: in
      particular replacing a revision and unregistering before registering anew. */
  lemma CountsDetermined(w: View, refs: Refs, refs': Refs, labels: AliasLabels, labels': AliasLabels)
    requires Agreement(w, refs, labels) && Agreement(w, refs', labels') && Positive(refs) && Positive(refs')
    ensures refs == refs'
  {
    BalancedSame(w, refs, refs', multiset{});
  }

  /** A referenced endpoint is exactly one that is media, RTCP endpoint or alias of some call. */
  lemma ReferencedIffOwned(w: View, refs: Refs, labels: AliasLabels, k: Endpoint)
    requires Agreement(w, refs, labels) && Positive(refs)
    ensures k in refs <==> exists c :: (c, k) in w.media || (c, k) in w.rtcp || (c, k) in w.aliases
  {
    assert RefCount(refs, k) == OwnerCount(w, k) + multiset{}[k];
    SomeOwner(w.media, k);
    SomeOwner(w.rtcp, k);
    SomeOwner(w.aliases, k);
  }

  lemma SomeOwner(pairs: set<(CallId, Endpoint)>, k: Endpoint)
    ensures Count(pairs, k) > 0 <==> exists c :: (c, k) in pairs
  {
    var holders := set p | p in pairs && p.1 == k;
    if c :| (c, k) in pairs { assert (c, k) in holders; }
    if holders != {} { var p :| p in holders; assert (p.0, k) in pairs; }
  }

  /** Registering the same session description again changes nobody's ownership. */
  lemma RegisterAgain(w: View, c: CallId, ms: seq<Media>)
    ensures Registered(Registered(w, c, ms), c, ms) == Registered(w, c, ms)
  {}

  lemma RegisterInTurn(w: View, c: CallId, first: seq<Media>, second: seq<Media>)
    ensures Registered(Registered(w, c, first), c, second) == Registered(w, c, first + second)
  {
    assert forall m :: m in first + second <==> m in first || m in second;
    assert MediaPairs(c, first + second) == MediaPairs(c, first) + MediaPairs(c, second);
    assert RtcpPairs(c, first + second) == RtcpPairs(c, first) + RtcpPairs(c, second);
  }

  /** A revision that repeats the description in force changes nobody's ownership. */
  lemma SameRevision(w: View, c: CallId, ms: seq<Media>)
    ensures var v := Registered(Dropped(w, c), c, ms); Registered(Dropped(v, c), c, ms) == v
  {
    var v := Registered(Dropped(w, c), c, ms);
    assert OtherCalls(v.media, c) == OtherCalls(w.media, c);
    assert OtherCalls(v.rtcp, c) == OtherCalls(w.rtcp, c);
    assert OtherCalls(v.aliases, c) == v.aliases;
    assert Unclaimed(v.aliases, ms) == v.aliases;
  }

  /** Between two states of the counts, the kernel was written to for first references and for last ones going, and for
      nothing else: no key that is referenced in both has been written. */
  ghost predicate NoGap(log: seq<Flip>, refs: Refs, log': seq<Flip>, refs': Refs) {
    log <= log' && forall i :: |log| <= i < |log'| ==>
      if log'[i].present then log'[i].key !in refs && log'[i].key in refs' else log'[i].key in refs && log'[i].key !in refs'
  }

  /** Writes to keys come and go with references: where the keys are the same, there were none. */
  lemma NoGapSameKeys(log: seq<Flip>, refs: Refs, log': seq<Flip>, refs': Refs)
    requires NoGap(log, refs, log', refs') && refs.Keys == refs'.Keys
    ensures log' == log
  {
    if |log'| > |log| { NoGapNewKey(log, refs, log', refs'); }
  }

  lemma NoGapNewKey(log: seq<Flip>, refs: Refs, log': seq<Flip>, refs': Refs)
    requires NoGap(log, refs, log', refs') && |log'| > |log|
    ensures refs.Keys != refs'.Keys
  {
    var key := log'[|log|].key;
    assert key in refs <==> key !in refs';
  }

  // ---------------------------------------------------------------- what the tracker's operations do to the view

  lemma RegisterView(t: State, k: Endpoint, v: Labels)
    requires Ok(t)
    ensures (k in t.mediaAliases ==> t.mediaAliases[k].callID in t.sourceAliases)
    ensures ViewOf(Register(t, k, v)) == EntersMedia(ViewOf(t), v.callID, k)
    ensures Owns(t.callMedia, v.callID, k) <==> (v.callID, k) in ViewOf(t).media
    ensures k in t.mediaAliases ==> (v.callID, k) !in ViewOf(t).media && Elsewhere(ViewOf(t).aliases, k) == ViewOf(t).aliases - {(t.mediaAliases[k].callID, k)}
    ensures k !in t.mediaAliases ==> Elsewhere(ViewOf(t).aliases, k) == ViewOf(t).aliases
    ensures Count(ViewOf(t).aliases, k) == if k in t.mediaAliases then 1 else 0
  {
    RegisterKeeps(t, k, v);
    AliasAtMostOnce(t.sourceAliases, t.mediaAliases, t.callMediaOrder, t.media, k);
    AliasElsewhere(t, k);
  }

  function DisplacedBy(t: State, k: Endpoint): Option<CallId> {
    if k in t.mediaAliases then Some(t.mediaAliases[k].callID) else None
  }

  /** Registering a media endpoint and counting it keeps the balance. */
  lemma RegisterBalance(t: State, k: Endpoint, v: Labels, refs: Refs, debt: multiset<Endpoint>, added: bool, displaced: Option<CallId>)
    requires Ok(t) && Balanced(ViewOf(t), refs, debt)
    requires (added <==> !Owns(t.callMedia, v.callID, k)) && displaced == DisplacedBy(t, k)
    ensures displaced.Some? ==> added && k in refs
    ensures Balanced(EntersMedia(ViewOf(t), v.callID, k), RefsAfterMedia(refs, k, added, displaced.Some?), debt)
  {
    RegisterView(t, k, v);
    BalanceMedia(ViewOf(t), refs, debt, v.callID, k, added, displaced.Some?);
  }

  lemma RegisterLabels(t: State, k: Endpoint, labels: AliasLabels, displaced: Option<CallId>)
    requires Ok(t) && labels.Keys == ViewOf(t).aliases && displaced == DisplacedBy(t, k)
    ensures (labels - if displaced.Some? then {(displaced.value, k)} else {}).Keys == Elsewhere(ViewOf(t).aliases, k)
  {
    AliasElsewhere(t, k);
    KeysMinus(labels, if displaced.Some? then {(displaced.value, k)} else {});
  }

  lemma KeysMinus<K, V>(m: map<K, V>, s: set<K>)
    ensures (m - s).Keys == m.Keys - s
  {}

  lemma AliasElsewhere(t: State, k: Endpoint)
    requires Ok(t)
    ensures Elsewhere(AliasPairs(t.sourceAliases), k)
            == AliasPairs(t.sourceAliases) - if k in t.mediaAliases then {(t.mediaAliases[k].callID, k)} else {}
  {
    forall p ensures p in AliasPairs(t.sourceAliases) <==> p.1 in t.mediaAliases && t.mediaAliases[p.1].callID == p.0 {
      AliasPairIn(t.sourceAliases, t.mediaAliases, t.callMediaOrder, t.media, p);
    }
    OneElsewhere(AliasPairs(t.sourceAliases), t.mediaAliases, k);
  }

  lemma OneElsewhere(pairs: set<(CallId, Endpoint)>, aliases: Aliases, k: Endpoint)
    requires forall p :: p in pairs <==> p.1 in aliases && aliases[p.1].callID == p.0
    ensures Elsewhere(pairs, k) == pairs - if k in aliases then {(aliases[k].callID, k)} else {}
  {}

  lemma RtcpView(t: State, k: Endpoint, v: Owned<Endpoint>)
    requires Ok(t)
    ensures ViewOf(RegisterRtcp(t, k, v)) == ViewOf(t).(rtcp := ViewOf(t).rtcp + {(v.callID, k)})
    ensures Owns(t.callRTCP, v.callID, k) <==> (v.callID, k) in ViewOf(t).rtcp
  {
    RegisterRtcpKeeps(t, k, v);
  }

  lemma RegisteredOne(w: View, c: CallId, m: Media)
    ensures var w1, r := EntersMedia(w, c, m.endpoint), ResolveRtcp(m);
            Registered(w, c, [m]) == if r.Some? then w1.(rtcp := w1.rtcp + {(c, r.value)}) else w1
  {
    assert m in [m];
    assert Unclaimed(w.aliases, [m]) == Elsewhere(w.aliases, m.endpoint);
    assert MediaPairs(c, [m]) == {(c, m.endpoint)};
    assert RtcpPairs(c, [m]) == if ResolveRtcp(m).Some? then {(c, ResolveRtcp(m).value)} else {};
  }

  lemma RegisteredNone(w: View, c: CallId)
    ensures Registered(w, c, []) == w
  {}

  lemma DropView(t: State, c: CallId)
    requires Ok(t)
    ensures ViewOf(RemoveCall(t, c)) == Dropped(ViewOf(t), c)
    ensures ViewOf(RemoveCall(t, c).(rtpObserved := t.rtpObserved - {c})) == Dropped(ViewOf(t), c)
  {
    RemoveCallKeeps(t, c);
  }

  ghost function AliasKeys(c: CallId, ks: seq<Endpoint>): set<(CallId, Endpoint)> { set k | k in ks :: (c, k) }

  /** The labels of the deleted endpoints are those of all aliases of the call. */
  lemma LabelsAfter(t: State, c: CallId, deleted: seq<Endpoint>)
    requires multiset(deleted) == Holdings(t, c)
    ensures ViewOf(t).aliases - AliasKeys(c, deleted) == OtherCalls(ViewOf(t).aliases, c)
  {
    forall p | p in ViewOf(t).aliases && p.0 == c ensures p in AliasKeys(c, deleted) {
      HoldingsIn(t, c, p.1);
      assert p.1 in Holdings(t, c);
      assert p.1 in multiset(deleted);
    }
  }

  /** No line behind line i names the same endpoint. */
  ghost predicate LastAt(ms: seq<Media>, i: nat) { i < |ms| && forall j :: i < j < |ms| ==> ms[j].endpoint != ms[i].endpoint }

  /** No line behind line i has the same RTCP endpoint. */
  ghost predicate LastRtcpAt(ms: seq<Media>, i: nat) {
    i < |ms| && ResolveRtcp(ms[i]).Some? && forall j :: i < j < |ms| ==> ResolveRtcp(ms[j]) != ResolveRtcp(ms[i])
  }

  /** Each endpoint the lines name has the labels of the call with the codecs and clock rates of its line. */
  ghost predicate Labelled(media: Current<LabelInfo>, ms: seq<Media>, v: Labels) {
    forall i: nat :: LastAt(ms, i) ==>
      && ms[i].endpoint in media
      && media[ms[i].endpoint] == Owned(v.callID, LabelInfo(v.info.carrier, v.info.uaType, v.info.sourceCountry, v.info.direction,
                                                            ms[i].codecs, ms[i].clockRates))
  }

  /** Each RTCP endpoint of the lines stands for the media endpoint of its line. */
  ghost predicate Linked(rtcpMedia: Current<Endpoint>, ms: seq<Media>, c: CallId) {
    forall i: nat :: LastRtcpAt(ms, i) ==> ResolveRtcp(ms[i]).value in rtcpMedia && rtcpMedia[ResolveRtcp(ms[i]).value] == Owned(c, ms[i].endpoint)
  }

  function LineLabels(v: Labels, m: Media): Labels { Owned(v.callID, v.info.(codecs := m.codecs, clockRates := m.clockRates)) }

  /** Current labels once the lines have been registered in turn. */
  function MediaAfter(media: Current<LabelInfo>, ms: seq<Media>, v: Labels): Current<LabelInfo> {
    if ms == [] then media
    else MediaAfter(media, ms[..|ms| - 1], v)[ms[|ms| - 1].endpoint := LineLabels(v, ms[|ms| - 1])]
  }

  /** ... and current RTCP links. */
  function RtcpAfter(rtcpMedia: Current<Endpoint>, ms: seq<Media>, c: CallId): Current<Endpoint> {
    if ms == [] then rtcpMedia
    else
      var before, m := RtcpAfter(rtcpMedia, ms[..|ms| - 1], c), ms[|ms| - 1];
      if ResolveRtcp(m).Some? then before[ResolveRtcp(m).value := Owned(c, m.endpoint)] else before
  }

  /** The lines have been registered in turn. */
  ghost predicate Entered(media: Current<LabelInfo>, rtcpMedia: Current<Endpoint>, ms: seq<Media>, v: Labels,
                          media': Current<LabelInfo>, rtcpMedia': Current<Endpoint>)
  {
    media' == MediaAfter(media, ms, v) && rtcpMedia' == RtcpAfter(rtcpMedia, ms, v.callID)
  }

  lemma EnteredOne(media: Current<LabelInfo>, rtcpMedia: Current<Endpoint>, m: Media, v: Labels)
    ensures Entered(media, rtcpMedia, [m], v, media[m.endpoint := LineLabels(v, m)],
                    if ResolveRtcp(m).Some? then rtcpMedia[ResolveRtcp(m).value := Owned(v.callID, m.endpoint)] else rtcpMedia)
  {
    assert [m][..0] == [];
  }

  lemma EnteredNext(media: Current<LabelInfo>, rtcpMedia: Current<Endpoint>, ms: seq<Media>, i: nat, v: Labels,
                    media1: Current<LabelInfo>, rtcpMedia1: Current<Endpoint>, media2: Current<LabelInfo>, rtcpMedia2: Current<Endpoint>)
    requires i < |ms| && Entered(media, rtcpMedia, ms[..i], v, media1, rtcpMedia1) && Entered(media1, rtcpMedia1, [ms[i]], v, media2, rtcpMedia2)
    ensures Entered(media, rtcpMedia, ms[..i + 1], v, media2, rtcpMedia2)
  {
    AfterInTurn(media, rtcpMedia, ms[..i], [ms[i]], v);
    assert ms[..i + 1] == ms[..i] + [ms[i]];
  }

  lemma {:induction false} AfterInTurn(media: Current<LabelInfo>, rtcpMedia: Current<Endpoint>, a: seq<Media>, b: seq<Media>, v: Labels)
    ensures MediaAfter(MediaAfter(media, a, v), b, v) == MediaAfter(media, a + b, v)
    ensures RtcpAfter(RtcpAfter(rtcpMedia, a, v.callID), b, v.callID) == RtcpAfter(rtcpMedia, a + b, v.callID)
  {
    if b == [] {
      assert a + b == a;
    } else {
      AfterInTurn(media, rtcpMedia, a, b[..|b| - 1], v);
      assert (a + b)[..|a + b| - 1] == a + b[..|b| - 1];
    }
  }

  /** After that, each endpoint the lines name is labelled with its own line. */
  lemma {:induction false} LinesLabel(media: Current<LabelInfo>, ms: seq<Media>, v: Labels)
    ensures Labelled(MediaAfter(media, ms, v), ms, v)
  {
    if ms != [] {
      var init, m := ms[..|ms| - 1], ms[|ms| - 1];
      LinesLabel(media, init, v);
      forall i: nat | LastAt(ms, i) && i < |init| ensures LastAt(init, i) && init[i].endpoint != m.endpoint {
        assert ms[|init|] == m;
        forall j | i < j < |init| ensures init[j].endpoint != init[i].endpoint { assert ms[j] == init[j]; }
      }
    }
  }

  /** ... and each RTCP endpoint stands for the media endpoint of its own line. */
  lemma {:induction false} LinesLink(rtcpMedia: Current<Endpoint>, ms: seq<Media>, c: CallId)
    ensures Linked(RtcpAfter(rtcpMedia, ms, c), ms, c)
  {
    if ms != [] {
      var init, m := ms[..|ms| - 1], ms[|ms| - 1];
      LinesLink(rtcpMedia, init, c);
      forall i: nat | LastRtcpAt(ms, i) && i < |init| ensures LastRtcpAt(init, i) && ResolveRtcp(init[i]) != ResolveRtcp(m) {
        assert ms[|init|] == m;
        forall j | i < j < |init| ensures ResolveRtcp(init[j]) != ResolveRtcp(init[i]) { assert ms[j] == init[j]; }
      }
    }
  }

  /** `found` and `srtp` are what the first n lines name and whether one of them carries SRTP. */
  ghost predicate Read(ms: seq<Media>, n: nat, found: seq<Endpoint>, srtp: bool) {
    && n <= |ms| && |found| == n && (forall i :: 0 <= i < n ==> found[i] == ms[i].endpoint)
    && (srtp <==> exists i :: 0 <= i < n && ms[i].srtp)
  }

  lemma ReadNext(ms: seq<Media>, n: nat, found: seq<Endpoint>, srtp: bool)
    requires n < |ms| && Read(ms, n, found, srtp)
    ensures Read(ms, n + 1, found + [ms[n].endpoint], srtp || ms[n].srtp)
  {}

  lemma RegisteredNext(w0: View, c: CallId, ms: seq<Media>, i: nat, w: View)
    requires i < |ms| && w == Registered(w0, c, ms[..i])
    ensures Registered(w, c, [ms[i]]) == Registered(w0, c, ms[..i + 1])
  {
    RegisterInTurn(w0, c, ms[..i], [ms[i]]);
    assert ms[..i + 1] == ms[..i] + [ms[i]];
  }

  function DropTurns(labels: AliasLabels, c: CallId, ks: seq<Endpoint>): AliasLabels {
    if ks == [] then labels else DropTurns(labels, c, ks[..|ks| - 1]) - {(c, ks[|ks| - 1])}
  }

  lemma {:induction false} DropTurnsAll(labels: AliasLabels, c: CallId, ks: seq<Endpoint>)
    ensures DropTurns(labels, c, ks) == labels - AliasKeys(c, ks)
  {
    if ks == [] {
      assert AliasKeys(c, ks) == {};
      MinusNone(labels);
    } else {
      var rest, k := ks[..|ks| - 1], ks[|ks| - 1];
      DropTurnsAll(labels, c, rest);
      assert ks == rest + [k];
      assert AliasKeys(c, ks) == AliasKeys(c, rest) + {(c, k)};
      MinusTwice(labels, AliasKeys(c, rest), {(c, k)});
    }
  }

  lemma DropStep(labels: AliasLabels, c: CallId, ks: seq<Endpoint>, i: nat)
    requires i < |ks|
    ensures DropTurns(labels, c, ks[..i + 1]) == DropTurns(labels, c, ks[..i]) - {(c, ks[i])}
  {
    assert ks[..i + 1][..i] == ks[..i];
  }

  lemma MinusNone<K, V>(m: map<K, V>)
    ensures m - {} == m
  {}

  lemma MinusTwice<K, V>(m: map<K, V>, a: set<K>, b: set<K>)
    ensures m - a - b == m - (a + b)
  {}

  ghost function OfCall(pairs: set<(CallId, Endpoint)>, c: CallId): set<(CallId, Endpoint)> { set p | p in pairs && p.0 == c }

  /** The deleted endpoints of a call that have a label are all its aliases. */
  lemma CollectedOfCall(t: State, c: CallId, deleted: seq<Endpoint>, labels: AliasLabels, gone: seq<(CallId, Endpoint)>, released: seq<(string, string)>)
    requires multiset(deleted) == Holdings(t, c) && labels.Keys == ViewOf(t).aliases
    requires Collected(labels, AliasKeys(c, deleted), gone, released)
    ensures Collected(labels, OfCall(ViewOf(t).aliases, c), gone, released)
  {
    forall p | p in labels ensures p in AliasKeys(c, deleted) <==> p in OfCall(ViewOf(t).aliases, c) {
      if p.0 == c {
        HoldingsIn(t, c, p.1);
        assert p.1 in Holdings(t, c);
        assert p.1 in multiset(deleted);
      }
    }
  }

  lemma KeysPut<K, V>(m: map<K, V>, key: K, value: V)
    ensures m[key := value].Keys == m.Keys + {key}
  {}

  /** `released` holds the labels of the keys in `gone`, which are those of `keys` that have a label, each once. */
  ghost predicate Collected(labels: AliasLabels, keys: set<(CallId, Endpoint)>, gone: seq<(CallId, Endpoint)>, released: seq<(string, string)>) {
    && NoDup(gone) && |gone| == |released| && (forall p :: p in gone <==> p in labels && p in keys)
    && (forall i :: 0 <= i < |gone| ==> gone[i] in labels && released[i] == labels[gone[i]])
  }

  lemma CollectOne(labels: AliasLabels, keys: set<(CallId, Endpoint)>, gone: seq<(CallId, Endpoint)>, released: seq<(string, string)>, key: (CallId, Endpoint))
    requires Collected(labels, keys, gone, released)
    ensures if key in labels && key !in keys then Collected(labels, keys + {key}, gone + [key], released + [labels[key]])
            else Collected(labels, keys + {key}, gone, released)
  {
    if key in labels && key !in keys {
      var gone' := gone + [key];
      assert forall p :: p in gone' <==> p in gone || p == key;
    }
  }

  /** The loop of releaseRTPAliases. */
  method DropLabels(labels: AliasLabels, callID: CallId, keys: seq<Endpoint>)
    returns (rest: AliasLabels, released: seq<(string, string)>, ghost gone: seq<(CallId, Endpoint)>)
    ensures rest == labels - AliasKeys(callID, keys) && Collected(labels, AliasKeys(callID, keys), gone, released)
  {
    rest, released, gone := labels, [], [];
    var i := 0;
    while i < |keys|
      invariant 0 <= i <= |keys| && rest == DropTurns(labels, callID, keys[..i])
      invariant Collected(labels, AliasKeys(callID, keys[..i]), gone, released)
    {
      var key := (callID, keys[i]);
      DropStep(labels, callID, keys, i);
      KeyLeft(labels, callID, keys[..i], rest, key);
      CollectOne(labels, AliasKeys(callID, keys[..i]), gone, released, key);
      AliasKeysNext(callID, keys, i);
      if key in rest { released, gone := released + [rest[key]], gone + [key]; }
      rest := rest - {key};
      i := i + 1;
    }
    assert keys[..i] == keys;
    DropTurnsAll(labels, callID, keys);
  }

  lemma KeyLeft(labels: AliasLabels, c: CallId, ks: seq<Endpoint>, rest: AliasLabels, key: (CallId, Endpoint))
    requires rest == DropTurns(labels, c, ks)
    ensures key in rest <==> key in labels && key !in AliasKeys(c, ks)
    ensures key in rest ==> rest[key] == labels[key]
  {
    DropTurnsAll(labels, c, ks);
  }

  lemma AliasKeysNext(c: CallId, ks: seq<Endpoint>, i: nat)
    requires i < |ks|
    ensures AliasKeys(c, ks[..i + 1]) == AliasKeys(c, ks[..i]) + {(c, ks[i])}
  {
    assert ks[..i + 1] == ks[..i] + [ks[i]];
  }

  class MediaIndex {
    const tracker: Tracker
    const endpoints: EndpointMap
    var aliasLabels: AliasLabels

    ghost function Who(): View
      reads tracker
    {
      ViewOf(tracker.Contents())
    }

    /** Everything agrees, but for references that are still owed. */
    ghost predicate Owing(debt: multiset<Endpoint>)
      reads this, tracker, endpoints
    {
      && tracker.Valid() && endpoints.Valid()
      && Balanced(Who(), endpoints.refs, debt) && aliasLabels.Keys == Who().aliases
    }

    ghost predicate Valid()
      reads this, tracker, endpoints
    {
      tracker.Valid() && endpoints.Valid() && Agreement(Who(), endpoints.refs, aliasLabels)
    }

    constructor (maps: nat, ttl: int)
      ensures Valid() && fresh(tracker) && fresh(endpoints)
      ensures Who() == View({}, {}, {}) && endpoints.refs == map[]
    {
      tracker := new Tracker(ttl);
      endpoints := new EndpointMap(maps);
      aliasLabels := map[];
      new;
      assert Who() == View({}, {}, {});
      forall k ensures RefCount(endpoints.refs, k) == OwnerCount(Who(), k) + multiset{}[k] {
        assert (set p | p in Who().media && p.1 == k) == {};
        assert (set p | p in Who().rtcp && p.1 == k) == {};
        assert (set p | p in Who().aliases && p.1 == k) == {};
      }
    }

    /** The labels of the given endpoints of the call go, and are returned, each once. */
    method ReleaseRTPAliases(callID: CallId, keys: seq<Endpoint>) returns (released: seq<(string, string)>, ghost gone: seq<(CallId, Endpoint)>)
      modifies this
      ensures aliasLabels == old(aliasLabels) - AliasKeys(callID, keys)
      ensures Collected(old(aliasLabels), AliasKeys(callID, keys), gone, released)
    {
      aliasLabels, released, gone := DropLabels(aliasLabels, callID, keys);
    }

    method ReleaseDisplaced(owner: CallId, k: Endpoint, faults: Faults)
      requires endpoints.Valid()
      modifies this, endpoints
      ensures endpoints.Valid() && aliasLabels == old(aliasLabels) - {(owner, k)} && endpoints.refs == Released(old(endpoints.refs), k)
      ensures endpoints.log == old(endpoints.log) + if k in old(endpoints.refs) && k !in endpoints.refs then [Flip(k, false)] else []
    {
      var _, _ := ReleaseRTPAliases(owner, [k]);
      assert AliasKeys(owner, [k]) == {(owner, k)};
      endpoints.Release(k, faults);
    }

    /** The references of one registered media endpoint: retained if the call newly owns it, and released if that
        displaced an alias. */
    method CountMedia(k: Endpoint, added: bool, displaced: Option<CallId>, faults: Faults)
      requires endpoints.Valid() && (displaced.Some? ==> added && k in endpoints.refs)
      modifies this, endpoints
      ensures endpoints.Valid() && endpoints.refs == RefsAfterMedia(old(endpoints.refs), k, added, displaced.Some?)
      ensures aliasLabels == old(aliasLabels) - if displaced.Some? then {(displaced.value, k)} else {}
      ensures Grew(old(endpoints.log), old(endpoints.refs), endpoints.log, endpoints.refs)
    {
      MinusNone(aliasLabels);
      if added { endpoints.Retain(k, faults); }
      if displaced.Some? { ReleaseDisplaced(displaced.value, k, faults); }
    }

    /** One media endpoint of registerMediaEndpoints. */
    method EnterMedia(k: Endpoint, v: Labels, faults: Faults, ghost debt: multiset<Endpoint>)
      requires Owing(debt)
      modifies this, tracker, endpoints
      ensures Owing(debt) && Who() == EntersMedia(old(Who()), v.callID, k)
      ensures tracker.media == old(tracker.media)[k := v] && tracker.rtcpMedia == old(tracker.rtcpMedia)
      ensures Grew(old(endpoints.log), old(endpoints.refs), endpoints.log, endpoints.refs)
    {
      var added, displaced := RegisterOnly(k, v, debt);
      CountMedia(k, added, displaced, faults);
    }

    /** The tracker knows the endpoint; its references and the label of a displaced alias are still to be adjusted. */
    method RegisterOnly(k: Endpoint, v: Labels, ghost debt: multiset<Endpoint>) returns (added: bool, displaced: Option<CallId>)
      requires Owing(debt)
      modifies tracker
      ensures tracker.Valid() && Who() == EntersMedia(old(Who()), v.callID, k)
      ensures tracker.media == old(tracker.media)[k := v] && tracker.rtcpMedia == old(tracker.rtcpMedia)
      ensures displaced.Some? ==> added && k in endpoints.refs
      ensures Balanced(Who(), RefsAfterMedia(endpoints.refs, k, added, displaced.Some?), debt)
      ensures (aliasLabels - if displaced.Some? then {(displaced.value, k)} else {}).Keys == Who().aliases
    {
      ghost var t0 := tracker.Contents();
      RegisterView(t0, k, v);
      added, displaced := tracker.RegisterEndpoint(k, v);
      RegisterBalance(t0, k, v, endpoints.refs, debt, added, displaced);
      RegisterLabels(t0, k, aliasLabels, displaced);
    }

    /** The RTCP endpoint that goes with it, if there is a separate one. */
    method EnterRtcp(rtcp: Endpoint, rtp: Endpoint, callID: CallId, faults: Faults, ghost debt: multiset<Endpoint>)
      requires Owing(debt)
      modifies tracker, endpoints
      ensures Owing(debt) && Who() == old(Who()).(rtcp := old(Who()).rtcp + {(callID, rtcp)})
      ensures tracker.rtcpMedia == old(tracker.rtcpMedia)[rtcp := Owned(callID, rtp)] && tracker.media == old(tracker.media)
      ensures Grew(old(endpoints.log), old(endpoints.refs), endpoints.log, endpoints.refs)
    {
      RtcpView(tracker.Contents(), rtcp, Owned(callID, rtp));
      BalanceRtcp(Who(), endpoints.refs, debt, callID, rtcp);
      var added := tracker.RegisterRTCP(rtcp, rtp, callID);
      if added { endpoints.Retain(rtcp, faults); }
    }

    method RegisterMediaEndpoints(ms: seq<Media>, labels: Labels, faults: Faults, ghost debt: multiset<Endpoint>)
      returns (found: seq<Endpoint>, srtp: bool)
      requires Owing(debt)
      modifies this, tracker, endpoints
      ensures Owing(debt) && Who() == Registered(old(Who()), labels.callID, ms)
      ensures Entered(old(tracker.media), old(tracker.rtcpMedia), ms, labels, tracker.media, tracker.rtcpMedia)
      ensures Grew(old(endpoints.log), old(endpoints.refs), endpoints.log, endpoints.refs)
      ensures Who() == old(Who()) ==> endpoints.refs == old(endpoints.refs) && endpoints.log == old(endpoints.log)
      ensures Read(ms, |ms|, found, srtp)
    {
      ghost var w0 := Who();
      found, srtp := RegisterLines(ms, labels, faults, debt);
      IdleIfSame(w0, Who(), debt, old(endpoints.log), old(endpoints.refs), endpoints.log, endpoints.refs);
    }

    /** The lines have been registered since the given state. */
    ghost predicate Advanced(ms: seq<Media>, v: Labels, debt: multiset<Endpoint>, w0: View, media0: Current<LabelInfo>,
                             rtcp0: Current<Endpoint>, log0: seq<Flip>, refs0: Refs)
      reads this, tracker, endpoints
    {
      && Owing(debt) && Who() == Registered(w0, v.callID, ms) && Grew(log0, refs0, endpoints.log, endpoints.refs)
      && Entered(media0, rtcp0, ms, v, tracker.media, tracker.rtcpMedia)
    }

    /** The loop over the lines. */
    method RegisterLines(ms: seq<Media>, labels: Labels, faults: Faults, ghost debt: multiset<Endpoint>)
      returns (found: seq<Endpoint>, srtp: bool)
      requires Owing(debt)
      modifies this, tracker, endpoints
      ensures Advanced(ms, labels, debt, old(Who()), old(tracker.media), old(tracker.rtcpMedia), old(endpoints.log), old(endpoints.refs))
      ensures Read(ms, |ms|, found, srtp)
    {
      found, srtp := [], false;
      RegisteredNone(Who(), labels.callID);
      assert ms[..0] == [];
      var i := 0;
      while i < |ms|
        invariant 0 <= i <= |ms|
        invariant Advanced(ms[..i], labels, debt, old(Who()), old(tracker.media), old(tracker.rtcpMedia), old(endpoints.log), old(endpoints.refs))
        invariant Read(ms, i, found, srtp)
      {
        RegisterTurn(ms, i, labels, faults, debt, old(Who()), old(tracker.media), old(tracker.rtcpMedia), old(endpoints.log), old(endpoints.refs));
        ReadNext(ms, i, found, srtp);
        found := found + [ms[i].endpoint];
        if ms[i].srtp { srtp := true; }
        i := i + 1;
      }
      assert ms[..i] == ms;
    }

    /** One turn of it. */
    method RegisterTurn(ms: seq<Media>, i: nat, labels: Labels, faults: Faults, ghost debt: multiset<Endpoint>,
                        ghost w0: View, ghost media0: Current<LabelInfo>, ghost rtcp0: Current<Endpoint>, ghost log0: seq<Flip>, ghost refs0: Refs)
      requires i < |ms| && Advanced(ms[..i], labels, debt, w0, media0, rtcp0, log0, refs0)
      modifies this, tracker, endpoints
      ensures Advanced(ms[..i + 1], labels, debt, w0, media0, rtcp0, log0, refs0)
    {
      RegisteredNext(w0, labels.callID, ms, i, Who());
      RegisterLine(ms[i], labels, faults, debt);
      EnteredNext(media0, rtcp0, ms, i, labels, old(tracker.media), old(tracker.rtcpMedia), tracker.media, tracker.rtcpMedia);
    }

    method RegisterLine(m: Media, labels: Labels, faults: Faults, ghost debt: multiset<Endpoint>)
      requires Owing(debt)
      modifies this, tracker, endpoints
      ensures Owing(debt) && Who() == Registered(old(Who()), labels.callID, [m])
      ensures Entered(old(tracker.media), old(tracker.rtcpMedia), [m], labels, tracker.media, tracker.rtcpMedia)
      ensures Grew(old(endpoints.log), old(endpoints.refs), endpoints.log, endpoints.refs)
    {
      RegisteredOne(Who(), labels.callID, m);
      EnteredOne(tracker.media, tracker.rtcpMedia, m, labels);
      EnterMedia(m.endpoint, LineLabels(labels, m), faults, debt);
      var r := ResolveRtcp(m);
      if r.Some? { EnterRtcp(r.value, m.endpoint, labels.callID, faults, debt); }
    }

    /** unregisterMedia: the call owns nothing any more, only its last references are cleared, and the labels of its
        aliases are returned. */
    method UnregisterMedia(callID: CallId, faults: Faults)
      returns (result: DialogResult, released: seq<(string, string)>, ghost gone: seq<(CallId, Endpoint)>)
      requires Valid()
      modifies this, tracker, endpoints
      ensures Valid() && Who() == Dropped(old(Who()), callID) && result == Summary(old(tracker.Contents()), callID)
      ensures tracker.Contents() == RemoveCall(old(tracker.Contents()), callID).(rtpObserved := old(tracker.rtpObserved) - {callID})
      ensures Shrank(old(endpoints.log), old(endpoints.refs), endpoints.log, endpoints.refs)
      ensures Collected(old(aliasLabels), OfCall(old(Who()).aliases, callID), gone, released)
    {
      ghost var t0, labels0 := tracker.Contents(), aliasLabels;
      DropView(t0, callID);
      BalanceDrop(t0, callID, endpoints.refs, multiset{});
      var deleted;
      result, deleted := tracker.Unregister(callID);
      LabelsAfter(t0, callID, deleted);
      DropReleases(deleted, t0, callID, multiset{}, faults);
      released, gone := ReleaseRTPAliases(callID, deleted);
      CollectedOfCall(t0, callID, deleted, labels0, gone, released);
    }

    method DropReleases(deleted: seq<Endpoint>, ghost t0: State, ghost callID: CallId, ghost debt: multiset<Endpoint>, faults: Faults)
      requires endpoints.Valid() && multiset(deleted) == Holdings(t0, callID)
      requires Balanced(Dropped(ViewOf(t0), callID), endpoints.refs, Holdings(t0, callID) + debt)
      modifies endpoints
      ensures endpoints.Valid() && Balanced(Dropped(ViewOf(t0), callID), endpoints.refs, debt)
      ensures Shrank(old(endpoints.log), old(endpoints.refs), endpoints.log, endpoints.refs)
      ensures forall k :: RefCount(endpoints.refs, k) == RefCount(old(endpoints.refs), k) - Holdings(t0, callID)[k]
    {
      assert Holdings(t0, callID) + debt == debt + multiset(deleted);
      Owed(Dropped(ViewOf(t0), callID), endpoints.refs, debt, multiset(deleted));
      endpoints.ReleaseAll(deleted, faults);
      BalanceRelease(Dropped(ViewOf(t0), callID), old(endpoints.refs), endpoints.refs, debt, multiset(deleted));
    }

    /** The first half of replaceMediaRevision: the call lets go of everything, but what it held stays referenced. */
    method SetAside(callID: CallId, faults: Faults) returns (owned: seq<Endpoint>)
      requires Valid()
      modifies this, tracker, endpoints
      ensures Owing(multiset(owned)) && Who() == Dropped(old(Who()), callID)
      ensures multiset(owned) == Holdings(old(tracker.Contents()), callID)
      ensures endpoints.log == old(endpoints.log) && endpoints.refs.Keys == old(endpoints.refs).Keys
    {
      ghost var t0, refs0 := tracker.Contents(), endpoints.refs;
      owned := HoldAll(callID, faults);
      var deleted := LetGoHeld(callID, refs0, multiset(owned), faults);
      LabelsAfter(t0, callID, deleted);
      var _, _ := ReleaseRTPAliases(callID, deleted);
    }

    /** The tracker forgets the call, and the references it held for itself go, which is no kernel write either. */
    method LetGoHeld(callID: CallId, ghost refs0: Refs, ghost debt: multiset<Endpoint>, faults: Faults) returns (deleted: seq<Endpoint>)
      requires tracker.Valid() && endpoints.Valid() && debt == Holdings(tracker.Contents(), callID)
      requires Balanced(Who(), endpoints.refs, debt) && Positive(refs0) && endpoints.refs.Keys == refs0.Keys
      requires forall k :: RefCount(endpoints.refs, k) == RefCount(refs0, k) + debt[k]
      modifies tracker, endpoints
      ensures tracker.Valid() && endpoints.Valid() && multiset(deleted) == debt
      ensures Who() == Dropped(old(Who()), callID) && Balanced(Who(), endpoints.refs, debt)
      ensures endpoints.log == old(endpoints.log) && endpoints.refs.Keys == refs0.Keys
    {
      ghost var t0 := tracker.Contents();
      BalanceDrop(t0, callID, endpoints.refs, debt);
      DropView(t0, callID);
      deleted := tracker.Replace(callID);
      ReleaseReplaced(deleted, t0, callID, refs0, debt, faults);
    }

    /** Every endpoint the call holds gets one more reference, which is no kernel write. */
    method HoldAll(callID: CallId, faults: Faults) returns (owned: seq<Endpoint>)
      requires Valid()
      modifies endpoints
      ensures endpoints.Valid() && multiset(owned) == Holdings(tracker.Contents(), callID)
      ensures Balanced(Who(), endpoints.refs, multiset(owned))
      ensures endpoints.log == old(endpoints.log) && endpoints.refs.Keys == old(endpoints.refs).Keys
      ensures forall k :: RefCount(endpoints.refs, k) == RefCount(old(endpoints.refs), k) + multiset(owned)[k]
    {
      owned := tracker.OwnedEndpoints(callID);
      BalanceDrop(tracker.Contents(), callID, endpoints.refs, multiset{});
      OwnedReferenced(tracker.Contents(), callID, endpoints.refs);
      RetainOwned(owned, faults);
      BalanceRetain(Who(), old(endpoints.refs), endpoints.refs, multiset{}, multiset(owned));
      assert multiset{} + multiset(owned) == multiset(owned);
    }

    /** References to endpoints that have some already are no kernel write. */
    method RetainOwned(owned: seq<Endpoint>, faults: Faults)
      requires endpoints.Valid() && forall k :: multiset(owned)[k] <= RefCount(endpoints.refs, k)
      modifies endpoints
      ensures endpoints.Valid() && endpoints.log == old(endpoints.log) && endpoints.refs.Keys == old(endpoints.refs).Keys
      ensures forall k :: RefCount(endpoints.refs, k) == RefCount(old(endpoints.refs), k) + multiset(owned)[k]
    {
      endpoints.RetainAll(owned, faults);
      MoreOfTheSame(old(endpoints.refs), endpoints.refs, multiset(owned));
      SameKeysNoFlips(old(endpoints.log), old(endpoints.refs), endpoints.log, endpoints.refs);
    }

    method ReleaseReplaced(deleted: seq<Endpoint>, ghost t0: State, ghost callID: CallId, ghost refs0: Refs,
                           ghost debt: multiset<Endpoint>, faults: Faults)
      requires endpoints.Valid() && multiset(deleted) == Holdings(t0, callID) == debt
      requires Balanced(Dropped(ViewOf(t0), callID), endpoints.refs, Holdings(t0, callID) + debt)
      requires Positive(refs0) && endpoints.refs.Keys == refs0.Keys
      requires forall k :: RefCount(endpoints.refs, k) == RefCount(refs0, k) + debt[k]
      modifies endpoints
      ensures endpoints.Valid() && Balanced(Dropped(ViewOf(t0), callID), endpoints.refs, debt)
      ensures endpoints.log == old(endpoints.log) && endpoints.refs.Keys == refs0.Keys
    {
      DropReleases(deleted, t0, callID, debt, faults);
      forall k ensures RefCount(endpoints.refs, k) == RefCount(refs0, k) + multiset{}[k] {}
      MoreOfTheSame(refs0, endpoints.refs, multiset{});
      SameKeysNoFlips(old(endpoints.log), old(endpoints.refs), endpoints.log, endpoints.refs);
    }

    /** replaceMediaRevision: the call owns the new revision instead of the old one, and no endpoint that is referenced
        before and after is written to a kernel map in between. */
    method ReplaceMediaRevision(callID: CallId, offer: seq<Media>, answer: Option<seq<Media>>, labels: Labels, faults: Faults)
      requires Valid() && labels.callID == callID
      modifies this, tracker, endpoints
      ensures Valid()
      ensures Who() == Registered(Registered(Dropped(old(Who()), callID), callID, offer), callID, AnswerLines(answer))
      ensures Labelled(tracker.media, offer + AnswerLines(answer), labels) && Linked(tracker.rtcpMedia, offer + AnswerLines(answer), callID)
      ensures NoGap(old(endpoints.log), old(endpoints.refs), endpoints.log, endpoints.refs)
      ensures Who() == old(Who()) ==> endpoints.refs == old(endpoints.refs) && endpoints.log == old(endpoints.log)
    {
      ghost var w0, log0, refs0 := Who(), endpoints.log, endpoints.refs;
      var owned := SetAside(callID, faults);
      RegisterAndRelease(owned, offer, answer, labels, faults);
      NothingIfSame(w0, Who(), log0, refs0, endpoints.log, endpoints.refs);
    }

    /** The second half: the new revision is registered, and only then what was held for the old one is released. */
    method RegisterAndRelease(owned: seq<Endpoint>, offer: seq<Media>, answer: Option<seq<Media>>, labels: Labels, faults: Faults)
      requires Owing(multiset(owned))
      modifies this, tracker, endpoints
      ensures Valid() && Who() == Registered(Registered(old(Who()), labels.callID, offer), labels.callID, AnswerLines(answer))
      ensures Labelled(tracker.media, offer + AnswerLines(answer), labels) && Linked(tracker.rtcpMedia, offer + AnswerLines(answer), labels.callID)
      ensures NoGap(old(endpoints.log), old(endpoints.refs), endpoints.log, endpoints.refs)
    {
      ghost var w1, log1, refs1 := Who(), endpoints.log, endpoints.refs;
      LinesLabel(tracker.media, offer + AnswerLines(answer), labels);
      LinesLink(tracker.rtcpMedia, offer + AnswerLines(answer), labels.callID);
      RegisterRevision(offer, answer, labels, faults, multiset(owned));
      ghost var log2, refs2 := endpoints.log, endpoints.refs;
      ReleaseOwed(owned, faults);
      OnlyOwedGo(w1, refs1, refs2, endpoints.refs, multiset(owned));
      GrewThenShrank(log1, refs1, log2, refs2, endpoints.log, endpoints.refs);
    }

    method RegisterRevision(offer: seq<Media>, answer: Option<seq<Media>>, labels: Labels, faults: Faults, ghost debt: multiset<Endpoint>)
      requires Owing(debt)
      modifies this, tracker, endpoints
      ensures Owing(debt)
      ensures Who() == Registered(Registered(old(Who()), labels.callID, offer), labels.callID, AnswerLines(answer))
      ensures Entered(old(tracker.media), old(tracker.rtcpMedia), offer + AnswerLines(answer), labels, tracker.media, tracker.rtcpMedia)
      ensures Grew(old(endpoints.log), old(endpoints.refs), endpoints.log, endpoints.refs)
    {
      ghost var media, rtcpMedia := tracker.media, tracker.rtcpMedia;
      var _, _ := RegisterMediaEndpoints(offer, labels, faults, debt);
      RegisteredNone(Who(), labels.callID);
      AfterInTurn(media, rtcpMedia, offer, AnswerLines(answer), labels);
      if answer.Some? { var _, _ := RegisterMediaEndpoints(answer.value, labels, faults, debt); }
    }

    method ReleaseOwed(owned: seq<Endpoint>, faults: Faults)
      requires Owing(multiset(owned))
      modifies endpoints
      ensures Valid()
      ensures Shrank(old(endpoints.log), old(endpoints.refs), endpoints.log, endpoints.refs)
      ensures forall k :: RefCount(endpoints.refs, k) == RefCount(old(endpoints.refs), k) - multiset(owned)[k]
    {
      assert multiset(owned) == multiset{} + multiset(owned);
      Owed(Who(), endpoints.refs, multiset{}, multiset(owned));
      endpoints.ReleaseAll(owned, faults);
      BalanceRelease(Who(), old(endpoints.refs), endpoints.refs, multiset{}, multiset(owned));
    }

    /** The media part of handleRTPIPv4: a learned alias is referenced and remembered under the labels of its call. */
    method ObserveRtp(src: Endpoint, dst: Endpoint, h: Header, arrival: int, faults: Faults) returns (r: Option<Observation>)
      requires Valid()
      modifies this, tracker, endpoints
      ensures Valid() && Who() == Learned(old(Who()), r)
      ensures tracker.Contents() == Observe(old(tracker.Contents()), src, dst, h, arrival)
      ensures r == Observed(old(tracker.Contents()), src, dst, h, arrival)
      ensures aliasLabels == if r.Some? && r.value.learned.Some?
                             then var labels := r.value.m.labels;
                                  old(aliasLabels)[(labels.callID, r.value.learned.value) := (labels.info.carrier, labels.info.direction)]
                             else old(aliasLabels)
      ensures Grew(old(endpoints.log), old(endpoints.refs), endpoints.log, endpoints.refs)
    {
      ghost var w := Who();
      ObserveView(tracker.Contents(), src, dst, h, arrival);
      r := tracker.ObserveIPv4(src, dst, h, arrival);
      if r.Some? && r.value.learned.Some? {
        LabelAlias(r.value.learned.value, r.value.m.labels, w, faults);
      }
    }

    /** A freshly learned alias is referenced once and labelled. */
    method LabelAlias(k: Endpoint, labels: Labels, ghost w: View, faults: Faults)
      requires tracker.Valid() && endpoints.Valid() && Agreement(w, endpoints.refs, aliasLabels)
      requires (labels.callID, k) !in w.aliases && Who() == w.(aliases := w.aliases + {(labels.callID, k)})
      modifies this, endpoints
      ensures Valid()
      ensures Grew(old(endpoints.log), old(endpoints.refs), endpoints.log, endpoints.refs)
      ensures aliasLabels == old(aliasLabels)[(labels.callID, k) := (labels.info.carrier, labels.info.direction)]
    {
      BalanceAlias(w, endpoints.refs, labels.callID, k);
      endpoints.Retain(k, faults);
      KeysPut(aliasLabels, (labels.callID, k), (labels.info.carrier, labels.info.direction));
      aliasLabels := aliasLabels[(labels.callID, k) := (labels.info.carrier, labels.info.direction)];
    }
  }

  lemma ObserveView(t: State, src: Endpoint, dst: Endpoint, h: Header, arrival: int)
    requires Ok(t)
    ensures var o := Observed(t, src, dst, h, arrival);
            && ViewOf(Observe(t, src, dst, h, arrival)) == Learned(ViewOf(t), o)
            && (o.Some? && o.value.learned.Some? ==> (o.value.m.labels.callID, o.value.learned.value) !in ViewOf(t).aliases)
  {
    ObserveKeeps(t, src, dst, h, arrival);
  }

  /** Replacing a revision and unregistering before registering anew, from the same ownership, end in the same ownership
      and the same counts, whatever the kernel maps answer. */
  method ReplaceOrAnew(a: MediaIndex, b: MediaIndex, callID: CallId, offer: seq<Media>, answer: Option<seq<Media>>, labels: Labels,
                       faults: Faults, faults': Faults)
    requires a.Valid() && b.Valid() && a.Who() == b.Who() && labels.callID == callID
    requires a != b && a.tracker != b.tracker && a.endpoints != b.endpoints
    modifies a, a.tracker, a.endpoints, b, b.tracker, b.endpoints
    ensures a.Valid() && b.Valid() && a.Who() == b.Who() && a.endpoints.refs == b.endpoints.refs
  {
    a.ReplaceMediaRevision(callID, offer, answer, labels, faults);
    var _, _, _ := b.UnregisterMedia(callID, faults');
    b.RegisterRevision(offer, answer, labels, faults', multiset{});
    CountsDetermined(a.Who(), a.endpoints.refs, b.endpoints.refs, a.aliasLabels, b.aliasLabels);
  }

  function AnswerLines(answer: Option<seq<Media>>): seq<Media> { if answer.Some? then answer.value else [] }

  lemma OwnedReferenced(t: State, c: CallId, refs: Refs)
    requires Balanced(Dropped(ViewOf(t), c), refs, Holdings(t, c) + multiset{})
    ensures forall k :: Holdings(t, c)[k] <= RefCount(refs, k)
  {
    assert Holdings(t, c) + multiset{} == multiset{} + Holdings(t, c);
    Owed(Dropped(ViewOf(t), c), refs, multiset{}, Holdings(t, c));
  }

  lemma MoreOfTheSame(refs: Refs, refs': Refs, more: multiset<Endpoint>)
    requires Positive(refs) && Positive(refs')
    requires forall k :: more[k] <= RefCount(refs, k) && RefCount(refs', k) == RefCount(refs, k) + more[k]
    ensures refs'.Keys == refs.Keys
  {
    forall k ensures k in refs' <==> k in refs { assert RefCount(refs', k) == RefCount(refs, k) + more[k]; }
  }

  /** Setting first references and then clearing last ones, of keys that were referenced before. */
  lemma GrewThenShrank(log: seq<Flip>, refs: Refs, log': seq<Flip>, refs': Refs, log'': seq<Flip>, refs'': Refs)
    requires Grew(log, refs, log', refs') && Shrank(log', refs', log'', refs'') && refs'.Keys <= refs.Keys + refs''.Keys
    ensures NoGap(log, refs, log'', refs'')
  {}

  lemma OnlyOwedGo(w: View, refs: Refs, refs': Refs, refs'': Refs, owned: multiset<Endpoint>)
    requires Balanced(w, refs, owned) && Positive(refs'')
    requires forall k :: RefCount(refs'', k) == RefCount(refs', k) - owned[k]
    ensures forall k :: k in refs' && RefCount(refs', k) > 0 ==> k in refs || k in refs''
  {
    forall k | k in refs' && RefCount(refs', k) > 0 ensures k in refs || k in refs'' {
      assert RefCount(refs, k) == OwnerCount(w, k) + owned[k];
      assert RefCount(refs'', k) == RefCount(refs', k) - owned[k];
    }
  }

  lemma IdleIfSame(w: View, w': View, debt: multiset<Endpoint>, log: seq<Flip>, refs: Refs, log': seq<Flip>, refs': Refs)
    requires Balanced(w, refs, debt) && Balanced(w', refs', debt) && Positive(refs) && Positive(refs') && Grew(log, refs, log', refs')
    ensures w' == w ==> refs' == refs && log' == log
  {
    if w' == w {
      BalancedSame(w, refs, refs', debt);
      SameKeysNoFlips(log, refs, log', refs');
    }
  }

  lemma NothingIfSame(w: View, w': View, log: seq<Flip>, refs: Refs, log': seq<Flip>, refs': Refs)
    requires Balanced(w, refs, multiset{}) && Balanced(w', refs', multiset{}) && Positive(refs) && Positive(refs') && NoGap(log, refs, log', refs')
    ensures w' == w ==> refs' == refs && log' == log
  {
    if w' == w {
      BalancedSame(w, refs, refs', multiset{});
      NoGapSameKeys(log, refs, log', refs');
    }
  }
}
