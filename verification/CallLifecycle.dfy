/**
 The exporter's handlers for INVITE and BYE, the expiry of dialogs and the media part of RTP packets, over the tables
 they share.  Each handler is tied to the function of Lifecycle it implements.
 */
module CallLifecycle {
  import opened Basics
  import opened EndpointRefs
  import opened Lifecycle
  import opened MediaLifecycle
  import opened Ownership
  import opened TrackerClass
  import opened Tracking
  import opened TrackerOps
  import D = Dialogs
  import T = Transactions

  class Exporter {
    const dialogs: D.DialogTable
    const transactions: T.InviteTransactions
    const media: MediaIndex
    var offers: Offers
    var fas: set<CallId>

    ghost function State(): Life
      reads this, dialogs, transactions, media.tracker
    {
      Life(media.Who(), dialogs.storage, transactions.Contents(), offers, fas)
    }

    ghost predicate Valid()
      reads media, media.tracker, media.endpoints
    {
      media.Valid()
    }

    constructor (maps: nat, ttl: int)
      ensures Valid() && State() == NEWBORN
      ensures fresh(dialogs) && fresh(transactions) && fresh(media) && fresh(media.tracker) && fresh(media.endpoints)
    {
      dialogs := new D.DialogTable();
      transactions := new T.InviteTransactions();
      media := new MediaIndex(maps, ttl);
      offers, fas := map[], {};
    }

    method HandleInviteRequest(key: T.TxKey, toTag: string, sdp: Option<seq<Media>>, now: int)
      requires Valid()
      modifies this`offers, transactions
      ensures Valid() && State() == Requested(old(State()), key, toTag, sdp, now)
    {
      var id := D.DialogId(key.callID, key.fromTag, toTag);
      var reinvite := id.Some? && dialogs.HasActive(id.value);
      transactions.ObserveRequest(key, reinvite, now);
      if sdp.Some? { offers := offers[key := sdp.value]; }
    }

    method TakeOffer(key: T.TxKey) returns (offer: Option<seq<Media>>)
      modifies this`offers
      ensures offer == OfferOf(old(offers), key) && offers == old(offers) - {key}
    {
      if key !in offers {
        MinusNone(offers);
        assert offers - {key} == offers;
        return None;
      }
      offer := Some(offers[key]);
      offers := offers - {key};
    }

    /** The registrations that end handleInvite200OK; returns how many media endpoints were named. */
    method RegisterBoth(offer: Option<seq<Media>>, answer: Option<seq<Media>>, labels: Labels, faults: Faults) returns (n: nat)
      requires Valid()
      modifies media, media.tracker, media.endpoints
      ensures Valid() && media.Who() == Revision(old(media.Who()), labels.callID, offer, answer)
      ensures Grew(old(media.endpoints.log), old(media.endpoints.refs), media.endpoints.log, media.endpoints.refs)
      ensures media.Who() == old(media.Who()) ==>
                media.endpoints.refs == old(media.endpoints.refs) && media.endpoints.log == old(media.endpoints.log)
      ensures n == |AnswerLines(offer)| + |AnswerLines(answer)|
      ensures Labelled(media.tracker.media, AnswerLines(offer) + AnswerLines(answer), labels)
      ensures Linked(media.tracker.rtcpMedia, AnswerLines(offer) + AnswerLines(answer), labels.callID)
    {
      ghost var who := media.Who();
      ghost var lines := AnswerLines(offer) + AnswerLines(answer);
      LinesLabel(media.tracker.media, lines, labels);
      LinesLink(media.tracker.rtcpMedia, lines, labels.callID);
      AfterInTurn(media.tracker.media, media.tracker.rtcpMedia, AnswerLines(offer), AnswerLines(answer), labels);
      n := RegisterSide(offer, labels, faults);
      var m := RegisterSide(answer, labels, faults);
      n := n + m;
      IdleIfSame(who, media.Who(), multiset{}, old(media.endpoints.log), old(media.endpoints.refs), media.endpoints.log, media.endpoints.refs);
    }

    /** One side of the call, if it has sent a description. */
    method RegisterSide(side: Option<seq<Media>>, labels: Labels, faults: Faults) returns (n: nat)
      requires Valid()
      modifies media, media.tracker, media.endpoints
      ensures Valid() && media.Who() == Registered(old(media.Who()), labels.callID, AnswerLines(side)) && n == |AnswerLines(side)|
      ensures Entered(old(media.tracker.media), old(media.tracker.rtcpMedia), AnswerLines(side), labels, media.tracker.media, media.tracker.rtcpMedia)
      ensures Grew(old(media.endpoints.log), old(media.endpoints.refs), media.endpoints.log, media.endpoints.refs)
    {
      RegisteredNone(media.Who(), labels.callID);
      if side.None? { return 0; }
      var found, _ := media.RegisterMediaEndpoints(side.value, labels, faults, multiset{});
      n := |found|;
    }

    method HandleFresh200OK(id: string, p: Reply, now: int, lag: nat, faults: Faults)
      requires Valid()
      modifies this, dialogs, media, media.tracker, media.endpoints
      ensures Valid() && State() == Answered(old(State()), id, p, now, lag)
      ensures Labelled(media.tracker.media, AnswerLines(OfferOf(old(offers), p.key)) + AnswerLines(p.sdp),
                       Owned(p.key.callID, LabelInfo(p.info.carrier, p.info.uaType, p.info.sourceCountry, p.info.direction, map[], map[])))
      ensures fas == if p.key.callID != "" && (AnswerLines(OfferOf(old(offers), p.key)) != [] || AnswerLines(p.sdp) != [])
                     then old(fas) + {p.key.callID} else old(fas)
      ensures p.key !in offers
      ensures Grew(old(media.endpoints.log), old(media.endpoints.refs), media.endpoints.log, media.endpoints.refs)
    {
      dialogs.Create(id, NewDialog(p, now, lag));
      var offer := TakeOffer(p.key);
      var n := RegisterBoth(offer, p.sdp, LabelsOf(p), faults);
      if n > 0 && p.key.callID != "" { fas := fas + {p.key.callID}; }
    }

    method HandleReinvite200OK(id: string, p: Reply, now: int, faults: Faults)
      requires Valid()
      modifies this, dialogs, media, media.tracker, media.endpoints
      ensures Valid() && State() == Reanswered(old(State()), id, p, now)
      ensures id in old(dialogs.storage) && p.key in old(offers) ==>
                Labelled(media.tracker.media, old(offers)[p.key] + AnswerLines(p.sdp),
                         Owned(p.key.callID, LabelInfo(p.info.carrier, p.info.uaType, p.info.sourceCountry, p.info.direction, map[], map[])))
      ensures NoGap(old(media.endpoints.log), old(media.endpoints.refs), media.endpoints.log, media.endpoints.refs)
    {
      var refreshed := dialogs.Refresh(id, ExpiresAt(p, now));
      if !refreshed { return; }
      MinusKey(offers, p.key);
      var offer := TakeOffer(p.key);
      if offer.None? { return; }
      RevisionTwice(Dropped(media.Who(), p.key.callID), p.key.callID, offer, p.sdp);
      media.ReplaceMediaRevision(p.key.callID, offer.value, p.sdp, LabelsOf(p), faults);
      var _ := RegisterBoth(offer, p.sdp, LabelsOf(p), faults);
    }

    /** Fails without both tags. */
    method HandleInvite200OK(p: Reply, reinvite: bool, now: int, lag: nat, faults: Faults) returns (ok: bool)
      requires Valid()
      modifies this, dialogs, media, media.tracker, media.endpoints
      ensures Valid() && State() == InviteOk(old(State()), p, reinvite, now, lag) && (ok <==> IdOf(p).Some?)
      ensures NoGap(old(media.endpoints.log), old(media.endpoints.refs), media.endpoints.log, media.endpoints.refs)
    {
      var id := IdOf(p);
      if id.None? { return false; }
      if reinvite {
        HandleReinvite200OK(id.value, p, now, faults);
      } else {
        HandleFresh200OK(id.value, p, now, lag, faults);
      }
      return true;
    }

    method HandleInviteResponse(p: Reply, now: int, lag: nat, faults: Faults)
      requires Valid()
      modifies this, dialogs, transactions, media, media.tracker, media.endpoints
      ensures Valid() && State() == Responded(old(State()), p, now, lag)
      ensures NoGap(old(media.endpoints.log), old(media.endpoints.refs), media.endpoints.log, media.endpoints.refs)
    {
      var id := IdOf(p);
      var v := transactions.Classify(p.key, p.status, id.Some? && dialogs.HasActive(id.value), now);
      if |p.status| > 0 && p.status[0] >= '3' { offers := offers - {p.key}; }
      if p.status == "200" && v.process {
        var _ := HandleInvite200OK(p, v.reinvite, now, lag, faults);
      }
    }

    method LetGoOf(c: CallId, faults: Faults) returns (rtp: DialogResult)
      requires Valid()
      modifies media, media.tracker, media.endpoints
      ensures Valid() && media.Who() == Dropped(old(media.Who()), c) && rtp == Summary(old(media.tracker.Contents()), c)
      ensures Shrank(old(media.endpoints.log), old(media.endpoints.refs), media.endpoints.log, media.endpoints.refs)
    {
      var result, _, _ := media.UnregisterMedia(c, faults);
      rtp := result;
    }

    /** What a BYE and the expiry of a reported dialog do for its call. */
    method EndCall(c: CallId, now: int, faults: Faults) returns (rtp: DialogResult)
      requires Valid()
      modifies this`fas, transactions, media, media.tracker, media.endpoints
      ensures Valid() && dialogs.storage == old(dialogs.storage)
      ensures State() == old(State()).(who := Dropped(old(State()).who, c), table := T.Closed(old(State()).table, c, now), fas := old(State()).fas - {c})
      ensures Shrank(old(media.endpoints.log), old(media.endpoints.refs), media.endpoints.log, media.endpoints.refs)
      ensures rtp == Summary(old(media.tracker.Contents()), c)
    {
      transactions.Close(c, now);
      fas := fas - {c};
      rtp := LetGoOf(c, faults);
    }

    /** Tells how long the dialog lasted and what its media came to. */
    method HandleBye200OK(p: Reply, now: int, faults: Faults) returns (ok: bool, ended: D.Ended, rtp: DialogResult)
      requires Valid()
      modifies this`fas, dialogs, transactions, media, media.tracker, media.endpoints
      ensures Valid() && State() == Ended(old(State()), p, now) && (ok <==> IdOf(p).Some?)
      ensures NoGap(old(media.endpoints.log), old(media.endpoints.refs), media.endpoints.log, media.endpoints.refs)
      ensures ok ==> rtp == Summary(old(media.tracker.Contents()), p.key.callID)
      ensures ok && IdOf(p).value in old(dialogs.storage) ==>
                var e := old(dialogs.storage)[IdOf(p).value];
                ended == D.Ended(if now > e.createdAt then now - e.createdAt else 0, e.callID, e.info)
      ensures ok && IdOf(p).value !in old(dialogs.storage) ==> ended.duration == 0
    {
      var id := IdOf(p);
      if id.None? { return false, D.Ended(0, "", D.NO_INFO), DialogResult(false, false, false); }
      ended := dialogs.Delete(id.value, now);
      rtp := EndCall(p.key.callID, now, faults);
      ok := true;
    }

    /** cleanupExpiredDialogs: every expired dialog goes, and with each reported one everything of its call. */
    method CleanupExpiredDialogs(now: int, faults: Faults)
      requires Valid()
      modifies this`fas, dialogs, transactions, media, media.tracker, media.endpoints
      ensures Valid() && State() == Expired(old(State()), now)
      ensures Shrank(old(media.endpoints.log), old(media.endpoints.refs), media.endpoints.log, media.endpoints.refs)
    {
      ghost var s0 := State();
      var results, ids := dialogs.Cleanup(now);
      ghost var s1 := s0.(dialogs := D.Kept(s0.dialogs, now));
      NoneEnded(s1, now);
      var i := 0;
      while i < |results|
        invariant Shrank(old(media.endpoints.log), old(media.endpoints.refs), media.endpoints.log, media.endpoints.refs)
        invariant 0 <= i <= |results| && Valid() && State() == AllEnded(s1, CallsOfResults(results[..i]), now)
      {
        OneMoreEnded(s1, results, i, now);
        ghost var log, refs := media.endpoints.log, media.endpoints.refs;
        var _ := EndCall(results[i].callID, now, faults);
        StillShrank(old(media.endpoints.log), old(media.endpoints.refs), log, refs, media.endpoints.log, media.endpoints.refs);
        i := i + 1;
      }
      assert results[..i] == results;
      ResultsAreReported(s0.dialogs, now, results, ids);
    }

    /** An RTP packet: nothing changes but the alias it may teach, to a call that owns media. */
    method HandleRtp(src: Endpoint, dst: Endpoint, h: Header, arrival: int, faults: Faults) returns (r: Option<Observation>)
      requires Valid()
      modifies media, media.tracker, media.endpoints
      ensures Valid() && State() == old(State()).(who := Learned(old(State()).who, r))
      ensures r.Some? ==> OwnsMedia(old(State()).who, r.value.m.labels.callID)
      ensures r == Observed(old(media.tracker.Contents()), src, dst, h, arrival)
    {
      LearnersOwn(media.tracker.Contents(), src, dst, h, arrival);
      r := media.ObserveRtp(src, dst, h, arrival, faults);
    }
  }

  /** Learning an alias from a packet is a step of the run. */
  lemma LearningIsAStep(s: Life, r: Option<Observation>, at: int)
    requires r.Some? && r.value.learned.Some? && OwnsMedia(s.who, r.value.m.labels.callID)
    ensures s.(who := Learned(s.who, r)) == Step(s, Event(at, Learn(r.value.m.labels.callID, r.value.learned.value)))
  {}

  function LabelsOf(p: Reply): Labels {
    Owned(p.key.callID, LabelInfo(p.info.carrier, p.info.uaType, p.info.sourceCountry, p.info.direction, map[], map[]))
  }

  lemma MinusKey<K, V>(m: map<K, V>, key: K)
    ensures key !in m ==> m - {key} == m
  {}

  lemma LearnersOwn(t: Tracking.State, src: Endpoint, dst: Endpoint, h: Header, arrival: int)
    requires Ok(t)
    ensures var o := Observed(t, src, dst, h, arrival); o.Some? ==> OwnsMedia(ViewOf(t), o.value.m.labels.callID)
  {
    ObserveKeeps(t, src, dst, h, arrival);
    var o := Observed(t, src, dst, h, arrival);
    if o.Some? {
      var c := o.value.m.labels.callID;
      assert t.callMedia[c] != map[];
      var k :| k in t.callMedia[c];
      assert (c, k) in Pairs(t.callMedia);
    }
  }

  /** Streams need no dialog of their own: a stream is labelled with a call that owns media, so where every owner has a
      dialog, every stream's call has one. */
  lemma StreamsHaveDialogs(t: Tracking.State, s: Life)
    requires Ok(t) && ViewOf(t) == s.who && Covered(s)
    ensures forall key :: key in t.streams ==> t.streams[key].labels.callID in DialogCalls(s.dialogs)
  {
    forall key | key in t.streams ensures t.streams[key].labels.callID in DialogCalls(s.dialogs) {
      var c := t.streams[key].labels.callID;
      assert t.callMedia[c] != map[];
      var k :| k in t.callMedia[c];
      assert (c, k) in Pairs(t.callMedia);
      assert (c, k) in s.who.media + s.who.rtcp + s.who.aliases;
    }
  }

  lemma StillShrank(log: seq<Flip>, refs: Refs, log': seq<Flip>, refs': Refs, log'': seq<Flip>, refs'': Refs)
    requires Shrank(log, refs, log', refs') && Shrank(log', refs', log'', refs'')
    ensures Shrank(log, refs, log'', refs'')
  {}

  // ---------------------------------------------------------------- the loop over reported dialogs

  ghost function CallsOfResults(results: seq<D.Ended>): set<CallId> { set r | r in results :: r.callID }

  ghost function AllEnded(s: Life, calls: set<CallId>, now: int): Life {
    s.(who := DroppedAll(s.who, calls), table := ClosedAll(s.table, calls, now), fas := s.fas - calls)
  }

  lemma NoneEnded(s: Life, now: int)
    ensures AllEnded(s, CallsOfResults([]), now) == s
  {
    assert CallsOfResults([]) == {};
    assert ClosedAll(s.table, {}, now) == s.table;
    assert DroppedAll(s.who, {}) == s.who;
    assert s.fas - {} == s.fas;
  }

  lemma OneMoreEnded(s: Life, results: seq<D.Ended>, i: nat, now: int)
    requires i < |results|
    ensures var c, t := results[i].callID, AllEnded(s, CallsOfResults(results[..i]), now);
            AllEnded(s, CallsOfResults(results[..i + 1]), now)
            == t.(who := Dropped(t.who, c), table := T.Closed(t.table, c, now), fas := t.fas - {c})
  {
    var c, calls := results[i].callID, CallsOfResults(results[..i]);
    assert results[..i + 1] == results[..i] + [results[i]];
    assert CallsOfResults(results[..i + 1]) == calls + {c};
    assert ClosedAll(s.table, calls + {c}, now) == T.Closed(ClosedAll(s.table, calls, now), c, now);
    assert DroppedAll(s.who, calls + {c}) == Dropped(DroppedAll(s.who, calls), c);
  }

  lemma ResultsAreReported(s: D.Storage, now: int, results: seq<D.Ended>, ids: seq<string>)
    requires |ids| == |results| && forall id :: id in ids <==> id in D.ReportedIds(s, now)
    requires forall i :: 0 <= i < |ids| ==> ids[i] in s && results[i] == D.EndOf(s[ids[i]], now)
    ensures CallsOfResults(results) == ReportedCalls(s, now)
  {
    forall c | c in CallsOfResults(results) ensures c in ReportedCalls(s, now) {
      var i :| 0 <= i < |results| && results[i].callID == c;
      assert ids[i] in ids;
    }
    forall c | c in ReportedCalls(s, now) ensures c in CallsOfResults(results) {
      var id :| id in D.ReportedIds(s, now) && s[id].callID == c;
      assert id in ids;
      var i :| 0 <= i < |ids| && ids[i] == id;
      assert results[i] in results && results[i].callID == c;
    }
  }
}
