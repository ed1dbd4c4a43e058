/**
 The life of calls: dialogs, INVITE transactions, cached offers, pending answer-supervision entries and media
 ownership change together as requests, final responses, expiry and packets are handled.
 */
module Lifecycle {
  import opened Basics
  import opened Ownership
  import opened Tracking
  import opened TrackerOps
  import opened MediaLifecycle
  import D = Dialogs
  import T = Transactions

  const SECOND := 1_000_000_000
  const DEFAULT_SESSION_EXPIRES := 1800

  type Offers = map<T.TxKey, seq<Media>>

  /** Everything that is kept per call. */
  datatype Life = Life(who: View, dialogs: D.Storage, table: T.Table, offers: Offers, fas: set<CallId>)

  const NEWBORN := Life(View({}, {}, {}), map[], T.Table(map[], map[]), map[], {})

  /** A response to an INVITE or BYE. */
  datatype Reply = Reply(key: T.TxKey, toTag: string, status: string, sessionExpires: int, sdp: Option<seq<Media>>, info: D.Info)

  function IdOf(p: Reply): Option<string> { D.DialogId(p.key.callID, p.key.fromTag, p.toTag) }

  predicate Active(dialogs: D.Storage, id: Option<string>) { id.Some? && id.value in dialogs }

  const TWO_63 := 0x8000_0000_0000_0000
  const TWO_64 := 0x1_0000_0000_0000_0000

  /** A product of 64-bit integers. */
  function Wrap64(x: int): int { (x + TWO_63) % TWO_64 - TWO_63 }

  /** Session-Expires in nanoseconds, 1800 seconds without the header.  The product is one of 64-bit integers. */
  function DurationOf(p: Reply): int {
    Wrap64(SECOND * if p.sessionExpires == 0 then DEFAULT_SESSION_EXPIRES else p.sessionExpires)
  }

  /** When the dialog runs out. */
  function ExpiresAt(p: Reply, now: int): int { now + DurationOf(p) }

  /** The most seconds whose product does not wrap. */
  const MAX_SECONDS := 9_223_372_036

  /** Where the product is positive, and where it is negative: below zero, and again from one past the largest. */
  lemma DurationSigns(p: Reply)
    ensures 0 <= p.sessionExpires <= MAX_SECONDS ==> DurationOf(p) >= SECOND
    ensures -MAX_SECONDS <= p.sessionExpires < 0 ==> DurationOf(p) < 0
    ensures MAX_SECONDS < p.sessionExpires < 2 * MAX_SECONDS ==> DurationOf(p) < 0
  {}

  // ---------------------------------------------------------------- handlers as functions

  function OfferOf(offers: Offers, key: T.TxKey): Option<seq<Media>> { if key in offers then Some(offers[key]) else None }

  ghost function Revision(w: View, c: CallId, offer: Option<seq<Media>>, answer: Option<seq<Media>>): View {
    Registered(Registered(w, c, AnswerLines(offer)), c, AnswerLines(answer))
  }

  function NewDialog(p: Reply, now: int, lag: nat): D.Entry { D.Entry(ExpiresAt(p, now), now + lag, p.key.callID, p.info) }

  /** The fresh part of handleInvite200OK: the dialog is created and offer and answer are registered. */
  ghost function Answered(s: Life, id: string, p: Reply, now: int, lag: nat): Life {
    var c, offer := p.key.callID, OfferOf(s.offers, p.key);
    Life(Revision(s.who, c, offer, p.sdp), D.Created(s.dialogs, id, NewDialog(p, now, lag)), s.table, s.offers - {p.key},
         if c != "" && |AnswerLines(offer)| + |AnswerLines(p.sdp)| > 0 then s.fas + {c} else s.fas)
  }

  /** The handler registers a replaced revision a second time; that changes nobody's ownership. */
  lemma RevisionTwice(w: View, c: CallId, offer: Option<seq<Media>>, answer: Option<seq<Media>>)
    ensures Revision(Revision(w, c, offer, answer), c, offer, answer) == Revision(w, c, offer, answer)
  {
    RegisterInTurn(w, c, AnswerLines(offer), AnswerLines(answer));
    RegisterInTurn(Revision(w, c, offer, answer), c, AnswerLines(offer), AnswerLines(answer));
    RegisterAgain(w, c, AnswerLines(offer) + AnswerLines(answer));
  }

  /** The re-INVITE part: the dialog is refreshed, and with a cached offer the media revision is replaced. */
  ghost function Reanswered(s: Life, id: string, p: Reply, now: int): Life {
    var c, offer := p.key.callID, OfferOf(s.offers, p.key);
    if id !in s.dialogs then s
    else if offer.None? then s.(dialogs := D.Refreshed(s.dialogs, id, ExpiresAt(p, now)))
    else s.(dialogs := D.Refreshed(s.dialogs, id, ExpiresAt(p, now)), offers := s.offers - {p.key},
            who := Revision(Revision(Dropped(s.who, c), c, offer, p.sdp), c, offer, p.sdp))
  }

  ghost function InviteOk(s: Life, p: Reply, reinvite: bool, now: int, lag: nat): Life {
    if IdOf(p).None? then s
    else if reinvite then Reanswered(s, IdOf(p).value, p, now)
    else Answered(s, IdOf(p).value, p, now, lag)
  }

  predicate Failure(status: string) { |status| > 0 && status[0] >= '3' }

  /** handleResponse for an INVITE. */
  ghost function Responded(s: Life, p: Reply, now: int, lag: nat): Life {
    var active := Active(s.dialogs, IdOf(p));
    var s1 := s.(table := T.Responded(s.table, p.key, p.status, active, now),
                 offers := if Failure(p.status) then s.offers - {p.key} else s.offers);
    if T.Passes(s.table, p.key, p.status) then InviteOk(s1, p, T.IsReinvite(s.table, p.key, active), now, lag) else s1
  }

  /** handleRequest for an INVITE. */
  ghost function Requested(s: Life, key: T.TxKey, toTag: string, sdp: Option<seq<Media>>, now: int): Life {
    var reinvite := Active(s.dialogs, D.DialogId(key.callID, key.fromTag, toTag));
    s.(table := T.Requested(s.table, key, reinvite, now), offers := if sdp.Some? then s.offers[key := sdp.value] else s.offers)
  }

  /** handleBye200OK. */
  ghost function Ended(s: Life, p: Reply, now: int): Life {
    var c := p.key.callID;
    if IdOf(p).None? then s
    else Life(Dropped(s.who, c), s.dialogs - {IdOf(p).value}, T.Closed(s.table, c, now), s.offers, s.fas - {c})
  }

  ghost function DroppedAll(w: View, calls: set<CallId>): View {
    View(set p | p in w.media && p.0 !in calls, set p | p in w.rtcp && p.0 !in calls, set p | p in w.aliases && p.0 !in calls)
  }

  function ClosedAll(t: T.Table, calls: set<CallId>, now: int): T.Table {
    T.Table(t.open, map c | c in t.closed.Keys + calls :: if c in calls then now else t.closed[c])
  }

  ghost function ReportedCalls(s: D.Storage, now: int): set<CallId> { set id | id in D.ReportedIds(s, now) :: s[id].callID }

  /** cleanupExpiredDialogs. */
  ghost function Expired(s: Life, now: int): Life {
    var calls := ReportedCalls(s.dialogs, now);
    Life(DroppedAll(s.who, calls), D.Kept(s.dialogs, now), ClosedAll(s.table, calls, now), s.offers, s.fas - calls)
  }

  // ---------------------------------------------------------------- runs

  datatype Action =
    | Request(key: T.TxKey, toTag: string, sdp: Option<seq<Media>>)
    | Response(p: Reply, lag: nat)
    | Bye(p: Reply)
    | Expire
    | SweepTransactions
    | ForgetOffers(gone: set<T.TxKey>)
    | ClearFas(calls: set<CallId>)
    | Learn(callID: CallId, alias: Endpoint)

  datatype Event = Event(at: int, action: Action)

  ghost predicate OwnsMedia(w: View, c: CallId) { exists k :: (c, k) in w.media }

  ghost function Step(s: Life, e: Event): Life {
    match e.action
    case Request(key, toTag, sdp) => Requested(s, key, toTag, sdp, e.at)
    case Response(p, lag) => Responded(s, p, e.at, lag)
    case Bye(p) => Ended(s, p, e.at)
    case Expire => Expired(s, e.at)
    case SweepTransactions => s.(table := T.Swept(s.table, e.at))
    case ForgetOffers(gone) => s.(offers := s.offers - gone)
    case ClearFas(calls) => s.(fas := s.fas - calls)
    case Learn(c, k) => if OwnsMedia(s.who, c) then s.(who := s.who.(aliases := s.who.aliases + {(c, k)})) else s
  }

  ghost function Before(s: Life, es: seq<Event>, n: nat): Life
    requires n <= |es|
  {
    if n == 0 then s else Step(Before(s, es, n - 1), es[n - 1])
  }

  // ---------------------------------------------------------------- every owner has a dialog

  ghost function Calls(w: View): set<CallId> { set p | p in w.media + w.rtcp + w.aliases :: p.0 }

  ghost function DialogCalls(s: D.Storage): set<CallId> { set id | id in s :: s[id].callID }

  /** The calls that own an endpoint or have a pending answer-supervision entry. */
  ghost function Traces(s: Life): set<CallId> { Calls(s.who) + s.fas }

  /** Each of them has an active dialog. */
  ghost predicate Covered(s: Life) { Traces(s) <= DialogCalls(s.dialogs) }

  /** The dialog kept under an identifier is that of call c. */
  predicate OwnId(s: D.Storage, id: string, c: CallId) { id in s ==> s[id].callID == c }

  /** A swept dialog was created before the sweep. */
  ghost predicate NoSilentDrop(s: D.Storage, now: int) { forall id :: id in s && D.Expires(s[id], now) ==> D.Reports(s[id], now) }

  lemma CallsRegistered(w: View, c: CallId, ms: seq<Media>)
    ensures Calls(Registered(w, c, ms)) <= Calls(w) + {c}
    ensures ms != [] ==> c in Calls(Registered(w, c, ms))
    ensures forall d :: d in Calls(w) && d !in Calls(Registered(w, c, ms)) ==> exists k :: (d, k) in w.aliases
  {
    var w' := Registered(w, c, ms);
    forall d | d in Calls(w') ensures d in Calls(w) + {c} {
      var p :| p in w'.media + w'.rtcp + w'.aliases && p.0 == d;
    }
    if ms != [] { assert ms[0] in ms; assert (c, ms[0].endpoint) in w'.media; }
    forall d | d in Calls(w) && d !in Calls(w') ensures exists k :: (d, k) in w.aliases {
      var p :| p in w.media + w.rtcp + w.aliases && p.0 == d;
      assert p !in w'.media + w'.rtcp + w'.aliases;
      assert (d, p.1) in w.aliases;
    }
  }

  lemma CallsRevision(w: View, c: CallId, offer: Option<seq<Media>>, answer: Option<seq<Media>>)
    ensures Calls(Revision(w, c, offer, answer)) <= Calls(w) + {c}
    ensures AnswerLines(offer) != [] || AnswerLines(answer) != [] ==> c in Calls(Revision(w, c, offer, answer))
  {
    var w1 := Registered(w, c, AnswerLines(offer));
    CallsRegistered(w, c, AnswerLines(offer));
    CallsRegistered(w1, c, AnswerLines(answer));
    if AnswerLines(offer) != [] {
      var k := AnswerLines(offer)[0].endpoint;
      assert AnswerLines(offer)[0] in AnswerLines(offer);
      assert (c, k) in w1.media;
      assert (c, k) in Revision(w, c, offer, answer).media;
    }
  }

  lemma CallsDropped(w: View, c: CallId)
    ensures Calls(Dropped(w, c)) == Calls(w) - {c}
  {
    forall d | d in Calls(w) - {c} ensures d in Calls(Dropped(w, c)) {
      var p :| p in w.media + w.rtcp + w.aliases && p.0 == d;
      assert p in Dropped(w, c).media + Dropped(w, c).rtcp + Dropped(w, c).aliases;
    }
    forall d | d in Calls(Dropped(w, c)) ensures d in Calls(w) - {c} {
      var p :| p in Dropped(w, c).media + Dropped(w, c).rtcp + Dropped(w, c).aliases && p.0 == d;
      assert p in w.media + w.rtcp + w.aliases;
    }
  }

  lemma CallsDroppedAll(w: View, calls: set<CallId>)
    ensures Calls(DroppedAll(w, calls)) == Calls(w) - calls
  {
    var w' := DroppedAll(w, calls);
    forall d | d in Calls(w) - calls ensures d in Calls(w') {
      var p :| p in w.media + w.rtcp + w.aliases && p.0 == d;
      assert p in w'.media + w'.rtcp + w'.aliases;
    }
    forall d | d in Calls(w') ensures d in Calls(w) - calls {
      var p :| p in w'.media + w'.rtcp + w'.aliases && p.0 == d;
      assert p in w.media + w.rtcp + w.aliases;
    }
  }

  lemma CreatedCalls(s: D.Storage, id: string, e: D.Entry)
    ensures DialogCalls(s) <= DialogCalls(D.Created(s, id, e))
    ensures OwnId(s, id, e.callID) ==> e.callID in DialogCalls(D.Created(s, id, e))
    ensures DialogCalls(D.Created(s, id, e)) <= DialogCalls(s) + {e.callID}
    ensures id in s ==> DialogCalls(D.Created(s, id, e)) == DialogCalls(s)
  {
    var s' := D.Created(s, id, e);
    forall c | c in DialogCalls(s) ensures c in DialogCalls(s') {
      var i :| i in s && s[i].callID == c;
      assert i in s' && s'[i].callID == c;
    }
    assert id in s';
  }

  lemma RefreshedCalls(s: D.Storage, id: string, at: int)
    ensures DialogCalls(D.Refreshed(s, id, at)) == DialogCalls(s)
    ensures id in s ==> s[id].callID in DialogCalls(s)
  {
    var s' := D.Refreshed(s, id, at);
    forall c ensures c in DialogCalls(s) <==> c in DialogCalls(s') {
      if c in DialogCalls(s) { var i :| i in s && s[i].callID == c; assert i in s' && s'[i].callID == c; }
      if c in DialogCalls(s') { var i :| i in s' && s'[i].callID == c; assert i in s && s[i].callID == c; }
    }
  }

  // ---------------------------------------------------------------- exactly when a step keeps that

  ghost predicate NamesMedia(s: Life, p: Reply) { AnswerLines(OfferOf(s.offers, p.key)) != [] || AnswerLines(p.sdp) != [] }

  /** Whether an answer leaves its call with a dialog: the identifier is free or the call's own, or the call has
      another dialog. */
  ghost predicate AnswerSafe(s: Life, id: string, p: Reply) {
    NamesMedia(s, p) ==> OwnId(s.dialogs, id, p.key.callID) || p.key.callID in DialogCalls(s.dialogs)
  }

  /** Whether a re-INVITE's answer does: the call has a dialog. */
  ghost predicate ReanswerSafe(s: Life, id: string, p: Reply) {
    id in s.dialogs && p.key in s.offers && NamesMedia(s, p) ==> p.key.callID in DialogCalls(s.dialogs)
  }

  /** Whether a BYE leaves everyone else with a dialog: the dialog it deletes is its call's own, or one of a call that
      owns nothing or has another. */
  ghost predicate ByeSafe(s: Life, id: string, c: CallId) {
    id in s.dialogs && s.dialogs[id].callID != c && s.dialogs[id].callID in Traces(s) ==>
      exists j :: j in s.dialogs && j != id && s.dialogs[j].callID == s.dialogs[id].callID
  }

  /** Whether a sweep does: a dialog it drops unreported is one of a call that owns nothing, or is reported for another
      dialog, or keeps another. */
  ghost predicate SweepSafe(s: Life, now: int) {
    forall id :: id in s.dialogs && D.Expires(s.dialogs[id], now) && !D.Reports(s.dialogs[id], now) && s.dialogs[id].callID in Traces(s) ==>
      s.dialogs[id].callID in ReportedCalls(s.dialogs, now) || s.dialogs[id].callID in DialogCalls(D.Kept(s.dialogs, now))
  }

  lemma AnsweredCoveredExactly(s: Life, id: string, p: Reply, now: int, lag: nat)
    requires Covered(s)
    ensures Covered(Answered(s, id, p, now, lag)) <==> AnswerSafe(s, id, p)
  {
    var c := p.key.callID;
    CallsRevision(s.who, c, OfferOf(s.offers, p.key), p.sdp);
    CreatedCalls(s.dialogs, id, NewDialog(p, now, lag));
    if !NamesMedia(s, p) { NothingRegistered(s.who, c); }
  }

  lemma NothingRegistered(w: View, c: CallId)
    ensures Registered(Registered(w, c, []), c, []) == w
  {}

  lemma ReansweredCoveredExactly(s: Life, id: string, p: Reply, now: int)
    requires Covered(s)
    ensures Covered(Reanswered(s, id, p, now)) <==> ReanswerSafe(s, id, p)
  {
    var c, offer := p.key.callID, OfferOf(s.offers, p.key);
    CallsDropped(s.who, c);
    CallsRevision(Dropped(s.who, c), c, offer, p.sdp);
    CallsRevision(Revision(Dropped(s.who, c), c, offer, p.sdp), c, offer, p.sdp);
    RefreshedCalls(s.dialogs, id, ExpiresAt(p, now));
    if !NamesMedia(s, p) { NothingRegistered(Dropped(s.who, c), c); }
  }

  lemma EndedCoveredExactly(s: Life, p: Reply, now: int)
    requires Covered(s)
    ensures Covered(Ended(s, p, now)) <==> (IdOf(p).Some? ==> ByeSafe(s, IdOf(p).value, p.key.callID))
  {
    var c := p.key.callID;
    CallsDropped(s.who, c);
    if IdOf(p).Some? {
      var id := IdOf(p).value;
      RemainingCalls(s.dialogs, id);
    }
  }

  lemma RemainingCalls(s: D.Storage, id: string)
    ensures forall d :: d in DialogCalls(s - {id}) <==>
              d in DialogCalls(s) && (id in s && s[id].callID == d ==> exists j :: j in s && j != id && s[j].callID == d)
  {
    forall d | d in DialogCalls(s) && (id in s && s[id].callID == d ==> exists j :: j in s && j != id && s[j].callID == d)
      ensures d in DialogCalls(s - {id})
    {
      var i :| i in s && s[i].callID == d;
      var j :| j in s && j != id && s[j].callID == d;
      assert j in s - {id};
    }
    forall d | d in DialogCalls(s - {id}) ensures d in DialogCalls(s) && exists j :: j in s && j != id && s[j].callID == d {
      var j :| j in s - {id} && (s - {id})[j].callID == d;
      assert j in s && s[j].callID == d;
    }
  }

  lemma ExpiredCoveredExactly(s: Life, now: int)
    requires Covered(s)
    ensures Covered(Expired(s, now)) <==> SweepSafe(s, now)
  {
    var reported, kept := ReportedCalls(s.dialogs, now), D.Kept(s.dialogs, now);
    CallsDroppedAll(s.who, reported);
    forall c | c in DialogCalls(s.dialogs) && c !in reported
      ensures c in DialogCalls(kept) || exists id :: id in s.dialogs && D.Expires(s.dialogs[id], now) && !D.Reports(s.dialogs[id], now) && s.dialogs[id].callID == c
    {
      var id :| id in s.dialogs && s.dialogs[id].callID == c;
      if D.Expires(s.dialogs[id], now) {
        assert id !in D.ReportedIds(s.dialogs, now);
      } else {
        assert id in kept;
      }
    }
    assert Traces(Expired(s, now)) == Traces(s) - reported;
  }

  /** Whether event e keeps every owner covered: conditions on the tables before it. */
  ghost predicate StepSafe(s: Life, e: Event) {
    match e.action
    case Response(p, _) =>
      T.Passes(s.table, p.key, p.status) && IdOf(p).Some? ==>
        if T.IsReinvite(s.table, p.key, Active(s.dialogs, IdOf(p))) then ReanswerSafe(s, IdOf(p).value, p)
        else AnswerSafe(s, IdOf(p).value, p)
    case Bye(p) => IdOf(p).Some? ==> ByeSafe(s, IdOf(p).value, p.key.callID)
    case Expire => SweepSafe(s, e.at)
    case _ => true
  }

  lemma RespondedCoveredExactly(s: Life, p: Reply, now: int, lag: nat)
    requires Covered(s)
    ensures Covered(Responded(s, p, now, lag)) <==> StepSafe(s, Event(now, Response(p, lag)))
  {
    var active := Active(s.dialogs, IdOf(p));
    var s1 := s.(table := T.Responded(s.table, p.key, p.status, active, now),
                 offers := if Failure(p.status) then s.offers - {p.key} else s.offers);
    if T.Passes(s.table, p.key, p.status) && IdOf(p).Some? {
      AnsweredCoveredExactly(s1, IdOf(p).value, p, now, lag);
      ReansweredCoveredExactly(s1, IdOf(p).value, p, now);
    }
  }

  lemma LearnCovered(s: Life, c: CallId, k: Endpoint)
    requires OwnsMedia(s.who, c)
    ensures Traces(s.(who := s.who.(aliases := s.who.aliases + {(c, k)}))) == Traces(s)
  {
    var w' := s.who.(aliases := s.who.aliases + {(c, k)});
    forall d ensures d in Calls(w') <==> d in Calls(s.who) {
      if d in Calls(w') {
        var p :| p in w'.media + w'.rtcp + w'.aliases && p.0 == d;
        if p == (c, k) { var j :| (c, j) in s.who.media; assert (c, j) in s.who.media + s.who.rtcp + s.who.aliases; }
        else { assert p in s.who.media + s.who.rtcp + s.who.aliases; }
      }
      if d in Calls(s.who) {
        var p :| p in s.who.media + s.who.rtcp + s.who.aliases && p.0 == d;
        assert p in w'.media + w'.rtcp + w'.aliases;
      }
    }
  }

  /** A step keeps every owner covered if and only if its condition holds. */
  lemma StepCoveredExactly(s: Life, e: Event)
    requires Covered(s)
    ensures Covered(Step(s, e)) <==> StepSafe(s, e)
  {
    match e.action
    case Response(p, lag) => RespondedCoveredExactly(s, p, e.at, lag);
    case Bye(p) => EndedCoveredExactly(s, p, e.at);
    case Expire => ExpiredCoveredExactly(s, e.at);
    case Learn(c, k) => if OwnsMedia(s.who, c) { LearnCovered(s, c, k); }
    case _ =>
  }

  /** The conditions of the first n events, each where it happens. */
  ghost predicate SafeRun(s: Life, es: seq<Event>, n: nat)
    requires n <= |es|
  {
    n == 0 || (SafeRun(s, es, n - 1) && StepSafe(Before(s, es, n - 1), es[n - 1]))
  }

  ghost predicate CoveredUpTo(s: Life, es: seq<Event>, n: nat)
    requires n <= |es|
  {
    Covered(Before(s, es, n)) && (n == 0 || CoveredUpTo(s, es, n - 1))
  }

  lemma NewbornCovered()
    ensures Covered(NEWBORN)
  {
    assert Calls(NEWBORN.who) == {};
  }

  /** Over every run of requests, answers, re-INVITEs, BYEs, expiry and learning: every call that owns an endpoint or is
      under answer supervision has an active dialog all along, if and only if each step meets its condition. */
  lemma {:induction false} EveryOwnerHasADialog(es: seq<Event>, n: nat)
    requires n <= |es|
    ensures CoveredUpTo(NEWBORN, es, n) <==> SafeRun(NEWBORN, es, n)
  {
    if n == 0 {
      NewbornCovered();
    } else {
      EveryOwnerHasADialog(es, n - 1);
      if CoveredUpTo(NEWBORN, es, n - 1) { StepCoveredExactly(Before(NEWBORN, es, n - 1), es[n - 1]); }
    }
  }

  // ---------------------------------------------------------------- identifiers over a run

  /** Every dialog is kept under an identifier made from its own Call-ID and two tags without a colon. */
  predicate MadeFrom(id: string, c: CallId, a: string, b: string) {
    D.ColonFree(a) && D.ColonFree(b) && D.DialogId(c, a, b) == Some(id)
  }

  ghost predicate IdsOk(s: D.Storage) { forall id :: id in s ==> exists a, b :: MadeFrom(id, s[id].callID, a, b) }

  predicate TagsClean(p: Reply) { D.ColonFree(p.key.fromTag) && D.ColonFree(p.toTag) }

  lemma CleanTagsOwnTheirId(s: D.Storage, p: Reply)
    requires IdsOk(s) && TagsClean(p) && IdOf(p).Some?
    ensures OwnId(s, IdOf(p).value, p.key.callID)
  {
    var id := IdOf(p).value;
    if id in s {
      var a, b :| MadeFrom(id, s[id].callID, a, b);
      D.DialogIdInjective(s[id].callID, a, b, p.key.callID, p.key.fromTag, p.toTag);
    }
  }

  /** The assumptions on one event: tags hold no colon, and no dialog is swept at or before its creation. */
  ghost predicate Fair(s: Life, e: Event) {
    match e.action
    case Response(p, _) => TagsClean(p)
    case Bye(p) => TagsClean(p)
    case Expire => NoSilentDrop(s.dialogs, e.at)
    case _ => true
  }

  lemma IdsKept(s: Life, e: Event)
    requires IdsOk(s.dialogs) && Fair(s, e)
    ensures IdsOk(Step(s, e).dialogs)
  {
    var s' := Step(s, e).dialogs;
    forall id | id in s' ensures exists a, b :: MadeFrom(id, s'[id].callID, a, b) {
      if id in s.dialogs {
        var a, b :| MadeFrom(id, s.dialogs[id].callID, a, b);
        assert MadeFrom(id, s'[id].callID, a, b);
      } else {
        var p := e.action.p;
        assert MadeFrom(id, p.key.callID, p.key.fromTag, p.toTag);
      }
    }
  }

  /** Without colons in tags and without silent drops every step meets its condition. */
  lemma FairIsSafe(s: Life, e: Event)
    requires Covered(s) && IdsOk(s.dialogs) && Fair(s, e)
    ensures StepSafe(s, e)
  {
    match e.action
    case Response(p, lag) => if IdOf(p).Some? { CleanTagsOwnTheirId(s.dialogs, p); OwnIdCovers(s.dialogs, IdOf(p).value, p.key.callID); }
    case Bye(p) => if IdOf(p).Some? { CleanTagsOwnTheirId(s.dialogs, p); }
    case Expire => assert SweepSafe(s, e.at);
    case _ =>
  }

  lemma OwnIdCovers(s: D.Storage, id: string, c: CallId)
    requires OwnId(s, id, c)
    ensures id in s ==> c in DialogCalls(s)
  {}

  /** The first n events are fair, each where it happens. */
  ghost predicate FairRun(s: Life, es: seq<Event>, n: nat)
    requires n <= |es|
  {
    n == 0 || (FairRun(s, es, n - 1) && Fair(Before(s, es, n - 1), es[n - 1]))
  }

  lemma FairStep(s: Life, e: Event)
    requires Covered(s) && IdsOk(s.dialogs) && Fair(s, e)
    ensures Covered(Step(s, e)) && IdsOk(Step(s, e).dialogs)
  {
    FairIsSafe(s, e);
    StepCoveredExactly(s, e);
    IdsKept(s, e);
  }

  lemma {:induction false} FairRunsAreCovered(es: seq<Event>, n: nat)
    requires n <= |es| && FairRun(NEWBORN, es, n)
    ensures Covered(Before(NEWBORN, es, n)) && IdsOk(Before(NEWBORN, es, n).dialogs)
  {
    if n == 0 {
      NewbornCovered();
    } else {
      FairRunsAreCovered(es, n - 1);
      FairStep(Before(NEWBORN, es, n - 1), es[n - 1]);
    }
  }

  // ---------------------------------------------------------------- sweeping dialogs

  /** The time an answer names is at least the time between its two readings of the clock. */
  predicate Polite(e: Event) { e.action.Response? ==> e.action.lag <= DurationOf(e.action.p) }

  /** So it is with any Session-Expires that is not negative and does not wrap, if the clock is read twice in a second. */
  lemma OrdinaryIsPolite(e: Event)
    requires e.action.Response? ==> 0 <= e.action.p.sessionExpires <= MAX_SECONDS && e.action.lag <= SECOND
    ensures Polite(e)
  {
    if e.action.Response? { DurationSigns(e.action.p); }
  }

  function End(e: Event): int { if e.action.Response? then e.at + e.action.lag else e.at }

  /** The clock does not run backwards, and an event has read it for the last time before the next one does. */
  ghost predicate Timed(es: seq<Event>) { forall i, j :: 0 <= i < j < |es| ==> End(es[i]) <= es[j].at }

  /** Dialogs run out no earlier than they were created, and were created by now. */
  ghost predicate Lasting(s: D.Storage, now: int) {
    forall id :: id in s ==> s[id].createdAt <= s[id].expiresAt && s[id].createdAt <= now
  }

  lemma LastingReports(s: D.Storage, earlier: int, now: int)
    requires Lasting(s, earlier)
    ensures NoSilentDrop(s, now)
  {}

  lemma LastingAnswer(s: Life, p: Reply, now: int, lag: nat, earlier: int)
    requires Lasting(s.dialogs, earlier) && earlier <= now && lag <= DurationOf(p)
    ensures Lasting(Responded(s, p, now, lag).dialogs, now + lag)
  {}

  lemma LastingStep(s: Life, e: Event, earlier: int)
    requires Lasting(s.dialogs, earlier) && earlier <= e.at && Polite(e)
    ensures Lasting(Step(s, e).dialogs, End(e))
  {
    if e.action.Response? { LastingAnswer(s, e.action.p, e.at, e.action.lag, earlier); }
  }

  lemma {:induction false} LastingRun(es: seq<Event>, n: nat)
    requires n <= |es| && Timed(es) && forall i :: 0 <= i < |es| ==> Polite(es[i])
    ensures n > 0 ==> Lasting(Before(NEWBORN, es, n).dialogs, End(es[n - 1]))
    ensures forall now :: NoSilentDrop(Before(NEWBORN, es, n).dialogs, now)
  {
    if n > 0 {
      LastingRun(es, n - 1);
      if n == 1 {
        assert Before(NEWBORN, es, 0) == NEWBORN;
        LastingStep(NEWBORN, es[0], es[0].at);
      } else {
        LastingStep(Before(NEWBORN, es, n - 1), es[n - 1], End(es[n - 2]));
      }
      forall now ensures NoSilentDrop(Before(NEWBORN, es, n).dialogs, now) {
        LastingReports(Before(NEWBORN, es, n).dialogs, End(es[n - 1]), now);
      }
    }
  }

  predicate Clean(e: Event) {
    match e.action
    case Response(p, _) => TagsClean(p)
    case Bye(p) => TagsClean(p)
    case _ => true
  }

  lemma {:induction false} CleanIsFair(es: seq<Event>, n: nat)
    requires n <= |es| && Timed(es) && forall i :: 0 <= i < |es| ==> Polite(es[i]) && Clean(es[i])
    ensures FairRun(NEWBORN, es, n)
  {
    if n > 0 {
      CleanIsFair(es, n - 1);
      LastingRun(es, n - 1);
    }
  }

  /** Conditions on the input only: tags without colons, and no answer that names less time than passes between its two
      readings of the clock. */
  lemma CoveredOnCleanInput(es: seq<Event>, n: nat)
    requires n <= |es| && Timed(es) && forall i :: 0 <= i < |es| ==> Polite(es[i]) && Clean(es[i])
    ensures Covered(Before(NEWBORN, es, n))
  {
    CleanIsFair(es, n);
    FairRunsAreCovered(es, n);
  }

  /** A dialog that is swept unreported leaves its call's media without a dialog, if it was the only one. */
  lemma SilentDropUncovers(s: Life, id: string, now: int)
    requires id in s.dialogs && D.Expires(s.dialogs[id], now) && !D.Reports(s.dialogs[id], now)
    requires s.dialogs[id].callID in Calls(s.who)
    requires forall i :: i in s.dialogs && s.dialogs[i].callID == s.dialogs[id].callID ==> i == id
    ensures !Covered(Expired(s, now))
  {
    var c := s.dialogs[id].callID;
    CallsDroppedAll(s.who, ReportedCalls(s.dialogs, now));
    assert c !in ReportedCalls(s.dialogs, now);
    assert c !in DialogCalls(D.Kept(s.dialogs, now));
  }

  /** The first call ever seen, answered with media. */
  lemma FirstAnswer(p: Reply, now: int, lag: nat)
    requires p.status == "200" && IdOf(p).Some? && AnswerLines(p.sdp) != []
    ensures var s := Responded(NEWBORN, p, now, lag);
            && s.dialogs == map[IdOf(p).value := NewDialog(p, now, lag)] && s.offers == map[]
            && s.table.open.Keys == {p.key} && s.table.closed == map[] && p.key.callID in Calls(s.who)
  {
    CallsRevision(NEWBORN.who, p.key.callID, None, p.sdp);
  }

  lemma FirstAnswerCovered(p: Reply, now: int, lag: nat)
    requires p.status == "200" && IdOf(p).Some?
    ensures Covered(Responded(NEWBORN, p, now, lag))
  {
    NewbornCovered();
    RespondedCoveredExactly(NEWBORN, p, now, lag);
  }

  /** Some sweep after its creation can lose a dialog, leaving its media registered without it, if and only if the named
      time, as the 64-bit product gives it, is less than the time between the two readings of the clock; at no distance
      between them, if and only if the product is negative. */
  lemma SweepLosesExactly(p: Reply, now: int, lag: nat)
    requires p.status == "200" && IdOf(p).Some? && AnswerLines(p.sdp) != []
    ensures (exists t :: t >= now + lag && !Covered(Expired(Responded(NEWBORN, p, now, lag), t))) <==> DurationOf(p) < lag
  {
    var s, id := Responded(NEWBORN, p, now, lag), IdOf(p).value;
    FirstAnswer(p, now, lag);
    FirstAnswerCovered(p, now, lag);
    if DurationOf(p) < lag {
      SilentDropUncovers(s, id, now + lag);
    } else {
      forall t | t >= now + lag ensures Covered(Expired(s, t)) { ExpiredCoveredExactly(s, t); }
    }
  }

  /** Any negative Session-Expires does it, and any from one past the largest that does not wrap. */
  lemma NegativeExpiryUncovers(p: Reply, now: int)
    requires p.status == "200" && IdOf(p).Some? && AnswerLines(p.sdp) != []
    requires -MAX_SECONDS <= p.sessionExpires < 0 || MAX_SECONDS < p.sessionExpires < 2 * MAX_SECONDS
    ensures !Covered(Expired(Responded(NEWBORN, p, now, 0), now))
  {
    DurationSigns(p);
    FirstAnswer(p, now, 0);
    SilentDropUncovers(Responded(NEWBORN, p, now, 0), IdOf(p).value, now);
  }

  /** Two calls with one identifier: the second, begun by an INVITE and answered, registers media without a dialog. */
  lemma SharedIdUncovers(p: Reply, q: Reply, now: int, lag: nat, now': int, lag': nat)
    requires p.status == "200" && IdOf(p).Some? && AnswerLines(p.sdp) != []
    requires q.status == "200" && IdOf(q) == IdOf(p) && AnswerLines(q.sdp) != [] && q.key.callID != p.key.callID
    ensures var s := Responded(NEWBORN, p, now, lag);
            !Covered(Responded(Requested(s, q.key, "", None, now'), q, now', lag'))
  {
    FirstAnswer(p, now, lag);
    var s := Requested(Responded(NEWBORN, p, now, lag), q.key, "", None, now');
    assert q.key != p.key;
    assert s.table.open[q.key] == T.Tx(false, false, now');
    SecondAnswer(s, p, q, now', lag');
  }

  lemma SecondAnswer(s: Life, p: Reply, q: Reply, now: int, lag: nat)
    requires IdOf(p).Some? && IdOf(q) == IdOf(p) && q.status == "200" && AnswerLines(q.sdp) != [] && q.key.callID != p.key.callID
    requires s.dialogs.Keys == {IdOf(p).value} && s.dialogs[IdOf(p).value].callID == p.key.callID
    requires q.key in s.table.open && !s.table.open[q.key].final && !s.table.open[q.key].reinvite
    ensures !Covered(Responded(s, q, now, lag))
  {
    CallsRevision(s.who, q.key.callID, OfferOf(s.offers, q.key), q.sdp);
    CreatedCalls(s.dialogs, IdOf(p).value, NewDialog(q, now, lag));
    assert DialogCalls(s.dialogs) == {p.key.callID};
  }

  /** A BYE of the second call deletes the dialog of the first, whose media stay registered without it. */
  lemma SharedByeUncovers(p: Reply, q: Reply, now: int, lag: nat, now': int)
    requires p.status == "200" && IdOf(p).Some? && AnswerLines(p.sdp) != []
    requires IdOf(q) == IdOf(p) && q.key.callID != p.key.callID
    ensures !Covered(Ended(Responded(NEWBORN, p, now, lag), q, now'))
  {
    FirstAnswer(p, now, lag);
    FirstAnswerCovered(p, now, lag);
    EndedCoveredExactly(Responded(NEWBORN, p, now, lag), q, now');
  }

  /** A re-INVITE of the second call, with an offer, refreshes the dialog of the first and registers media without one. */
  lemma SharedReinviteUncovers(p: Reply, q: Reply, offer: seq<Media>, now: int, lag: nat, now': int, lag': nat)
    requires p.status == "200" && IdOf(p).Some? && AnswerLines(p.sdp) != []
    requires q.status == "200" && IdOf(q) == IdOf(p) && q.key.callID != p.key.callID && offer != []
    ensures var s := Responded(NEWBORN, p, now, lag);
            !Covered(Responded(Requested(s, q.key, q.toTag, Some(offer), now'), q, now', lag'))
  {
    FirstAnswer(p, now, lag);
    FirstAnswerCovered(p, now, lag);
    var s := Requested(Responded(NEWBORN, p, now, lag), q.key, q.toTag, Some(offer), now');
    assert q.key != p.key;
    assert s.table.open[q.key] == T.Tx(true, false, now');
    SecondReanswer(s, p, q, now', lag');
  }

  lemma SecondReanswer(s: Life, p: Reply, q: Reply, now: int, lag: nat)
    requires Covered(s) && IdOf(p).Some? && IdOf(q) == IdOf(p) && q.status == "200" && q.key.callID != p.key.callID
    requires s.dialogs.Keys == {IdOf(p).value} && s.dialogs[IdOf(p).value].callID == p.key.callID
    requires q.key in s.table.open && !s.table.open[q.key].final && s.table.open[q.key].reinvite
    requires q.key in s.offers && s.offers[q.key] != []
    ensures !Covered(Responded(s, q, now, lag))
  {
    RespondedCoveredExactly(s, q, now, lag);
    assert DialogCalls(s.dialogs) == {p.key.callID};
  }

  /** Such calls exist when a tag holds a colon. */
  lemma SharedIdsExist(media: seq<Media>)
    requires media != []
    ensures exists p: Reply, q: Reply :: p.status == "200" == q.status && IdOf(p).Some? && IdOf(q) == IdOf(p) && q.key.callID != p.key.callID
                           && AnswerLines(p.sdp) == media == AnswerLines(q.sdp)
  {
    var p := Reply(T.TxKey("x", "1", "1"), "2:3", "200", 0, Some(media), D.NO_INFO);
    var q := Reply(T.TxKey("x:1", "1", "2"), "3", "200", 0, Some(media), D.NO_INFO);
    D.ColonTagsCollide();
    assert |p.key.callID| != |q.key.callID|;
    assert p.status == "200" == q.status && IdOf(p).Some? && IdOf(q) == IdOf(p) && q.key.callID != p.key.callID;
  }

  // ---------------------------------------------------------------- a sweep in several steps

  /** The sweep drops expired dialogs first and then lets go of the media of one reported call after the other.  In
      between, packets may be handled that need no dialog lock: an alias is learned, an INVITE request is seen, a
      supervision entry is cleared. */
  datatype Meanwhile = LetGoOf(callID: CallId) | Other(e: Event)

  predicate NeedsNoDialogLock(e: Event) { e.action.Learn? || e.action.Request? || e.action.ClearFas? }

  ghost function MeanwhileStep(s: Life, m: Meanwhile, now: int): Life
    requires m.Other? ==> NeedsNoDialogLock(m.e)
  {
    match m
    case LetGoOf(c) => s.(who := Dropped(s.who, c), table := T.Closed(s.table, c, now), fas := s.fas - {c})
    case Other(e) => Step(s, e)
  }

  ghost function SweepSteps(s: Life, ms: seq<Meanwhile>, now: int): Life
    requires forall i :: 0 <= i < |ms| && ms[i].Other? ==> NeedsNoDialogLock(ms[i].e)
  {
    if ms == [] then s.(dialogs := D.Kept(s.dialogs, now))
    else MeanwhileStep(SweepSteps(s, ms[..|ms| - 1], now), ms[|ms| - 1], now)
  }

  function LetGoCalls(ms: seq<Meanwhile>): set<CallId> { set m | m in ms && m.LetGoOf? :: m.callID }

  lemma MeanwhileTraces(s: Life, m: Meanwhile, now: int)
    requires m.Other? ==> NeedsNoDialogLock(m.e)
    ensures Traces(MeanwhileStep(s, m, now)) <= Traces(s) - (if m.LetGoOf? then {m.callID} else {})
    ensures MeanwhileStep(s, m, now).dialogs == s.dialogs
  {
    match m
    case LetGoOf(c) => CallsDropped(s.who, c);
    case Other(e) => if e.action.Learn? && OwnsMedia(s.who, e.action.callID) { LearnCovered(s, e.action.callID, e.action.alias); }
  }

  lemma {:induction false} SweepTraces(s: Life, ms: seq<Meanwhile>, now: int)
    requires forall i :: 0 <= i < |ms| && ms[i].Other? ==> NeedsNoDialogLock(ms[i].e)
    ensures Traces(SweepSteps(s, ms, now)) <= Traces(s) - LetGoCalls(ms)
    ensures SweepSteps(s, ms, now).dialogs == D.Kept(s.dialogs, now)
  {
    if ms == [] {
      assert LetGoCalls(ms) == {};
    } else {
      var before, m := ms[..|ms| - 1], ms[|ms| - 1];
      SweepTraces(s, before, now);
      MeanwhileTraces(SweepSteps(s, before, now), m, now);
      assert ms == before + [m];
      assert LetGoCalls(ms) == LetGoCalls(before) + if m.LetGoOf? then {m.callID} else {};
    }
  }

  /** Whatever happens between its steps, a sweep that meets its condition and lets go of every reported call leaves every
      owner with a dialog: in particular no alias learned on the way outlives its call. */
  lemma SweepInStepsCovered(s: Life, ms: seq<Meanwhile>, now: int)
    requires forall i :: 0 <= i < |ms| && ms[i].Other? ==> NeedsNoDialogLock(ms[i].e)
    requires Covered(s) && SweepSafe(s, now) && ReportedCalls(s.dialogs, now) <= LetGoCalls(ms)
    ensures Covered(SweepSteps(s, ms, now)) && Traces(SweepSteps(s, ms, now)) !! ReportedCalls(s.dialogs, now)
  {
    SweepTraces(s, ms, now);
    ExpiredCoveredExactly(s, now);
    CallsDroppedAll(s.who, ReportedCalls(s.dialogs, now));
    assert Traces(Expired(s, now)) == Traces(s) - ReportedCalls(s.dialogs, now);
  }

  // ---------------------------------------------------------------- after teardown

  lemma AnsweredAdds(s: Life, id: string, p: Reply, now: int, lag: nat, c: CallId)
    requires c !in Traces(s) && c in Traces(Answered(s, id, p, now, lag))
    ensures p.key.callID == c
  {
    CallsRevision(s.who, p.key.callID, OfferOf(s.offers, p.key), p.sdp);
  }

  lemma ReansweredAdds(s: Life, id: string, p: Reply, now: int, c: CallId)
    requires c !in Traces(s) && c in Traces(Reanswered(s, id, p, now))
    ensures p.key.callID == c
  {
    var d, offer := p.key.callID, OfferOf(s.offers, p.key);
    CallsDropped(s.who, d);
    CallsRevision(Dropped(s.who, d), d, offer, p.sdp);
    CallsRevision(Revision(Dropped(s.who, d), d, offer, p.sdp), d, offer, p.sdp);
  }

  lemma ResponseAdds(s: Life, p: Reply, now: int, lag: nat, c: CallId)
    requires c !in Traces(s) && c in Traces(Responded(s, p, now, lag))
    ensures p.key.callID == c && T.Passes(s.table, p.key, p.status)
  {
    var active := Active(s.dialogs, IdOf(p));
    var s1 := s.(table := T.Responded(s.table, p.key, p.status, active, now),
                 offers := if Failure(p.status) then s.offers - {p.key} else s.offers);
    if T.Passes(s.table, p.key, p.status) && IdOf(p).Some? {
      if T.IsReinvite(s.table, p.key, active) {
        ReansweredAdds(s1, IdOf(p).value, p, now, c);
      } else {
        AnsweredAdds(s1, IdOf(p).value, p, now, lag, c);
      }
    }
  }

  /** Only a 200 OK that still counts brings anything of a call into being. */
  lemma OnlyAnswersAdd(s: Life, e: Event, c: CallId)
    requires c !in Traces(s) && c in Traces(Step(s, e))
    ensures e.action.Response? && e.action.p.key.callID == c && T.Passes(s.table, e.action.p.key, e.action.p.status)
  {
    match e.action
    case Response(p, lag) => ResponseAdds(s, p, e.at, lag, c);
    case Bye(p) => CallsDropped(s.who, p.key.callID);
    case Expire => CallsDroppedAll(s.who, ReportedCalls(s.dialogs, e.at));
    case Learn(d, k) => if OwnsMedia(s.who, d) { LearnAdds(s.who, d, k, c); }
    case _ =>
  }

  lemma LearnAdds(w: View, d: CallId, k: Endpoint, c: CallId)
    requires OwnsMedia(w, d) && c !in Calls(w)
    ensures c !in Calls(w.(aliases := w.aliases + {(d, k)}))
  {
    var j :| (d, j) in w.media;
    assert (d, j) in w.media + w.rtcp + w.aliases;
    if c in Calls(w.(aliases := w.aliases + {(d, k)})) { AliasCalls(w, d, k, c); }
  }

  lemma AliasCalls(w: View, d: CallId, k: Endpoint, c: CallId)
    requires c in Calls(w.(aliases := w.aliases + {(d, k)}))
    ensures c in Calls(w) || c == d
  {
    var w' := w.(aliases := w.aliases + {(d, k)});
    var p :| p in w'.media + w'.rtcp + w'.aliases && p.0 == c;
    if p != (d, k) { assert p in w.media + w.rtcp + w.aliases; }
  }

  /** Event i tears call c down: a BYE for one of its dialogs is answered, or one of them is swept and reported. */
  ghost predicate TearsDown(s: Life, e: Event, c: CallId) {
    match e.action
    case Bye(p) => p.key.callID == c && IdOf(p).Some?
    case Expire => c in ReportedCalls(s.dialogs, e.at)
    case _ => false
  }

  lemma TornDown(s: Life, e: Event, c: CallId)
    requires TearsDown(s, e, c)
    ensures c !in Traces(Step(s, e)) && c in Step(s, e).table.closed && Step(s, e).table.closed[c] == e.at
  {
    CallsDropped(s.who, c);
    CallsDroppedAll(s.who, ReportedCalls(s.dialogs, e.at));
  }

  ghost predicate SweptBetween(es: seq<Event>, i: nat, j: nat, since: int) {
    exists k :: i < k < j && k < |es| && es[k].action.SweepTransactions? && T.Expired(since, es[k].at)
  }

  lemma TombstoneStep(s: Life, e: Event, c: CallId, since: int)
    requires c in s.table.closed && since <= s.table.closed[c] && since <= e.at
    requires e.action.SweepTransactions? ==> !T.Expired(since, e.at)
    ensures c in Step(s, e).table.closed && since <= Step(s, e).table.closed[c]
  {}

  lemma {:induction false} TombstoneStands(s: Life, es: seq<Event>, i: nat, j: nat, c: CallId)
    requires i < j <= |es| && Timed(es) && TearsDown(Before(s, es, i), es[i], c) && !SweptBetween(es, i, j, es[i].at)
    ensures c in Before(s, es, j).table.closed && es[i].at <= Before(s, es, j).table.closed[c]
    decreases j
  {
    if j == i + 1 {
      TornDown(Before(s, es, i), es[i], c);
    } else {
      TombstoneStands(s, es, i, j - 1, c);
      assert !(i < j - 1 < j && es[j - 1].action.SweepTransactions? && T.Expired(es[i].at, es[j - 1].at));
      TombstoneStep(Before(s, es, j - 1), es[j - 1], c, es[i].at);
    }
  }

  /** e is a 200 OK of call c to a transaction that was opened and is still waiting for its final response. */
  predicate Answers(open: map<T.TxKey, T.Tx>, e: Event, c: CallId) {
    && e.action.Response? && e.action.p.key.callID == c && e.action.p.status == "200"
    && e.action.p.key in open && !open[e.action.p.key].final
  }

  ghost predicate AnswersWaiting(s: Life, es: seq<Event>, m: nat, c: CallId)
    requires m < |es|
  {
    Answers(Before(s, es, m).table.open, es[m], c)
  }

  lemma OnlyWaitingAdds(s: Life, e: Event, c: CallId)
    requires c !in Traces(s) && c in Traces(Step(s, e)) && c in s.table.closed
    ensures Answers(s.table.open, e, c)
  {
    OnlyAnswersAdd(s, e, c);
  }

  /** What is false first and true later turns true at some step. */
  lemma {:induction false} TurnsTrue(f: nat -> bool, i: nat, j: nat) returns (m: nat)
    requires i <= j && !f(i) && f(j)
    ensures i <= m < j && !f(m) && f(m + 1)
    decreases j - i
  {
    if f(i + 1) { m := i; } else { m := TurnsTrue(f, i + 1, j); }
  }

  ghost predicate TracedAt(s: Life, es: seq<Event>, c: CallId, n: nat) { n <= |es| && c in Traces(Before(s, es, n)) }

  lemma ComesBack(s: Life, es: seq<Event>, c: CallId, i: nat, j: nat) returns (m: nat)
    requires i <= j && !TracedAt(s, es, c, i) && TracedAt(s, es, c, j)
    ensures i <= m < j && !TracedAt(s, es, c, m) && TracedAt(s, es, c, m + 1)
  {
    m := TurnsTrue((n: nat) => TracedAt(s, es, c, n), i, j);
  }

  lemma BackByAnswer(s: Life, es: seq<Event>, c: CallId, m: nat)
    requires !TracedAt(s, es, c, m) && TracedAt(s, es, c, m + 1) && c in Before(s, es, m).table.closed
    ensures AnswersWaiting(s, es, m, c)
  {
    OnlyWaitingAdds(Before(s, es, m), es[m], c);
  }

  lemma DownAtFirst(s: Life, es: seq<Event>, i: nat, c: CallId)
    requires i < |es| && TearsDown(Before(s, es, i), es[i], c)
    ensures !TracedAt(s, es, c, i + 1)
  {
    TornDown(Before(s, es, i), es[i], c);
  }

  /** A torn-down call stays down: while its tombstone stands, nothing of it comes back unless a transaction that was
      opened and had no final response is answered. */
  lemma StaysDown(s: Life, es: seq<Event>, i: nat, j: nat, c: CallId)
    requires i < j <= |es| && Timed(es) && TearsDown(Before(s, es, i), es[i], c) && !SweptBetween(es, i, j, es[i].at)
    requires TracedAt(s, es, c, j)
    ensures exists m :: i < m < j && AnswersWaiting(s, es, m, c)
  {
    DownAtFirst(s, es, i, c);
    var m := ComesBack(s, es, c, i + 1, j);
    TombstoneStands(s, es, i, m, c);
    BackByAnswer(s, es, c, m);
  }

  lemma WaitingStep(s: Life, e: Event, key: T.TxKey)
    requires key in Step(s, e).table.open && !Step(s, e).table.open[key].final
    ensures (key in s.table.open && !s.table.open[key].final) || (e.action.Request? && e.action.key == key)
  {}

  /** ... and every waiting transaction was opened by a request. */
  lemma {:induction false} WaitingWasRequested(es: seq<Event>, n: nat, key: T.TxKey)
    requires n <= |es| && key in Before(NEWBORN, es, n).table.open && !Before(NEWBORN, es, n).table.open[key].final
    ensures exists r :: 0 <= r < n && es[r].action.Request? && es[r].action.key == key
  {
    if n > 0 {
      WaitingStep(Before(NEWBORN, es, n - 1), es[n - 1], key);
      if !(es[n - 1].action.Request? && es[n - 1].action.key == key) { WaitingWasRequested(es, n - 1, key); }
    }
  }
}
