/**
 Dialogs and session descriptions over whole runs: how long a dialog lasts and what its end tells, which answers count as
 those of a re-INVITE, and which media a call owns once it is answered.
 */
module DialogRuns {
  import opened Basics
  import opened Lifecycle
  import opened MediaLifecycle
  import opened Ownership
  import opened TrackerOps
  import D = Dialogs
  import T = Transactions

  // ---------------------------------------------------------------- how long a dialog lasts

  /** A 200 OK that counts, for the dialog kept under id. */
  ghost predicate AnswerFor(s: Life, e: Event, id: string) {
    e.action.Response? && IdOf(e.action.p) == Some(id) && T.Passes(s.table, e.action.p.key, e.action.p.status)
  }

  /** It answers a re-INVITE of an active dialog. */
  ghost predicate Refreshes(s: Life, e: Event, id: string) {
    AnswerFor(s, e, id) && T.IsReinvite(s.table, e.action.p.key, true) && id in s.dialogs
  }

  /** It answers an initial INVITE, and no dialog is kept under the identifier. */
  ghost predicate Creates(s: Life, e: Event, id: string) {
    AnswerFor(s, e, id) && !T.IsReinvite(s.table, e.action.p.key, false) && id !in s.dialogs
  }

  predicate ByeFor(e: Event, id: string) { e.action.Bye? && IdOf(e.action.p) == Some(id) }

  lemma AnswerDialogs(s: Life, p: Reply, now: int, lag: nat, id: string)
    ensures var s', e := Responded(s, p, now, lag), Event(now, Response(p, lag));
            && (id in s'.dialogs <==> id in s.dialogs || Creates(s, e, id))
            && (Creates(s, e, id) ==> s'.dialogs[id] == D.Entry(now + DurationOf(p), now + lag, p.key.callID, p.info))
            && (Refreshes(s, e, id) ==> s'.dialogs[id] == s.dialogs[id].(expiresAt := now + DurationOf(p)))
            && (id in s.dialogs && !Refreshes(s, e, id) ==> s'.dialogs[id] == s.dialogs[id])
  {}

  lemma OtherDialogs(s: Life, e: Event, id: string)
    requires !e.action.Response?
    ensures var s' := Step(s, e);
            && (id in s'.dialogs <==> id in s.dialogs && !ByeFor(e, id) && (e.action.Expire? ==> e.at <= s.dialogs[id].expiresAt))
            && (id in s'.dialogs ==> s'.dialogs[id] == s.dialogs[id])
  {}

  /** What a step does to the dialog under id. */
  lemma DialogStep(s: Life, e: Event, id: string)
    ensures var s' := Step(s, e);
            && (id in s'.dialogs <==>
                  Creates(s, e, id) || (id in s.dialogs && !ByeFor(e, id) && (e.action.Expire? ==> e.at <= s.dialogs[id].expiresAt)))
            && (Creates(s, e, id) ==> s'.dialogs[id] == D.Entry(e.at + DurationOf(e.action.p), e.at + e.action.lag, e.action.p.key.callID, e.action.p.info))
            && (Refreshes(s, e, id) ==> s'.dialogs[id] == s.dialogs[id].(expiresAt := e.at + DurationOf(e.action.p)))
            && (id in s'.dialogs && !Creates(s, e, id) && !Refreshes(s, e, id) ==> s'.dialogs[id] == s.dialogs[id])
  {
    match e.action
    case Response(p, lag) => AnswerDialogs(s, p, e.at, lag, id);
    case _ => OtherDialogs(s, e, id);
  }

  ghost predicate SetsTimeAt(s: Life, es: seq<Event>, i: nat, id: string) {
    i < |es| && (Creates(Before(s, es, i), es[i], id) || Refreshes(Before(s, es, i), es[i], id))
  }

  /** Between events i and j no BYE ends the dialog under id, and no other answer names a time for it. */
  ghost predicate LeftAlone(s: Life, es: seq<Event>, i: nat, j: nat, id: string) {
    forall k :: i < k < j && k < |es| ==> !SetsTimeAt(s, es, k, id) && !ByeFor(es[k], id)
  }

  /** Every sweep between events i and j comes no later than `end`. */
  ghost predicate SweptBy(es: seq<Event>, i: nat, j: nat, end: int) {
    forall k :: i < k < j && k < |es| && es[k].action.Expire? ==> es[k].at <= end
  }

  /** The answer to an INVITE or a re-INVITE keeps its dialog for the time it names, from then on: as long as no BYE ends
      the dialog and no other answer names a new time, it is there if and only if no sweep has come later than that. */
  lemma {:induction false} DialogLastsAsNamed(s: Life, es: seq<Event>, i: nat, j: nat, id: string)
    requires i < j <= |es| && SetsTimeAt(s, es, i, id) && LeftAlone(s, es, i, j, id)
    ensures var end := es[i].at + DurationOf(es[i].action.p);
            && (id in Before(s, es, j).dialogs <==> SweptBy(es, i, j, end))
            && (id in Before(s, es, j).dialogs ==> Before(s, es, j).dialogs[id].expiresAt == end)
    decreases j
  {
    DialogStep(Before(s, es, j - 1), es[j - 1], id);
    if j > i + 1 {
      DialogLastsAsNamed(s, es, i, j - 1, id);
      LastsOneMore(s, es, i, j, id, es[i].at + DurationOf(es[i].action.p));
    }
  }

  lemma LastsOneMore(s: Life, es: seq<Event>, i: nat, j: nat, id: string, end: int)
    requires i + 1 < j <= |es| && LeftAlone(s, es, i, j, id)
    ensures !SetsTimeAt(s, es, j - 1, id) && !ByeFor(es[j - 1], id)
    ensures SweptBy(es, i, j, end) <==> SweptBy(es, i, j - 1, end) && (es[j - 1].action.Expire? ==> es[j - 1].at <= end)
  {}

  /** In particular a re-INVITE's answer keeps the dialog through every sweep up to the time it names, even where the time
      named before has run out, and the first sweep after that removes it. */
  lemma ReinviteKeepsAlive(s: Life, es: seq<Event>, i: nat, n: nat, id: string)
    requires i < n < |es| && Refreshes(Before(s, es, i), es[i], id) && LeftAlone(s, es, i, n, id) && es[n].action.Expire?
    ensures var end := es[i].at + DurationOf(es[i].action.p);
            SweptBy(es, i, n, end) ==> id in Before(s, es, n).dialogs && (id in Before(s, es, n + 1).dialogs <==> es[n].at <= end)
  {
    DialogLastsAsNamed(s, es, i, n, id);
    DialogStep(Before(s, es, n), es[n], id);
  }

  /** The time that an answer names. */
  lemma NamedTime(p: Reply)
    ensures p.sessionExpires == 0 ==> DurationOf(p) == 1800 * 1_000_000_000
    ensures 0 < p.sessionExpires <= 9_223_372_036 ==> DurationOf(p) == p.sessionExpires * 1_000_000_000
  {}

  // ---------------------------------------------------------------- what the end of a dialog tells

  /** Whoever refreshes a dialog, its record tells of the answer that created it: when that was, its call and its labels. */
  lemma {:induction false} RecordIsOfItsAnswer(s: Life, es: seq<Event>, i: nat, j: nat, id: string)
    requires i < j <= |es| && Creates(Before(s, es, i), es[i], id)
    requires forall k :: i < k <= j ==> id in Before(s, es, k).dialogs
    ensures id in Before(s, es, j).dialogs
    ensures var d, e := Before(s, es, j).dialogs[id], es[i];
            d.createdAt == e.at + e.action.lag && d.callID == e.action.p.key.callID && d.info == e.action.p.info
    decreases j
  {
    DialogStep(Before(s, es, j - 1), es[j - 1], id);
    if j > i + 1 {
      RecordIsOfItsAnswer(s, es, i, j - 1, id);
      assert id in Before(s, es, j - 1).dialogs;
    }
  }

  /** So what its end tells is how long ago that was. */
  lemma EndTells(s: Life, es: seq<Event>, i: nat, j: nat, id: string, now: int)
    requires i < j <= |es| && Creates(Before(s, es, i), es[i], id)
    requires forall k :: i < k <= j ==> id in Before(s, es, k).dialogs
    ensures id in Before(s, es, j).dialogs
    ensures var r, e := D.EndOf(Before(s, es, j).dialogs[id], now), es[i];
            && r.callID == e.action.p.key.callID && r.info == e.action.p.info
            && r.duration == if now > e.at + e.action.lag then now - (e.at + e.action.lag) else 0
  {
    RecordIsOfItsAnswer(s, es, i, j, id);
  }

  // ---------------------------------------------------------------- which answers are those of re-INVITEs

  predicate RequestFor(e: Event, key: T.TxKey) { e.action.Request? && e.action.key == key }

  /** A final response to the transaction. */
  predicate FinalFor(e: Event, key: T.TxKey) { e.action.Response? && e.action.p.key == key && !T.Provisional(e.action.p.status) }

  /** A sweep of transactions that comes more than the TTL after `since`. */
  predicate LateSweep(e: Event, since: int) { e.action.SweepTransactions? && e.at - since > 60_000_000_000 }

  lemma WaitingStep(s: Life, e: Event, key: T.TxKey, tx: T.Tx)
    requires key in s.table.open && s.table.open[key] == tx && !tx.final
    requires !RequestFor(e, key) && !FinalFor(e, key) && !LateSweep(e, tx.timestamp)
    ensures key in Step(s, e).table.open && Step(s, e).table.open[key] == tx
  {}

  /** The record of a transaction says whether its dialog was active when it was requested, until it is answered. */
  lemma {:induction false} WaitsAsRequested(s: Life, es: seq<Event>, i: nat, j: nat, key: T.TxKey)
    requires i < j <= |es| && RequestFor(es[i], key) && !T.Settled(Before(s, es, i).table, key)
    requires forall k :: i < k < j ==> !RequestFor(es[k], key) && !FinalFor(es[k], key) && !LateSweep(es[k], es[i].at)
    ensures key in Before(s, es, j).table.open
    ensures Before(s, es, j).table.open[key]
            == T.Tx(Active(Before(s, es, i).dialogs, D.DialogId(key.callID, key.fromTag, es[i].action.toTag)), false, es[i].at)
    decreases j
  {
    if j > i + 1 {
      WaitsAsRequested(s, es, i, j - 1, key);
      WaitingStep(Before(s, es, j - 1), es[j - 1], key, Before(s, es, j - 1).table.open[key]);
    }
  }

  /** So its 200 OK counts, as that of a re-INVITE if and only if the dialog was active at the request, whatever has become
      of the dialog since, and whether or not the call has been closed. */
  lemma AnsweredAsRequested(s: Life, es: seq<Event>, i: nat, j: nat, key: T.TxKey, active: bool)
    requires i < j <= |es| && RequestFor(es[i], key) && !T.Settled(Before(s, es, i).table, key)
    requires forall k :: i < k < j ==> !RequestFor(es[k], key) && !FinalFor(es[k], key) && !LateSweep(es[k], es[i].at)
    ensures T.Passes(Before(s, es, j).table, key, "200")
    ensures T.IsReinvite(Before(s, es, j).table, key, active) <==>
              Active(Before(s, es, i).dialogs, D.DialogId(key.callID, key.fromTag, es[i].action.toTag))
  {
    WaitsAsRequested(s, es, i, j, key);
  }

  // ---------------------------------------------------------------- which media an answer registers

  /** Whether a step forgets, uses up or replaces the offer that is cached for a transaction. */
  ghost predicate TakesOffer(s: Life, e: Event, key: T.TxKey) {
    match e.action
    case Request(k, _, sdp) => k == key && sdp.Some?
    case Response(p, _) => p.key == key && (Failure(p.status) || T.Passes(s.table, key, p.status))
    case ForgetOffers(gone) => key in gone
    case _ => false
  }

  ghost predicate TakesOfferAt(s: Life, es: seq<Event>, k: nat, key: T.TxKey) { k < |es| && TakesOffer(Before(s, es, k), es[k], key) }

  lemma OfferStep(s: Life, e: Event, key: T.TxKey)
    requires !TakesOffer(s, e, key)
    ensures OfferOf(Step(s, e).offers, key) == OfferOf(s.offers, key)
  {}

  /** A failure forgets the offer. */
  lemma FailureForgets(s: Life, e: Event)
    requires e.action.Response? && |e.action.p.status| > 0 && e.action.p.status[0] >= '3'
    ensures e.action.p.key !in Step(s, e).offers && Step(s, e).who == s.who && Step(s, e).dialogs == s.dialogs
  {}

  /** The description of a request is at hand when it is answered. */
  lemma {:induction false} OfferStands(s: Life, es: seq<Event>, i: nat, j: nat, key: T.TxKey)
    requires i < j <= |es| && RequestFor(es[i], key) && es[i].action.sdp.Some?
    requires forall k: nat :: i < k < j ==> !TakesOfferAt(s, es, k, key)
    ensures OfferOf(Before(s, es, j).offers, key) == es[i].action.sdp
    decreases j
  {
    if j > i + 1 {
      OfferStands(s, es, i, j - 1, key);
      assert !TakesOfferAt(s, es, j - 1, key);
      OfferStep(Before(s, es, j - 1), es[j - 1], key);
    }
  }

  /** A line names k as its media endpoint; as its RTCP endpoint. */
  predicate Names(ms: seq<Media>, k: Endpoint) { exists m :: m in ms && m.endpoint == k }

  predicate NamesRtcp(ms: seq<Media>, k: Endpoint) { exists m :: m in ms && ResolveRtcp(m) == Some(k) }

  /** Call c owns what the lines name beside what it owned before, or instead of it; of other calls only aliases change,
      and those to the endpoints named. */
  ghost predicate Takes(w: View, w': View, c: CallId, ms: seq<Media>, instead: bool) {
    && (forall d, k :: (d, k) in w'.media <==> (d == c && Names(ms, k)) || ((d, k) in w.media && !(d == c && instead)))
    && (forall d, k :: (d, k) in w'.rtcp <==> (d == c && NamesRtcp(ms, k)) || ((d, k) in w.rtcp && !(d == c && instead)))
    && (forall d, k :: (d, k) in w'.aliases <==> (d, k) in w.aliases && !(d == c && instead) && !Names(ms, k))
  }

  lemma RegisteredTakes(w: View, c: CallId, ms: seq<Media>)
    ensures Takes(w, Registered(w, c, ms), c, ms, false)
  {
    var w' := Registered(w, c, ms);
    forall d, k ensures (d, k) in w'.media <==> (d == c && Names(ms, k)) || (d, k) in w.media {}
    forall d, k ensures (d, k) in w'.rtcp <==> (d == c && NamesRtcp(ms, k)) || (d, k) in w.rtcp {}
    forall d, k ensures (d, k) in w'.aliases <==> (d, k) in w.aliases && !Names(ms, k) {}
  }

  lemma DroppedTakes(w: View, w': View, c: CallId, ms: seq<Media>)
    requires Takes(Dropped(w, c), w', c, ms, false)
    ensures Takes(w, w', c, ms, true)
  {}

  /** The lines of the cached offer and those of the answer. */
  ghost function LinesOf(s: Life, p: Reply): seq<Media> { AnswerLines(OfferOf(s.offers, p.key)) + AnswerLines(p.sdp) }

  /** The answer to an initial INVITE adds the media of offer and answer to what its call owns, uses the offer up, and puts
      the call under answer supervision if it names media at all. */
  lemma AnswerRegisters(s: Life, e: Event)
    requires e.action.Response? && T.Passes(s.table, e.action.p.key, e.action.p.status) && IdOf(e.action.p).Some?
    requires !T.IsReinvite(s.table, e.action.p.key, Active(s.dialogs, IdOf(e.action.p)))
    ensures var s', p := Step(s, e), e.action.p;
            && Takes(s.who, s'.who, p.key.callID, LinesOf(s, p), false)
            && s'.offers == s.offers - {p.key}
            && s'.fas == if p.key.callID != "" && LinesOf(s, p) != [] then s.fas + {p.key.callID} else s.fas
  {
    var p := e.action.p;
    RegisterInTurn(s.who, p.key.callID, AnswerLines(OfferOf(s.offers, p.key)), AnswerLines(p.sdp));
    RegisteredTakes(s.who, p.key.callID, LinesOf(s, p));
  }

  /** The answer to a re-INVITE replaces them, if the offer is at hand, and else leaves them alone. */
  lemma ReinviteReplaces(s: Life, e: Event)
    requires e.action.Response? && IdOf(e.action.p).Some? && Refreshes(s, e, IdOf(e.action.p).value)
    ensures var s', p := Step(s, e), e.action.p;
            && s'.fas == s.fas && s'.offers == s.offers - {p.key}
            && (p.key in s.offers ==> Takes(s.who, s'.who, p.key.callID, LinesOf(s, p), true))
            && (p.key !in s.offers ==> s'.who == s.who)
  {
    var p := e.action.p;
    if p.key in s.offers {
      var w := Dropped(s.who, p.key.callID);
      RevisionTwice(w, p.key.callID, OfferOf(s.offers, p.key), p.sdp);
      RegisterInTurn(w, p.key.callID, AnswerLines(OfferOf(s.offers, p.key)), AnswerLines(p.sdp));
      RegisteredTakes(w, p.key.callID, LinesOf(s, p));
      DroppedTakes(s.who, Step(s, e).who, p.key.callID, LinesOf(s, p));
    } else {
      assert s.offers - {p.key} == s.offers;
    }
  }

  /** Nothing but its own teardown or re-INVITE takes an endpoint from a call. */
  lemma OnlyItsOwnRemoves(s: Life, e: Event, c: CallId, k: Endpoint)
    requires ((c, k) in s.who.media && (c, k) !in Step(s, e).who.media) || ((c, k) in s.who.rtcp && (c, k) !in Step(s, e).who.rtcp)
    ensures TearsDown(s, e, c)
         || (e.action.Response? && e.action.p.key.callID == c && IdOf(e.action.p).Some? && Refreshes(s, e, IdOf(e.action.p).value))
  {}
}
