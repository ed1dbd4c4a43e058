/**
 INVITE transactions: which final responses the exporter still acts on.  A transaction is one Call-ID, CSeq and
 From-tag; its first final response wins.  A call that has been torn down leaves a tombstone, so that a late or
 replayed response cannot revive it.
 */
module Transactions {
  type CallId = string

  const INVITE_TTL := 60_000_000_000

  datatype TxKey = TxKey(callID: CallId, cseqID: string, fromTag: string)

  datatype Tx = Tx(reinvite: bool, final: bool, timestamp: int)

  datatype Table = Table(open: map<TxKey, Tx>, closed: map<CallId, int>)

  /** How a response is classified: counted as a response to an initial INVITE, as one to a re-INVITE, and whether a
      200 OK may act on the dialog. */
  datatype Verdict = Verdict(invite: bool, reinvite: bool, process: bool)

  const REJECTED := Verdict(false, false, false)

  predicate Provisional(status: string) { |status| > 0 && status[0] == '1' }

  // ---------------------------------------------------------------- the operations as functions

  function Requested(t: Table, key: TxKey, reinvite: bool, now: int): Table {
    if key in t.open && t.open[key].final then t else t.(open := t.open[key := Tx(reinvite, false, now)])
  }

  /** A response to a torn-down call is rejected unless its transaction is still waiting for a final one. */
  predicate Buried(t: Table, key: TxKey) { key.callID in t.closed && (key !in t.open || t.open[key].final) }

  predicate Settled(t: Table, key: TxKey) { key in t.open && t.open[key].final }

  /** Whether the response belongs to a re-INVITE: as its request said, else as the dialog table says. */
  predicate IsReinvite(t: Table, key: TxKey, active: bool) { if key in t.open then t.open[key].reinvite else active }

  predicate Finalises(t: Table, key: TxKey, status: string) {
    !Buried(t, key) && !Provisional(status) && !Settled(t, key)
  }

  function Responded(t: Table, key: TxKey, status: string, active: bool, now: int): Table {
    if Finalises(t, key, status) then t.(open := t.open[key := Tx(IsReinvite(t, key, active), true, now)]) else t
  }

  predicate Passes(t: Table, key: TxKey, status: string) { Finalises(t, key, status) && status == "200" }

  function Closed(t: Table, c: CallId, now: int): Table { t.(closed := t.closed[c := now]) }

  predicate Expired(timestamp: int, now: int) { now - timestamp > INVITE_TTL }

  function Swept(t: Table, now: int): Table {
    Table(map key | key in t.open && !Expired(t.open[key].timestamp, now) :: t.open[key],
          map c | c in t.closed && !Expired(t.closed[c], now) :: t.closed[c])
  }

  // ---------------------------------------------------------------- the class

  class InviteTransactions {
    var open: map<TxKey, Tx>
    var closed: map<CallId, int>

    function Contents(): Table
      reads this
    {
      Table(open, closed)
    }

    constructor ()
      ensures Contents() == Table(map[], map[])
    {
      open, closed := map[], map[];
    }

    method ObserveRequest(key: TxKey, reinvite: bool, now: int)
      modifies this`open
      ensures Contents() == Requested(old(Contents()), key, reinvite, now)
      ensures key in open && (key in old(open) && old(open)[key].final ==> open == old(open))
      ensures !(key in old(open) && old(open)[key].final) ==> open == old(open)[key := Tx(reinvite, false, now)]
    {
      if key in open && open[key].final { return; }
      open := open[key := Tx(reinvite, false, now)];
    }

    /** classifyInviteResponse; `active` is whether the dialog of the response is known. */
    method Classify(key: TxKey, status: string, active: bool, now: int) returns (v: Verdict)
      modifies this`open
      ensures Contents() == Responded(old(Contents()), key, status, active, now)
      ensures v.process <==> Passes(old(Contents()), key, status)
      ensures |status| > 0 && status[0] == '1' ==> open == old(open) && !v.process
      ensures v.process ==> status == "200" && !(key in old(open) && old(open)[key].final)
      ensures !(key in old(open) && old(open)[key].final) && key.callID !in closed && status == "200" ==> v.process
      ensures Buried(old(Contents()), key) ==> v == REJECTED
      ensures !Buried(old(Contents()), key) && Provisional(status) ==>
                v.reinvite == (key in old(open) && old(open)[key].reinvite) && v.invite == !v.reinvite
      ensures !Buried(old(Contents()), key) && !Provisional(status) ==>
                v.reinvite == IsReinvite(old(Contents()), key, active) && v.invite == (!v.reinvite && !Settled(old(Contents()), key))
    {
      var ok := key in open;
      if key.callID in closed && (!ok || open[key].final) { return REJECTED; }
      var transaction := if ok then open[key] else Tx(active, false, 0);
      if Provisional(status) { return Verdict(!ok || !transaction.reinvite, ok && transaction.reinvite, false); }
      if ok && transaction.final { return Verdict(false, transaction.reinvite, false); }
      transaction := transaction.(final := true, timestamp := now);
      open := open[key := transaction];
      return Verdict(!transaction.reinvite, transaction.reinvite, status == "200");
    }

    method Close(c: CallId, now: int)
      modifies this`closed
      ensures Contents() == Closed(old(Contents()), c, now)
    {
      closed := closed[c := now];
    }

    method Cleanup(now: int)
      modifies this
      ensures Contents() == Swept(old(Contents()), now)
      ensures forall k :: k in open <==> k in old(open) && now - old(open)[k].timestamp <= 60_000_000_000
      ensures forall c :: c in closed <==> c in old(closed) && now - old(closed)[c] <= 60_000_000_000
    {
      var keys := open.Keys;
      while keys != {}
        invariant open.Keys <= old(open).Keys && keys <= open.Keys && closed == old(closed)
        invariant forall k :: k in old(open) && (k in keys || !Expired(old(open)[k].timestamp, now)) ==> k in open
        invariant forall k :: k in open ==> open[k] == old(open)[k] && (k in keys || !Expired(open[k].timestamp, now))
        decreases keys
      {
        var k :| k in keys;
        if now - open[k].timestamp > INVITE_TTL { open := open - {k}; }
        keys := keys - {k};
      }
      var calls := closed.Keys;
      ghost var swept := open;
      while calls != {}
        invariant open == swept && closed.Keys <= old(closed).Keys && calls <= closed.Keys
        invariant forall c :: c in old(closed) && (c in calls || !Expired(old(closed)[c], now)) ==> c in closed
        invariant forall c :: c in closed ==> closed[c] == old(closed)[c] && (c in calls || !Expired(closed[c], now))
        decreases calls
      {
        var c :| c in calls;
        if now - closed[c] > INVITE_TTL { closed := closed - {c}; }
        calls := calls - {c};
      }
    }
  }

  // ---------------------------------------------------------------- runs

  datatype Action =
    | Request(key: TxKey, reinvite: bool)
    | Response(key: TxKey, status: string, active: bool)
    | Close(callID: CallId)
    | Sweep

  datatype Event = Event(at: int, action: Action)

  function Step(t: Table, e: Event): Table {
    match e.action
    case Request(key, reinvite) => Requested(t, key, reinvite, e.at)
    case Response(key, status, active) => Responded(t, key, status, active, e.at)
    case Close(c) => Closed(t, c, e.at)
    case Sweep => Swept(t, e.at)
  }

  /** The table before event n. */
  function Before(t: Table, es: seq<Event>, n: nat): Table
    requires n <= |es|
  {
    if n == 0 then t else Step(Before(t, es, n - 1), es[n - 1])
  }

  /** The clock does not run backwards. */
  ghost predicate Timed(es: seq<Event>) { forall i, j :: 0 <= i <= j < |es| ==> es[i].at <= es[j].at }

  /** Event n is a final response to key that is the first to count. */
  predicate FirstFinal(t: Table, es: seq<Event>, n: nat, key: TxKey)
    requires n < |es|
  {
    es[n].action.Response? && es[n].action.key == key && Finalises(Before(t, es, n), key, es[n].action.status)
  }

  /** Event n is a 200 OK to key that acts on the dialog. */
  predicate Acts(t: Table, es: seq<Event>, n: nat, key: TxKey)
    requires n < |es|
  {
    FirstFinal(t, es, n, key) && es[n].action.status == "200"
  }

  /** Some sweep strictly between events i and j comes more than the TTL after time `since`. */
  ghost predicate SweptBetween(es: seq<Event>, i: nat, j: nat, since: int) {
    exists k :: i < k < j && k < |es| && es[k].action.Sweep? && Expired(since, es[k].at)
  }

  /** A settled transaction keeps its record until it is swept. */
  lemma {:induction false} SettledStays(t: Table, es: seq<Event>, i: nat, j: nat, key: TxKey)
    requires i < j <= |es| && FirstFinal(t, es, i, key) && !SweptBetween(es, i, j, es[i].at)
    ensures key in Before(t, es, j).open && Before(t, es, j).open[key].final && Before(t, es, j).open[key].timestamp == es[i].at
    decreases j
  {
    if j > i + 1 { SettledStays(t, es, i, j - 1, key); }
  }

  /** The first final response wins: after one has counted, another counts for the same transaction only if the record
      was swept in between, more than the TTL later. */
  lemma FirstFinalWins(t: Table, es: seq<Event>, i: nat, j: nat, key: TxKey)
    requires i < j < |es| && FirstFinal(t, es, i, key) && FirstFinal(t, es, j, key)
    ensures SweptBetween(es, i, j, es[i].at)
    ensures Timed(es) ==> es[j].at - es[i].at > INVITE_TTL
  {
    if !SweptBetween(es, i, j, es[i].at) {
      SettledStays(t, es, i, j, key);
      assert false;
    }
  }

  /** A record counts as the one of a re-INVITE if and only if its latest request did, and remembers when that was. */
  lemma {:induction false} RequestStands(t: Table, es: seq<Event>, i: nat, j: nat, key: TxKey)
    requires i < j <= |es| && es[i].action.Request? && es[i].action.key == key && !Settled(Before(t, es, i), key)
    requires !SweptBetween(es, i, j, es[i].at)
    requires forall k :: i < k < j ==> !RequestOf(es, k, key) && !FirstFinal(t, es, k, key)
    ensures key in Before(t, es, j).open && Before(t, es, j).open[key] == Tx(es[i].action.reinvite, false, es[i].at)
    decreases j
  {
    if j > i + 1 {
      RequestStands(t, es, i, j - 1, key);
      assert !RequestOf(es, j - 1, key) && !FirstFinal(t, es, j - 1, key);
    }
  }

  /** ... and if it was swept then, any 200 OK to an open call acts. */
  lemma SweptActsAgain(t: Table, key: TxKey, now: int)
    requires key in t.open && Expired(t.open[key].timestamp, now) && key.callID !in t.closed
    ensures Passes(Swept(t, now), key, "200")
  {}

  /** The tombstone of a call stands until a sweep more than the TTL after the call was closed. */
  lemma {:induction false} TombstoneStands(t: Table, es: seq<Event>, i: nat, j: nat, c: CallId)
    requires i < j <= |es| && es[i].action == Close(c) && Timed(es) && !SweptBetween(es, i, j, es[i].at)
    ensures c in Before(t, es, j).closed && Before(t, es, j).closed[c] >= es[i].at
    decreases j
  {
    if j > i + 1 { TombstoneStands(t, es, i, j - 1, c); }
  }

  /** ... and is gone after that. */
  lemma SweptTombstone(t: Table, c: CallId, now: int)
    ensures c in Swept(t, now).closed <==> c in t.closed && now - t.closed[c] <= 60_000_000_000
  {}

  /** While the tombstone stands, a 200 OK acts only for a transaction that was opened and has had no final response. */
  lemma ClosedCallsNeedAnOpenTransaction(t: Table, es: seq<Event>, i: nat, j: nat, key: TxKey)
    requires i < j < |es| && es[i].action == Close(key.callID) && Timed(es) && !SweptBetween(es, i, j, es[i].at)
    requires Acts(t, es, j, key)
    ensures key in Before(t, es, j).open && !Before(t, es, j).open[key].final
  {
    TombstoneStands(t, es, i, j, key.callID);
  }

  /** A waiting transaction was opened by a request after any final response, or was waiting all along. */
  lemma {:induction false} WaitingWasRequested(t: Table, es: seq<Event>, i: nat, j: nat, key: TxKey)
    requires i <= j <= |es| && key in Before(t, es, j).open && !Before(t, es, j).open[key].final
    ensures (key in Before(t, es, i).open && !Before(t, es, i).open[key].final)
         || exists m :: i <= m < j && RequestOf(es, m, key) && !Settled(Before(t, es, m), key)
    decreases j
  {
    if j > i {
      if RequestOf(es, j - 1, key) && !Settled(Before(t, es, j - 1), key) {
      } else {
        WaitingWasRequested(t, es, i, j - 1, key);
      }
    }
  }

  predicate RequestOf(es: seq<Event>, m: nat, key: TxKey) {
    m < |es| && es[m].action.Request? && es[m].action.key == key
  }

  /** No replay revives a call: if a 200 OK acted, the call was closed and its tombstone stands, then another 200 OK of
      the same transaction acts only after a new request for it, which came more than the TTL after the first. */
  lemma NoReplay(t: Table, es: seq<Event>, p: nat, i: nat, j: nat, key: TxKey)
    requires p < i < j < |es| && Timed(es)
    requires Acts(t, es, p, key) && es[i].action == Close(key.callID) && Acts(t, es, j, key)
    requires !SweptBetween(es, i, j, es[i].at)
    ensures exists m :: p < m < j && RequestOf(es, m, key) && es[m].at - es[p].at > INVITE_TTL
  {
    ClosedCallsNeedAnOpenTransaction(t, es, i, j, key);
    assert Settled(Before(t, es, p + 1), key);
    WaitingWasRequested(t, es, p + 1, j, key);
    var m :| p + 1 <= m < j && RequestOf(es, m, key) && !Settled(Before(t, es, m), key);
    if !SweptBetween(es, p, m, es[p].at) {
      SettledStays(t, es, p, m, key);
      assert false;
    }
    var k :| p < k < m && k < |es| && es[k].action.Sweep? && Expired(es[p].at, es[k].at);
    assert es[k].at <= es[m].at;
  }
}
