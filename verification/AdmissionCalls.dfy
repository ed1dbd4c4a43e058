/**
 What a call on the admission queue comes to, over every interleaving: which runs it sends and how many packets an RTP
 call gets.  The results speak of states and of what changes between them.
 */
module AdmissionCalls {
  import opened Admission
  import opened AdmissionProof

  /** Reader i is inside a call from state j up to state k of the run. */
  ghost predicate InCall(tr: seq<State>, j: nat, k: nat, i: nat) {
    && IsRun(tr) && j <= k < |tr|
    && (forall m :: j <= m <= k ==> i < |tr[m].readers|)
    && (forall m :: j <= m < k ==> !tr[m].readers[i].pc.Idle?)
  }

  /** The step from s to s' is one of reader i. */
  ghost predicate StepsOn(s: State, s': State, i: nat) {
    i < |s.readers| && i < |s'.readers| && s'.readers[i] != s.readers[i]
  }

  /** The runs that reader i has put into the channel between states j and k. */
  ghost function SentBy(tr: seq<State>, j: nat, k: nat, i: nat): seq<Run>
    requires j <= k < |tr|
    decreases k
  {
    if j == k then []
    else
      var s, s' := tr[k - 1], tr[k];
      SentBy(tr, j, k - 1, i) +
      if StepsOn(s, s', i) && |s'.pool.chan| > |s.pool.chan| then [s'.pool.chan[|s'.pool.chan| - 1]] else []
  }

  /** How many of n packets there is room for. */
  function Room(s: State, n: nat): nat { if s.pool.queued >= s.max then 0 else Min(n, s.max - s.pool.queued) }

  /** The moment an RTP call of n packets gets its share: nothing beside a registered SIP call, else all there is room
      for, which is counted in the same step. */
  ghost predicate GetsAt(s: State, s': State, i: nat, n: nat, share: nat) {
    && StepsOn(s, s', i)
    && if s.gate.pending != 0 then share == 0 else share == Room(s, n) && s'.pool.queued == s.pool.queued + share
  }

  // ---------------------------------------------------------------- one step

  /** A step that is not a move of reader i leaves a reader inside a call alone. */
  lemma OthersMove(s: State, a: Action, i: nat)
    requires Enabled(s, a) && i < |s.readers| && !s.readers[i].pc.Idle? && a != Move(i)
    ensures |Next(s, a).readers| == |s.readers| && Next(s, a).readers[i] == s.readers[i] && Next(s, a).max == s.max
  {}

  lemma IMove(s: State, i: nat)
    requires MoveEnabled(s, i)
    ensures var r, e, s' := s.readers[i], MoveEffect(s, s.readers[i].pc), MoveNext(s, i);
            && |s'.readers| == |s.readers| && s'.readers[i] == ApplyReader(r, e) && s'.max == s.max && s'.stopped == s.stopped
            && (e.pool.Send? ==> s'.pool.chan == s.pool.chan + [Run(e.pool.n, r.block)])
            && (!e.pool.Send? ==> s'.pool.chan == s.pool.chan)
            && s'.pool.queued == s.pool.queued + if e.pool.Reserve? then e.pool.k else 0
  {}

  /** Reader i, inside a call, either moves in step k of the run or is left alone. */
  lemma StepEither(tr: seq<State>, k: nat, i: nat)
    requires IsRun(tr) && k + 1 < |tr| && i < |tr[k].readers| && !tr[k].readers[i].pc.Idle?
    ensures |tr[k + 1].readers| == |tr[k].readers| && tr[k + 1].max == tr[k].max && (tr[k].stopped ==> tr[k + 1].stopped)
    ensures tr[k + 1].readers[i] == tr[k].readers[i]
         || (Inv(tr[k]) && MoveEnabled(tr[k], i) && tr[k + 1] == MoveNext(tr[k], i))
  {
    RunInv(tr, k);
    assert Step(tr[k + 1 - 1], tr[k + 1]);
    var a :| Enabled(tr[k], a) && tr[k + 1] == Next(tr[k], a);
    if a == Move(i) { IMove(tr[k], i); } else { OthersMove(tr[k], a, i); }
    if tr[k].stopped { StoppedStep(tr[k], a); }
  }

  // ---------------------------------------------------------------- an RTP call

  /** Steps of an RTP call of n packets before it has its share. */
  predicate Asking(max: nat, r: Reader, n: nat) {
    match r.pc
    case RtpLock(m) => m == n
    case Shared(y) => (
      match y
      case TestStop(m) => m == n
      case TestSip(m) => m == n
      case LoadQ(m) => m == n
      case CasQ(m, q, a) => m == n && q < max && a == Min(n, max - q)
      case _ => false)
    case _ => false
  }

  /** The share of an RTP call that has one. */
  function ShareOf(r: Reader): nat {
    if r.pc.Shared? && r.pc.y.Drop? then r.pc.y.a else if r.pc.Shared? && r.pc.y.OwnQ? then r.pc.y.a else r.published
  }

  /** Steps of an RTP call that has its share, but has not published it. */
  predicate Holding(r: Reader, n: nat) {
    r.offered == n && r.pc.Shared? && ((r.pc.y.Drop? && r.pc.y.n == n) || (r.pc.y.OwnQ? && r.pc.y.a > 0))
  }

  /** ... and of one that has published it. */
  predicate HasPublished(r: Reader, n: nat) { (r.pc.Idle? || r.pc == Shared(Quit)) && r.offered == n }

  /** Steps of an RTP call that has found the queue stopped. */
  predicate TurnedAway(r: Reader) { (r.pc.Idle? || r.pc == Shared(Quit)) && r.offered == r.published == r.dropped == 0 }

  ghost predicate SameChan(s: State, s': State) { s'.pool.chan == s.pool.chan }

  ghost predicate Asks(s: State, s': State, i: nat, n: nat)
    requires i < |s'.readers|
  {
    var r' := s'.readers[i];
    && SameChan(s, s')
    && (Asking(s'.max, r', n) || (TurnedAway(r') && s'.stopped) || (Holding(r', n) && GetsAt(s, s', i, n, ShareOf(r'))))
  }

  ghost predicate Holds(s: State, s': State, i: nat, n: nat)
    requires i < |s.readers| && i < |s'.readers|
  {
    var r, r' := s.readers[i], s'.readers[i];
    && StepsOn(s, s', i) && ShareOf(r') == ShareOf(r)
    && ((Holding(r', n) && SameChan(s, s'))
        || (HasPublished(r', n) && s'.pool.chan == s.pool.chan + if ShareOf(r) > 0 then [Run(ShareOf(r), r.block)] else []))
  }

  ghost predicate Leaves(s: State, s': State, i: nat)
    requires i < |s.readers| && i < |s'.readers|
  {
    s'.readers[i] == s.readers[i].(pc := Idle) && SameChan(s, s')
  }

  /** What a step of an RTP call does, by where the call stands. */
  ghost predicate RtpEdge(s: State, s': State, i: nat, n: nat)
    requires i < |s.readers| && i < |s'.readers|
  {
    var r := s.readers[i];
    && s'.readers[i].block == r.block
    && (Asking(s.max, r, n) ==> Asks(s, s', i, n))
    && (Holding(r, n) ==> Holds(s, s', i, n))
    && (r.pc == Shared(Quit) ==> Leaves(s, s', i))
  }

  lemma MoveAsks(s: State, i: nat, n: nat)
    requires TallyInv(s) && PendingInv(s) && MoveEnabled(s, i) && Asking(s.max, s.readers[i], n)
    ensures Asks(s, MoveNext(s, i), i, n)
  {
    IMove(s, i);
    assert TallyOk(s.readers[i]) && YieldOk(s.gate.pending, s.readers[i].pc);
  }

  lemma MoveHolds(s: State, i: nat, n: nat)
    requires TallyInv(s) && MoveEnabled(s, i) && Holding(s.readers[i], n)
    ensures Holds(s, MoveNext(s, i), i, n)
  {
    IMove(s, i);
    assert TallyOk(s.readers[i]);
  }

  lemma MoveRtp(s: State, i: nat, n: nat)
    requires TallyInv(s) && PendingInv(s) && MoveEnabled(s, i)
    ensures |MoveNext(s, i).readers| == |s.readers| && RtpEdge(s, MoveNext(s, i), i, n)
  {
    IMove(s, i);
    if Asking(s.max, s.readers[i], n) { MoveAsks(s, i, n); }
    if Holding(s.readers[i], n) { MoveHolds(s, i, n); }
  }

  ghost predicate Got(tr: seq<State>, j: nat, k: nat, i: nat, n: nat, share: nat)
    requires k < |tr|
  {
    exists m: nat :: j <= m < k && GetsAt(tr[m], tr[m + 1], i, n, share)
  }

  /** Where an RTP call stands, and what it has sent. */
  ghost predicate RtpAt(tr: seq<State>, j: nat, k: nat, i: nat, n: nat, block: nat)
    requires j <= k < |tr| && i < |tr[k].readers|
  {
    var r, sent := tr[k].readers[i], SentBy(tr, j, k, i);
    && r.block == block
    && ((Asking(tr[k].max, r, n) && sent == [])
        || (TurnedAway(r) && tr[k].stopped && sent == [])
        || (Got(tr, j, k, i, n, ShareOf(r)) && Holding(r, n) && sent == [])
        || (Got(tr, j, k, i, n, ShareOf(r)) && HasPublished(r, n) && sent == if r.published > 0 then [Run(r.published, block)] else []))
  }

  lemma GotStays(tr: seq<State>, j: nat, k: nat, i: nat, n: nat, share: nat)
    requires k + 1 < |tr| && Got(tr, j, k, i, n, share)
    ensures Got(tr, j, k + 1, i, n, share)
  {
    var m: nat :| j <= m < k && GetsAt(tr[m], tr[m + 1], i, n, share);
    assert j <= m < k + 1;
  }

  lemma RtpMoves(tr: seq<State>, j: nat, k: nat, i: nat, n: nat, block: nat)
    requires j <= k && k + 1 < |tr| && i < |tr[k].readers| && i < |tr[k + 1].readers| && tr[k].max == tr[k + 1].max
    requires RtpAt(tr, j, k, i, n, block) && RtpEdge(tr[k], tr[k + 1], i, n) && !tr[k].readers[i].pc.Idle?
    requires tr[k].stopped ==> tr[k + 1].stopped
    ensures RtpAt(tr, j, k + 1, i, n, block)
  {
    var r, r' := tr[k].readers[i], tr[k + 1].readers[i];
    if Asking(tr[k].max, r, n) {
      if !Asking(tr[k].max, r', n) && !TurnedAway(r') { assert GetsAt(tr[k], tr[k + 1], i, n, ShareOf(r')); }
    } else if !(TurnedAway(r) && tr[k].stopped) {
      GotStays(tr, j, k, i, n, ShareOf(r));
    }
  }

  lemma RtpWaits(tr: seq<State>, j: nat, k: nat, i: nat, n: nat, block: nat)
    requires j <= k && k + 1 < |tr| && i < |tr[k].readers| && i < |tr[k + 1].readers| && tr[k].max == tr[k + 1].max
    requires tr[k + 1].readers[i] == tr[k].readers[i] && (tr[k].stopped ==> tr[k + 1].stopped)
    requires RtpAt(tr, j, k, i, n, block)
    ensures RtpAt(tr, j, k + 1, i, n, block)
  {
    assert SentBy(tr, j, k + 1, i) == SentBy(tr, j, k, i);
    var r := tr[k].readers[i];
    if Got(tr, j, k, i, n, ShareOf(r)) { GotStays(tr, j, k, i, n, ShareOf(r)); }
  }

  /** In step m of the run reader i, inside an RTP call, is left alone or moves on. */
  ghost predicate RtpStep(tr: seq<State>, m: nat, i: nat, n: nat) {
    && m + 1 < |tr| && i < |tr[m].readers| && i < |tr[m + 1].readers| && !tr[m].readers[i].pc.Idle?
    && tr[m + 1].max == tr[m].max && (tr[m].stopped ==> tr[m + 1].stopped)
    && (tr[m + 1].readers[i] == tr[m].readers[i] || RtpEdge(tr[m], tr[m + 1], i, n))
  }

  lemma RtpSteps(tr: seq<State>, m: nat, i: nat, n: nat)
    requires IsRun(tr) && m + 1 < |tr| && i < |tr[m].readers| && !tr[m].readers[i].pc.Idle?
    ensures RtpStep(tr, m, i, n)
  {
    StepEither(tr, m, i);
    if tr[m + 1].readers[i] != tr[m].readers[i] { MoveRtp(tr[m], i, n); }
  }

  lemma {:induction false} RtpStands(tr: seq<State>, j: nat, k: nat, i: nat, n: nat, block: nat)
    requires j <= k < |tr| && i < |tr[j].readers| && tr[j].readers[i].pc == RtpLock(n) && tr[j].readers[i].block == block
    requires forall m: nat :: j <= m < k ==> RtpStep(tr, m, i, n)
    ensures i < |tr[k].readers| && RtpAt(tr, j, k, i, n, block)
    decreases k
  {
    if j < k {
      RtpStands(tr, j, k - 1, i, n, block);
      assert RtpStep(tr, k - 1, i, n);
      if tr[k].readers[i] == tr[k - 1].readers[i] {
        RtpWaits(tr, j, k - 1, i, n, block);
      } else {
        RtpMoves(tr, j, k - 1, i, n, block);
      }
    }
  }

  lemma RtpCall(tr: seq<State>, j: nat, k: nat, i: nat)
    requires InCall(tr, j, k, i) && tr[j].readers[i].pc.RtpLock?
    ensures RtpAt(tr, j, k, i, tr[j].readers[i].pc.n, tr[j].readers[i].block)
  {
    var n := tr[j].readers[i].pc.n;
    forall m: nat | j <= m < k ensures RtpStep(tr, m, i, n) { RtpSteps(tr, m, i, n); }
    RtpStands(tr, j, k, i, n, tr[j].readers[i].block);
  }

  // ---------------------------------------------------------------- main results

  /** An RTP call gets all the room there is.  When it returns, either the queue is stopped and it has offered nothing; or at
      one moment of the call it got its share, nothing if a SIP call was registered then and else as many of its packets
      as fitted.  It has sent that share as one run, and every other packet is dropped. */
  lemma RtpGetsTheRoom(tr: seq<State>, j: nat, k: nat, i: nat)
    requires InCall(tr, j, k, i) && tr[j].readers[i].pc.RtpLock? && tr[k].readers[i].pc.Idle?
    ensures var n, r := tr[j].readers[i].pc.n, tr[k].readers[i];
            && SentBy(tr, j, k, i) == (if r.published > 0 then [Run(r.published, tr[j].readers[i].block)] else [])
            && ((tr[k].stopped && r.offered == r.published == r.dropped == 0)
                || (r.published + r.dropped == n && Got(tr, j, k, i, n, r.published)))
  {
    RtpCall(tr, j, k, i);
    RtpConserved(tr, k, i);
  }

  /** A SIP call is registered, or the queue is full. */
  predicate Crowded(s: State) { s.gate.pending != 0 || s.pool.queued >= s.max }

  /** So it drops packets only for cause: in some state of the call a SIP call is registered, or the queue is full. */
  lemma RtpDropsForCause(tr: seq<State>, j: nat, k: nat, i: nat)
    requires InCall(tr, j, k, i) && tr[j].readers[i].pc.RtpLock? && tr[k].readers[i].pc.Idle?
    requires tr[k].readers[i].dropped > 0
    ensures exists m :: j <= m <= k && Crowded(tr[m])
  {
    RtpGetsTheRoom(tr, j, k, i);
    ShareIsShort(tr, j, k, i, tr[j].readers[i].pc.n, tr[k].readers[i].published);
  }

  lemma ShareIsShort(tr: seq<State>, j: nat, k: nat, i: nat, n: nat, share: nat)
    requires InCall(tr, j, k, i) && Got(tr, j, k, i, n, share) && share < n
    ensures exists m :: j <= m <= k && Crowded(tr[m])
  {
    var m: nat :| j <= m < k && GetsAt(tr[m], tr[m + 1], i, n, share);
    MaxStays(tr, m, i);
    ShortShare(tr[m], tr[m + 1], i, n, share);
    if !Crowded(tr[m]) { assert Crowded(tr[m + 1]); }
  }

  lemma MaxStays(tr: seq<State>, m: nat, i: nat)
    requires IsRun(tr) && m + 1 < |tr| && i < |tr[m].readers| && !tr[m].readers[i].pc.Idle?
    ensures tr[m + 1].max == tr[m].max
  {
    StepEither(tr, m, i);
  }

  lemma ShortShare(s: State, s': State, i: nat, n: nat, share: nat)
    requires GetsAt(s, s', i, n, share) && share < n && s'.max == s.max
    ensures Crowded(s) || Crowded(s')
  {}

  // ---------------------------------------------------------------- a SIP call

  /** Steps of a SIP call of n packets before it has sent its run. */
  predicate Queueing(pc: Pc, n: nat) {
    match pc
    case SipLock(m) => m == n
    case SipWait(m, _, _) => m == n
    case SipRelock(m, _) => m == n
    case Excl(x) => (x.Enter? || x.Try? || x.Own?) && x.n == n
    case _ => false
  }

  predicate Published(pc: Pc) { pc.Excl? && (pc.x.Fin? || (pc.x.Exit? && pc.x.ok)) }

  /** Where a SIP call stands, and what it has sent. */
  ghost predicate SipAt(tr: seq<State>, j: nat, k: nat, i: nat, n: nat, block: nat)
    requires j <= k < |tr| && i < |tr[k].readers|
  {
    var r, sent := tr[k].readers[i], SentBy(tr, j, k, i);
    && r.block == block
    && ((Queueing(r.pc, n) && sent == []) || (Refused(r.pc) && sent == []) || (Published(r.pc) && sent == [Run(n, block)]))
  }

  /** What a step of a SIP call does, by where the call stands. */
  ghost predicate SipEdge(s: State, s': State, i: nat, n: nat)
    requires i < |s.readers| && i < |s'.readers|
  {
    var r, pc' := s.readers[i], s'.readers[i].pc;
    && s'.readers[i].block == r.block
    && (Queueing(r.pc, n) || Refused(r.pc) || Published(r.pc) ==> StepsOn(s, s', i))
    && (Queueing(r.pc, n) ==>
          ((Queueing(pc', n) || Refused(pc')) && SameChan(s, s')) || (Published(pc') && s'.pool.chan == s.pool.chan + [Run(n, r.block)]))
    && (Refused(r.pc) ==> SameChan(s, s') && (Refused(pc') || pc'.Idle?))
    && (Published(r.pc) ==> SameChan(s, s') && (Published(pc') || pc'.Idle?))
  }

  lemma MoveTries(s: State, i: nat, n: nat)
    requires MoveEnabled(s, i) && s.readers[i].pc.Excl? && s.readers[i].pc.x.Try? && s.readers[i].pc.x.n == n
    ensures var r, e := s.readers[i], MoveEffect(s, s.readers[i].pc);
            e.pc != r.pc && e.tally.KeepTally? && !e.pool.Send? && (Queueing(e.pc, n) || Refused(e.pc))
  {}

  lemma MoveSip(s: State, i: nat, n: nat)
    requires MoveEnabled(s, i)
    ensures |MoveNext(s, i).readers| == |s.readers| && SipEdge(s, MoveNext(s, i), i, n)
  {
    IMove(s, i);
    var pc := s.readers[i].pc;
    if pc.Excl? && pc.x.Try? { MoveTries(s, i, pc.x.n); }
  }

  lemma SipMoves(tr: seq<State>, j: nat, k: nat, i: nat, n: nat, block: nat)
    requires j <= k && k + 1 < |tr| && i < |tr[k].readers| && i < |tr[k + 1].readers| && !tr[k].readers[i].pc.Idle?
    requires SipAt(tr, j, k, i, n, block) && SipEdge(tr[k], tr[k + 1], i, n)
    ensures tr[k + 1].readers[i].pc.Idle? || SipAt(tr, j, k + 1, i, n, block)
  {}

  /** In step m of the run reader i, inside a SIP call, is left alone or moves on. */
  ghost predicate SipStep(tr: seq<State>, m: nat, i: nat, n: nat) {
    && m + 1 < |tr| && i < |tr[m].readers| && i < |tr[m + 1].readers| && !tr[m].readers[i].pc.Idle?
    && (tr[m + 1].readers[i] == tr[m].readers[i] || SipEdge(tr[m], tr[m + 1], i, n))
  }

  lemma SipSteps(tr: seq<State>, m: nat, i: nat, n: nat)
    requires IsRun(tr) && m + 1 < |tr| && i < |tr[m].readers| && !tr[m].readers[i].pc.Idle?
    ensures SipStep(tr, m, i, n)
  {
    StepEither(tr, m, i);
    if tr[m + 1].readers[i] != tr[m].readers[i] { MoveSip(tr[m], i, n); }
  }

  lemma {:induction false} SipStands(tr: seq<State>, j: nat, k: nat, i: nat, n: nat, block: nat)
    requires j <= k < |tr| && i < |tr[j].readers| && tr[j].readers[i].pc == SipLock(n) && tr[j].readers[i].block == block
    requires forall m: nat :: j <= m < k ==> SipStep(tr, m, i, n)
    ensures i < |tr[k].readers| && (tr[k].readers[i].pc.Idle? || SipAt(tr, j, k, i, n, block))
    decreases k
  {
    if j < k {
      SipStands(tr, j, k - 1, i, n, block);
      assert SipStep(tr, k - 1, i, n);
      if tr[k].readers[i] == tr[k - 1].readers[i] {
        assert SentBy(tr, j, k, i) == SentBy(tr, j, k - 1, i);
      } else {
        SipMoves(tr, j, k - 1, i, n, block);
      }
    }
  }

  lemma SipCall(tr: seq<State>, j: nat, k: nat, i: nat)
    requires InCall(tr, j, k, i) && tr[j].readers[i].pc.SipLock?
    ensures tr[k].readers[i].pc.Idle? || SipAt(tr, j, k, i, tr[j].readers[i].pc.n, tr[j].readers[i].block)
  {
    var n := tr[j].readers[i].pc.n;
    forall m: nat | j <= m < k ensures SipStep(tr, m, i, n) { SipSteps(tr, m, i, n); }
    SipStands(tr, j, k, i, n, tr[j].readers[i].block);
  }

  /** A SIP call that returns true has sent its whole run, once; one that returns false has sent nothing, and the queue is
      stopped. */
  lemma SipSendsAllOrNothing(tr: seq<State>, j: nat, k: nat, i: nat)
    requires InCall(tr, j, k, i) && tr[j].readers[i].pc.SipLock?
    requires tr[k].readers[i].pc.Excl? && tr[k].readers[i].pc.x.Exit?
    ensures if tr[k].readers[i].pc.x.ok then SentBy(tr, j, k, i) == [Run(tr[j].readers[i].pc.n, tr[j].readers[i].block)]
            else SentBy(tr, j, k, i) == [] && tr[k].stopped
  {
    SipCall(tr, j, k, i);
    SipInOrder(tr, k, i);
  }
}
