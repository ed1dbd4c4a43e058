/**
 Progress of the admission queue: without new calls, every schedule of the atomic steps under way ends, and then every
 call has returned.  The measure counts what is still to happen once (reservations, sends, signals, packets to be
 taken off the count), then the channel, then how far each actor is within its loop.
 */
module AdmissionProgress {
  import opened Admission
  import opened AdmissionProof

  // ---------------------------------------------------------------- work still to be done once

  /** A call's reservation, send and signal, and two for each packet: its subtraction and the wakeup after it. */
  function Work(pc: Pc): nat {
    match pc
    case Idle => 0
    case SipLock(n) => 3 + 2 * n
    case SipWait(n, _, _) => 3 + 2 * n
    case SipRelock(n, _) => 3 + 2 * n
    case RtpLock(n) => 2 + 2 * n
    case Excl(x) => (
      match x
      case Enter(n) => 3 + 2 * n
      case Try(n, _, _) => 3 + 2 * n
      case Own(n, _, _) => 2 + 2 * n
      case Fin(_, _) => 1
      case _ => 0)
    case Shared(y) => (
      match y
      case TestStop(n) => 2 + 2 * n
      case TestSip(n) => 2 + 2 * n
      case LoadQ(n) => 2 + 2 * n
      case CasQ(n, _, _) => 2 + 2 * n
      case Drop(_, a, _) => if a == 0 then 0 else 1 + 2 * a
      case OwnQ(a, _) => 1 + 2 * a
      case Quit => 0)
  }

  function ConsumerWork(c: ConsumerPc): nat {
    match c
    case Frame(w) => 2 * w.rem
    case Sub(w, _) => 2 * w.rem + 2
    case Wake(w, stage) => 2 * w.rem + if stage.WakeUnlock? then 0 else 1
    case _ => 0
  }

  function StopperWork(p: StopperPc): nat { if p.StopLock? || p.StopSet? || p.StopSignal? then 1 else 0 }

  function WorkBy(r: Reader): int { Work(r.pc) }

  ghost function TotalWork(s: State): int {
    Sum(s.readers, WorkBy) + 2 * Frames(s.pool.chan) + ConsumerWork(s.consumer) + StopperWork(s.stopper)
  }

  // ---------------------------------------------------------------- how far an actor is in its loop

  /** A compare-and-swap that has been overtaken goes round again, and so does a wait on a replaced channel. */
  function Rank(epoch: nat, queued: int, pc: Pc): nat {
    match pc
    case Idle => 0
    case SipLock(_) => 20
    case SipWait(_, _, e) => if e < epoch then 16 else 0
    case SipRelock(_, _) => 15
    case RtpLock(_) => 20
    case Excl(x) => (
      match x
      case Enter(_) => 19
      case Try(_, _, at) => (
        match at
        case Count => 18
        case Head => 14
        case Load => 12
        case Cas(q) => if q == queued then 10 else 13
        case Prep => 8
        case Leave(e) => if e < epoch then 17 else 6)
      case Own(_, _, retained) => if retained then 4 else 5
      case Fin(_, stage) => if stage.Uncount? then 3 else if stage.Serve? then 2 else 1
      case Abort => 2
      case Exit(_, _) => 1)
    case Shared(y) => (
      match y
      case TestStop(_) => 19
      case TestSip(_) => 18
      case LoadQ(_) => 12
      case CasQ(_, q, _) => if q == queued then 10 else 13
      case Drop(n, _, d) => 5 + if d < n then n - d else 0
      case OwnQ(_, retained) => if retained then 3 else 4
      case Quit => 1)
  }

  function ConsumerRank(c: ConsumerPc): nat {
    match c
    case Top => 5
    case Select => 4
    case Frame(_) => 9
    case Sub(_, _) => 8
    case Wake(_, stage) =>
      if stage.Look? then 5 else if stage.WakeLock? then 4 else if stage.WakeTest? then 3 else if stage.WakeSignal? then 2 else 12
    case Unref(_) => 7
    case Drain => 2
    case Returned => 0
  }

  function StopperRank(p: StopperPc): nat {
    match p
    case Running => 0
    case StopLock => 6
    case StopSet => 5
    case StopSignal => 4
    case StopUnlock => 3
    case CloseDone => 2
    case Closed => 0
  }

  function RankBy(epoch: nat, queued: int): Reader -> int { (r: Reader) => Rank(epoch, queued, r.pc) }

  ghost function TotalRank(s: State): int {
    Sum(s.readers, RankBy(s.gate.epoch, s.pool.queued)) + ConsumerRank(s.consumer) + StopperRank(s.stopper)
  }

  /** s' is closer to rest than s. */
  ghost predicate Closer(s: State, s': State) {
    TotalWork(s') < TotalWork(s)
    || (TotalWork(s') == TotalWork(s)
        && (|s'.pool.chan| < |s.pool.chan| || (|s'.pool.chan| == |s.pool.chan| && TotalRank(s') < TotalRank(s))))
  }

  // ---------------------------------------------------------------- every step under way comes closer

  function SentBy(e: Effect): nat { if e.pool.Send? then e.pool.n else 0 }

  lemma TryCloser(s: State, n: nat, t: nat, at: TryAt)
    requires SizeOk(s.max, s.gate.epoch, Excl(Try(n, t, at)))
    ensures var pc, e := Excl(Try(n, t, at)), TryEffect(s, n, t, at);
            && Work(e.pc) <= Work(pc) && !e.pool.Send? && !e.gate.Replace? && (e.pool.Reserve? ==> Work(e.pc) < Work(pc))
            && (Work(e.pc) == Work(pc) ==> Rank(s.gate.epoch, s.pool.queued, e.pc) < Rank(s.gate.epoch, s.pool.queued, pc))
  {}

  lemma ExclCloser(s: State, x: Excl)
    requires SizeOk(s.max, s.gate.epoch, Excl(x))
    ensures var pc, e := Excl(x), ExclEffect(s, x);
            && Work(e.pc) + 2 * SentBy(e) <= Work(pc)
            && (e.pool.Send? || e.pool.Reserve? || e.gate.Replace? ==> Work(e.pc) + 2 * SentBy(e) < Work(pc))
            && (Work(e.pc) == Work(pc) ==> Rank(s.gate.epoch, s.pool.queued, e.pc) < Rank(s.gate.epoch, s.pool.queued, pc))
  {
    if x.Try? { TryCloser(s, x.n, x.t, x.at); }
  }

  lemma SharedCloser(s: State, y: Shr)
    requires SizeOk(s.max, s.gate.epoch, Shared(y))
    ensures var pc, e := Shared(y), SharedEffect(s, y);
            && Work(e.pc) + 2 * SentBy(e) <= Work(pc) && !e.gate.Replace?
            && (e.pool.Send? || e.pool.Reserve? ==> Work(e.pc) + 2 * SentBy(e) < Work(pc))
            && (Work(e.pc) == Work(pc) ==> Rank(s.gate.epoch, s.pool.queued, e.pc) < Rank(s.gate.epoch, s.pool.queued, pc))
  {}

  lemma EffectCloser(s: State, pc: Pc)
    requires SizeOk(s.max, s.gate.epoch, pc) && !pc.Idle? && (pc.SipWait? ==> pc.e < s.gate.epoch)
    ensures var e := MoveEffect(s, pc);
            && Work(e.pc) + 2 * SentBy(e) <= Work(pc)
            && (e.pool.Send? || e.pool.Reserve? || e.gate.Replace? ==> Work(e.pc) + 2 * SentBy(e) < Work(pc))
            && (Work(e.pc) == Work(pc) ==> Rank(s.gate.epoch, s.pool.queued, e.pc) < Rank(s.gate.epoch, s.pool.queued, pc))
  {
    match pc
    case Excl(x) => ExclCloser(s, x);
    case Shared(y) => SharedCloser(s, y);
    case _ =>
  }

  lemma MoveCloser(s: State, i: nat)
    requires SizeInv(s) && MoveEnabled(s, i)
    ensures Closer(s, MoveNext(s, i))
  {
    var r, s' := s.readers[i], MoveNext(s, i);
    var e := MoveEffect(s, r.pc);
    assert SizeOk(s.max, s.gate.epoch, r.pc);
    EffectCloser(s, r.pc);
    SumUpdate(s.readers, i, ApplyReader(r, e), WorkBy);
    if e.pool.Send? { FramesAppend(s.pool.chan, Run(e.pool.n, r.block)); }
    if TotalWork(s') == TotalWork(s) {
      SumUpdate(s.readers, i, ApplyReader(r, e), RankBy(s.gate.epoch, s.pool.queued));
    }
  }

  function TakenSize(s: State, op: ConsumerOp): nat
    requires op.TakeRun? ==> s.pool.chan != []
  {
    if op.TakeRun? then s.pool.chan[0].size else 0
  }

  /** One step of the consumer by itself. */
  lemma ConsumerCloser(s: State, quit: bool)
    requires SizeInv(s) && ConsumeEnabled(s, quit)
    ensures var e := ConsumeEffect(s, quit);
            && (e.pool.TakeRun? ==> s.pool.chan != [])
            && ConsumerWork(e.pc) <= ConsumerWork(s.consumer) + 2 * TakenSize(s, e.pool)
            && (e.pool.Subtract? || e.signal ==> ConsumerWork(e.pc) < ConsumerWork(s.consumer))
            && (ConsumerWork(e.pc) == ConsumerWork(s.consumer) && !e.pool.TakeRun? ==> ConsumerRank(e.pc) < ConsumerRank(s.consumer))
  {}

  lemma ConsumeCloser(s: State, quit: bool)
    requires SizeInv(s) && ConsumeEnabled(s, quit)
    ensures Closer(s, ConsumeNext(s, quit))
  {
    ConsumerCloser(s, quit);
    var chan, e := s.pool.chan, ConsumeEffect(s, quit);
    if e.pool.TakeRun? { assert Frames(chan) == chan[0].size + Frames(chan[1..]); }
  }

  lemma StopCloser(s: State)
    requires StopEnabled(s)
    ensures Closer(s, StopNext(s))
  {}

  lemma InternalCloser(s: State, a: Action)
    requires Inv(s) && Internal(a) && Enabled(s, a)
    ensures Closer(s, Next(s, a))
  {
    match a
    case Move(i) => MoveCloser(s, i);
    case Consume(quit) => ConsumeCloser(s, quit);
    case Stop => StopCloser(s);
  }

  lemma MeasureIsNatural(s: State)
    ensures TotalWork(s) >= 0 && TotalRank(s) >= 0
  {
    SumAtLeast(s.readers, WorkBy);
    SumAtLeast(s.readers, RankBy(s.gate.epoch, s.pool.queued));
  }

  // ---------------------------------------------------------------- main results

  ghost predicate CanMove(s: State) { exists a :: Internal(a) && Enabled(s, a) }

  ghost predicate InternalStep(s: State, s': State) { exists a :: Internal(a) && Enabled(s, a) && s' == Next(s, a) }

  /** A schedule without new calls: whenever some step is possible, some step is taken. */
  ghost predicate Schedule(f: nat -> State) { forall k: nat :: CanMove(f(k)) ==> InternalStep(f(k), f(k + 1)) }

  lemma SameActors(s: State, a: Action)
    requires Enabled(s, a)
    ensures |Next(s, a).readers| == |s.readers| && Next(s, a).max == s.max
  {}

  lemma SettlesStep(s: State, s': State)
    requires Inv(s) && InternalStep(s, s')
    ensures Inv(s') && Closer(s, s') && |s'.readers| == |s.readers| && s'.max == s.max
  {
    var a :| Internal(a) && Enabled(s, a) && s' == Next(s, a);
    InternalCloser(s, a);
    InvStep(s, a);
    SameActors(s, a);
  }

  lemma Settles(f: nat -> State, k: nat) returns (n: nat)
    requires Schedule(f) && Inv(f(k))
    ensures n >= k && Inv(f(n)) && !CanMove(f(n)) && |f(n).readers| == |f(k).readers| && f(n).max == f(k).max
    decreases TotalWork(f(k)), |f(k).pool.chan|, TotalRank(f(k))
  {
    MeasureIsNatural(f(k));
    if CanMove(f(k)) {
      SettlesStep(f(k), f(k + 1));
      MeasureIsNatural(f(k + 1));
      n := Settles(f, k + 1);
    } else {
      n := k;
    }
  }

  /** From any reachable state, however the steps under way are scheduled, all come to an end; and if the queue has room
      for anything at all, every call has then returned. */
  lemma EveryCallReturns(tr: seq<State>, f: nat -> State)
    requires IsRun(tr) && f(0) == tr[|tr| - 1] && Schedule(f) && f(0).max > 0
    ensures exists n: nat :: AllReturned(f(n))
  {
    RunInv(tr, |tr| - 1);
    var n := Settles(f, 0);
    var s := f(n);
    forall i | 0 <= i < |s.readers| ensures s.readers[i].pc.Idle? {
      if !s.readers[i].pc.Idle? { SomeoneMoves(s, i); }
    }
    assert AllReturned(f(n));
  }

  predicate AllReturned(s: State) { forall i :: 0 <= i < |s.readers| ==> s.readers[i].pc.Idle? }
}
