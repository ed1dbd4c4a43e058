/**
 Safety of the packet admission queue, over every interleaving of its atomic steps.

 One invariant per concern, each kept by every step for the facts it needs: the lock, the RTP
 tally, sizes, known blocks, the packet count, pendingSIP, stopping, tickets, wakeups, block
 references and the flow of runs.  The main results are at the end, about all runs of the machine.
 */
module AdmissionProof {
  import opened Admission

  // ---------------------------------------------------------------- the lock

  predicate ConsumerHolds(c: ConsumerPc) { c.Wake? && (c.stage.WakeTest? || c.stage.WakeSignal? || c.stage.WakeUnlock?) }

  predicate StopperHolds(p: StopperPc) { p.StopSet? || p.StopSignal? || p.StopUnlock? }

  /** The lock field agrees with the program counters. */
  ghost predicate LockInv(s: State) {
    && (s.lock.Write? && s.lock.who.ReaderActor? ==> s.lock.who.i < |s.readers|)
    && (s.lock.Read? ==> s.lock.readers != {} && forall i :: i in s.lock.readers ==> i < |s.readers|)
    && (forall i :: 0 <= i < |s.readers| ==> ReaderLock(s.lock, s.readers[i].pc, i))
    && (ConsumerHolds(s.consumer) <==> s.lock == Write(ConsumerActor))
    && (StopperHolds(s.stopper) <==> s.lock == Write(StopperActor))
  }

  ghost predicate ReaderLock(lock: Lock, pc: Pc, i: nat) {
    && (pc.Excl? <==> lock == Write(ReaderActor(i)))
    && (pc.Shared? <==> lock.Read? && i in lock.readers)
  }

  lemma EffectLock(s: State, pc: Pc)
    ensures var e := MoveEffect(s, pc);
            match e.lock
            case KeepLock => e.pc.Excl? == pc.Excl? && e.pc.Shared? == pc.Shared?
            case TakeWrite => e.pc.Excl?
            case DropWrite => pc.Excl? && !e.pc.Excl? && !e.pc.Shared?
            case TakeRead => e.pc.Shared?
            case DropRead => pc.Shared? && !e.pc.Excl? && !e.pc.Shared?
  {}

  lemma LockMove(s: State, i: nat)
    requires LockInv(s) && MoveEnabled(s, i)
    ensures LockInv(MoveNext(s, i))
  {
    var pc, s' := s.readers[i].pc, MoveNext(s, i);
    var e := MoveEffect(s, pc);
    EffectLock(s, pc);
    assert ReaderLock(s.lock, pc, i);
    if e.lock.DropRead? && s'.lock.Read? { var j :| j in s'.lock.readers; }
    forall j | 0 <= j < |s'.readers| ensures ReaderLock(s'.lock, s'.readers[j].pc, j) {
      assert ReaderLock(s.lock, s.readers[j].pc, j);
    }
  }

  lemma LockStep(s: State, a: Action)
    requires LockInv(s) && Enabled(s, a)
    ensures LockInv(Next(s, a))
  {
    match a
    case Env(i, op) => LockEnv(s, i, op);
    case Move(i) => LockMove(s, i);
    case Consume(quit) => LockConsume(s, quit);
    case StopCall =>
    case Stop => LockStop(s);
  }

  lemma LockEnv(s: State, i: nat, op: EnvOp)
    requires LockInv(s) && EnvEnabled(s, i, op)
    ensures LockInv(EnvNext(s, i, op))
  {}

  lemma LockConsume(s: State, quit: bool)
    requires LockInv(s) && ConsumeEnabled(s, quit)
    ensures LockInv(ConsumeNext(s, quit))
  {}

  lemma LockStop(s: State)
    requires LockInv(s) && StopEnabled(s)
    ensures LockInv(StopNext(s))
  {}

  // ---------------------------------------------------------------- local shape

  /** The frames of a reader's latest RTP run are all accounted for, up to what its step still owes. */
  predicate TallyOk(r: Reader) {
    match r.pc
    case RtpLock(n) => r.offered == r.published == r.dropped == 0
    case Shared(y) => (
      match y
      case TestStop(n) => r.offered == r.published == r.dropped == 0
      case TestSip(n) => r.offered == n && r.published == r.dropped == 0
      case LoadQ(n) => r.offered == n && r.published == r.dropped == 0
      case CasQ(n, _, a) => r.offered == n && a <= n && r.published == r.dropped == 0
      case Drop(n, a, d) => a <= d <= n == r.offered && r.published == 0 && r.dropped == d - a
      case OwnQ(a, _) => r.published == 0 && r.offered == a + r.dropped
      case Quit => r.offered == r.published + r.dropped)
    case _ => r.offered == r.published + r.dropped
  }

  /** Runs are not empty, a SIP run fits an empty queue, a pending compare-and-swap fits if it succeeds. */
  predicate SizeOk(max: nat, epoch: nat, pc: Pc) {
    match pc
    case Idle => true
    case SipLock(n) => SipSize(max, n)
    case SipWait(n, _, e) => SipSize(max, n) && e <= epoch
    case SipRelock(n, _) => SipSize(max, n)
    case RtpLock(n) => 1 <= n
    case Excl(x) => (
      match x
      case Enter(n) => SipSize(max, n)
      case Try(n, _, at) => SipSize(max, n) && (at.Cas? ==> n <= max - at.q) && (at.Leave? ==> at.e <= epoch)
      case Own(n, _, _) => 1 <= n
      case _ => true)
    case Shared(y) => (
      match y
      case TestStop(n) => 1 <= n
      case TestSip(n) => 1 <= n
      case LoadQ(n) => 1 <= n
      case CasQ(n, q, a) => 1 <= a <= n && a <= max - q
      case OwnQ(a, _) => 1 <= a
      case _ => true)
  }

  predicate SipSize(max: nat, n: nat) { 1 <= n && (max > 0 ==> n <= max) }

  predicate HasWork(c: ConsumerPc) { c.Frame? || c.Sub? || c.Wake? || c.Unref? }

  /** Every RTP run offered is published or reported dropped, frame by frame. */
  ghost predicate TallyInv(s: State) { forall i :: 0 <= i < |s.readers| ==> TallyOk(s.readers[i]) }

  ghost predicate SizeInv(s: State) {
    && (forall i :: 0 <= i < |s.readers| ==> SizeOk(s.max, s.gate.epoch, s.readers[i].pc))
    && (forall k :: 0 <= k < |s.pool.chan| ==> 1 <= s.pool.chan[k].size)
    && (HasWork(s.consumer) ==> (s.consumer.w.fin ==> s.consumer.w.rem == 0))
    && (s.consumer.Unref? ==> s.consumer.w.fin)
  }

  /** Only known blocks are referred to, and a reader in a call still holds its root reference. */
  ghost predicate RangeInv(s: State) {
    && (forall i :: 0 <= i < |s.readers| ==> ReaderRange(s.readers[i], |s.pool.blocks|))
    && (forall k :: 0 <= k < |s.pool.chan| ==> s.pool.chan[k].block < |s.pool.blocks|)
    && (HasWork(s.consumer) ==> s.consumer.w.block < |s.pool.blocks|)
  }

  predicate ReaderRange(r: Reader, n: nat) { (!r.pc.Idle? ==> r.open) && (r.open ==> r.block < n) }

  lemma TallyShared(s: State, r: Reader)
    requires TallyOk(r) && r.pc.Shared?
    requires SizeOk(s.max, s.gate.epoch, r.pc)
    ensures TallyOk(ApplyReader(r, SharedEffect(s, r.pc.y)))
  {}

  lemma TallyExcl(s: State, r: Reader)
    requires r.pc.Excl?
    ensures var e := ExclEffect(s, r.pc.x); e.tally.KeepTally? && !e.pc.Shared? && !e.pc.RtpLock?
  {}

  lemma TallyStep(s: State, a: Action)
    requires TallyInv(s) && SizeInv(s) && Enabled(s, a)
    ensures TallyInv(Next(s, a))
  {
    if a.Move? { TallyMove(s, a.i); }
  }

  lemma TallyMove(s: State, i: nat)
    requires TallyInv(s) && SizeInv(s) && MoveEnabled(s, i)
    ensures TallyInv(MoveNext(s, i))
  {
    var r := s.readers[i];
    assert TallyOk(r) && SizeOk(s.max, s.gate.epoch, r.pc);
    if r.pc.Shared? { TallyShared(s, r); } else if r.pc.Excl? { TallyExcl(s, r); }
  }

  lemma SizeTry(s: State, n: nat, t: nat, at: TryAt)
    requires SizeOk(s.max, s.gate.epoch, Excl(Try(n, t, at)))
    ensures SizeOk(s.max, s.gate.epoch, TryEffect(s, n, t, at).pc)
    ensures !TryEffect(s, n, t, at).pool.Send?
  {}

  lemma SizeExcl(s: State, x: Excl)
    requires SizeOk(s.max, s.gate.epoch, Excl(x))
    ensures var e := ExclEffect(s, x); SizeOk(s.max, s.gate.epoch, e.pc) && (e.pool.Send? ==> 1 <= e.pool.n)
  {
    if x.Try? { SizeTry(s, x.n, x.t, x.at); }
  }

  lemma SizeShared(s: State, y: Shr)
    requires SizeOk(s.max, s.gate.epoch, Shared(y))
    ensures var e := SharedEffect(s, y); SizeOk(s.max, s.gate.epoch, e.pc) && (e.pool.Send? ==> 1 <= e.pool.n)
  {}

  lemma SizeEffect(s: State, pc: Pc)
    requires SizeOk(s.max, s.gate.epoch, pc)
    ensures var e := MoveEffect(s, pc); SizeOk(s.max, s.gate.epoch, e.pc) && (e.pool.Send? ==> 1 <= e.pool.n)
  {
    if pc.Excl? { SizeExcl(s, pc.x); } else if pc.Shared? { SizeShared(s, pc.y); }
  }

  lemma SizeGrows(max: nat, epoch: nat, epoch': nat, pc: Pc)
    requires SizeOk(max, epoch, pc) && epoch <= epoch'
    ensures SizeOk(max, epoch', pc)
  {}

  lemma SizeMove(s: State, i: nat)
    requires SizeInv(s) && MoveEnabled(s, i)
    ensures SizeInv(MoveNext(s, i))
  {
    var s' := MoveNext(s, i);
    SizeEffect(s, s.readers[i].pc);
    var pc' := s'.readers[i].pc;
    forall j | 0 <= j < |s'.readers| ensures SizeOk(s.max, s'.gate.epoch, s'.readers[j].pc) {
      SizeGrows(s.max, s.gate.epoch, s'.gate.epoch, if j == i then pc' else s.readers[j].pc);
    }
  }

  lemma SizeEnv(s: State, i: nat, op: EnvOp)
    requires SizeInv(s) && EnvEnabled(s, i, op)
    ensures SizeInv(EnvNext(s, i, op))
  {}

  lemma SizeConsume(s: State, quit: bool)
    requires SizeInv(s) && ConsumeEnabled(s, quit)
    ensures SizeInv(ConsumeNext(s, quit))
  {
    var s' := ConsumeNext(s, quit);
    forall j | 0 <= j < |s'.readers| ensures SizeOk(s.max, s'.gate.epoch, s'.readers[j].pc) {
      SizeGrows(s.max, s.gate.epoch, s'.gate.epoch, s.readers[j].pc);
    }
  }

  lemma SizeStop(s: State)
    requires SizeInv(s) && StopEnabled(s)
    ensures SizeInv(StopNext(s))
  {
    var s' := StopNext(s);
    forall j | 0 <= j < |s'.readers| ensures SizeOk(s.max, s'.gate.epoch, s'.readers[j].pc) {
      SizeGrows(s.max, s.gate.epoch, s'.gate.epoch, s.readers[j].pc);
    }
  }

  lemma SizeStep(s: State, a: Action)
    requires SizeInv(s) && Enabled(s, a)
    ensures SizeInv(Next(s, a))
  {
    match a
    case Env(i, op) => SizeEnv(s, i, op);
    case Move(i) => SizeMove(s, i);
    case Consume(quit) => SizeConsume(s, quit);
    case StopCall =>
    case Stop => SizeStop(s);
  }

  lemma RangeStep(s: State, a: Action)
    requires RangeInv(s) && Enabled(s, a)
    ensures RangeInv(Next(s, a))
  {
    match a
    case Env(i, op) => RangeEnv(s, i, op);
    case Move(i) => RangeMove(s, i);
    case Consume(quit) => RangeConsume(s, quit);
    case StopCall =>
    case Stop =>
  }

  lemma RangeEnv(s: State, i: nat, op: EnvOp)
    requires RangeInv(s) && EnvEnabled(s, i, op)
    ensures RangeInv(EnvNext(s, i, op))
  {}

  lemma RangeConsume(s: State, quit: bool)
    requires RangeInv(s) && ConsumeEnabled(s, quit)
    ensures RangeInv(ConsumeNext(s, quit))
  {}

  lemma RangeMove(s: State, i: nat)
    requires RangeInv(s) && MoveEnabled(s, i)
    ensures RangeInv(MoveNext(s, i))
  {
    var s' := MoveNext(s, i);
    assert ReaderRange(s.readers[i], |s.pool.blocks|);
    assert |s'.pool.blocks| == |s.pool.blocks|;
  }

  // ---------------------------------------------------------------- sums over the readers

  ghost function Sum(rs: seq<Reader>, w: Reader -> int): int {
    if rs == [] then 0 else w(rs[0]) + Sum(rs[1..], w)
  }

  lemma {:induction false} SumUpdate(rs: seq<Reader>, i: nat, r: Reader, w: Reader -> int)
    requires i < |rs|
    ensures Sum(rs[i := r], w) == Sum(rs, w) - w(rs[i]) + w(r)
  {
    if i == 0 {
      assert rs[0 := r][1..] == rs[1..];
    } else {
      assert rs[i := r][1..] == rs[1..][i - 1 := r];
      SumUpdate(rs[1..], i - 1, r, w);
    }
  }

  lemma {:induction false} SumAtLeast(rs: seq<Reader>, w: Reader -> int)
    requires forall r :: w(r) >= 0
    ensures Sum(rs, w) >= 0
    ensures forall i :: 0 <= i < |rs| ==> Sum(rs, w) >= w(rs[i])
  {
    if rs != [] {
      SumAtLeast(rs[1..], w);
      forall i | 0 <= i < |rs| ensures Sum(rs, w) >= w(rs[i]) {
        if i > 0 { assert rs[i] == rs[1..][i - 1]; }
      }
    }
  }

  lemma {:induction false} SumZero(rs: seq<Reader>, w: Reader -> int)
    requires forall i :: 0 <= i < |rs| ==> w(rs[i]) == 0
    ensures Sum(rs, w) == 0
  {
    if rs != [] {
      forall i | 0 <= i < |rs[1..]| ensures w(rs[1..][i]) == 0 { assert rs[1..][i] == rs[i + 1]; }
      SumZero(rs[1..], w);
    }
  }

  // ---------------------------------------------------------------- packets are counted

  /** Packets a reader has reserved and not yet sent. */
  function Reserved(pc: Pc): nat {
    match pc
    case Excl(x) => if x.Own? then x.n else 0
    case Shared(y) => if y.Drop? then y.a else if y.OwnQ? then y.a else 0
    case _ => 0
  }

  /** Packets of the consumer's run that are still counted in queuedPackets. */
  function Held(c: ConsumerPc): nat {
    match c
    case Frame(w) => w.rem
    case Sub(w, k) => w.rem + k
    case Wake(w, _) => w.rem
    case _ => 0
  }

  ghost function Frames(chan: seq<Run>): nat {
    if chan == [] then 0 else chan[0].size + Frames(chan[1..])
  }

  lemma {:induction false} FramesAppend(chan: seq<Run>, r: Run)
    ensures Frames(chan + [r]) == Frames(chan) + r.size
  {
    if chan == [] {
      assert chan + [r] == [r];
    } else {
      assert (chan + [r])[1..] == chan[1..] + [r];
      FramesAppend(chan[1..], r);
    }
  }

  lemma {:induction false} FramesAtLeast(chan: seq<Run>)
    requires forall k :: 0 <= k < |chan| ==> 1 <= chan[k].size
    ensures Frames(chan) >= |chan|
  {
    if chan != [] { FramesAtLeast(chan[1..]); }
  }

  /** queuedPackets is what sits in the channel, at the consumer, and in unsent reservations. */
  ghost predicate CountInv(s: State) {
    && s.pool.queued == Frames(s.pool.chan) + Held(s.consumer) + Sum(s.readers, ReservedBy)
    && s.pool.queued <= s.max
  }

  function ReservedBy(r: Reader): int { Reserved(r.pc) }

  lemma CountEffect(s: State, pc: Pc)
    requires SizeOk(s.max, s.gate.epoch, pc)
    ensures var e := MoveEffect(s, pc);
            match e.pool
            case Reserve(k) => Reserved(e.pc) == k && Reserved(pc) == 0 && k <= s.max - s.pool.queued
            case Send(n) => Reserved(pc) == n && Reserved(e.pc) == 0
            case _ => Reserved(e.pc) == Reserved(pc)
  {
    if pc.Excl? && pc.x.Try? { CountTry(s, pc.x.n, pc.x.t, pc.x.at); }
  }

  lemma CountTry(s: State, n: nat, t: nat, at: TryAt)
    requires SizeOk(s.max, s.gate.epoch, Excl(Try(n, t, at)))
    ensures var e := TryEffect(s, n, t, at);
            match e.pool
            case Reserve(k) => Reserved(e.pc) == k == n && k <= s.max - s.pool.queued
            case Send(_) => false
            case _ => Reserved(e.pc) == 0
  {}

  lemma CountMove(s: State, i: nat)
    requires CountInv(s) && SizeInv(s) && MoveEnabled(s, i)
    ensures CountInv(MoveNext(s, i))
  {
    var r, s' := s.readers[i], MoveNext(s, i);
    CountEffect(s, r.pc);
    SumUpdate(s.readers, i, s'.readers[i], ReservedBy);
    var e := MoveEffect(s, r.pc);
    if e.pool.Send? { FramesAppend(s.pool.chan, Run(e.pool.n, r.block)); }
  }

  lemma CountEnv(s: State, i: nat, op: EnvOp)
    requires CountInv(s) && EnvEnabled(s, i, op)
    ensures CountInv(EnvNext(s, i, op))
  {
    SumUpdate(s.readers, i, EnvNext(s, i, op).readers[i], ReservedBy);
  }

  lemma CountConsume(s: State, quit: bool)
    requires CountInv(s) && SizeInv(s) && ConsumeEnabled(s, quit)
    ensures CountInv(ConsumeNext(s, quit))
  {}

  lemma CountStep(s: State, a: Action)
    requires CountInv(s) && SizeInv(s) && Enabled(s, a)
    ensures CountInv(Next(s, a))
  {
    match a
    case Env(i, op) => CountEnv(s, i, op);
    case Move(i) => CountMove(s, i);
    case Consume(quit) => CountConsume(s, quit);
    case StopCall =>
    case Stop =>
  }

  /** The send made under the admission lock never blocks: there is always a free channel slot. */
  lemma SendHasRoom(s: State, i: nat)
    requires CountInv(s) && SizeInv(s) && i < |s.readers| && Reserved(s.readers[i].pc) > 0
    ensures |s.pool.chan| < s.max
  {
    SumAtLeast(s.readers, ReservedBy);
    FramesAtLeast(s.pool.chan);
    assert ReservedBy(s.readers[i]) > 0;
  }

  // ---------------------------------------------------------------- pendingSIP

  /** 1 between pendingSIP.Add(1) and pendingSIP.Add(-1). */
  function Pending(pc: Pc): nat {
    match pc
    case SipWait(_, _, _) => 1
    case SipRelock(_, _) => 1
    case Excl(x) => if x.Try? then (if x.at.Count? then 0 else 1) else if x.Own? || x.Abort? then 1
                    else if x.Fin? && x.stage.Uncount? then 1 else 0
    case _ => 0
  }

  function PendingBy(r: Reader): int { Pending(r.pc) }

  /** pendingSIP counts the SIP calls that have registered and not finished, and nobody else changes it
      while an RTP call is between its test of pendingSIP and its reservation. */
  ghost predicate PendingInv(s: State) {
    && s.gate.pending == Sum(s.readers, PendingBy)
    && (forall i :: 0 <= i < |s.readers| ==> YieldOk(s.gate.pending, s.readers[i].pc))
  }

  predicate YieldOk(pending: int, pc: Pc) { pc.Shared? && (pc.y.LoadQ? || pc.y.CasQ?) ==> pending == 0 }

  lemma GateNeedsLock(s: State, pc: Pc)
    ensures !pc.Excl? ==> MoveEffect(s, pc).gate.KeepGate?
  {}

  lemma PendingEffect(s: State, pc: Pc)
    requires YieldOk(s.gate.pending, pc)
    ensures var e := MoveEffect(s, pc);
            && Pending(e.pc) == Pending(pc) + (match e.gate case CountIn => 1 case CountOut => -1 case _ => 0)
            && YieldOk(s.gate.pending, e.pc)
            && (pc.Excl? ==> !e.pc.Shared?)
  {}

  lemma PendingMove(s: State, i: nat)
    requires PendingInv(s) && LockInv(s) && MoveEnabled(s, i)
    ensures PendingInv(MoveNext(s, i))
  {
    var r, s' := s.readers[i], MoveNext(s, i);
    assert YieldOk(s.gate.pending, r.pc);
    PendingEffect(s, r.pc);
    GateNeedsLock(s, r.pc);
    SumUpdate(s.readers, i, s'.readers[i], PendingBy);
    assert ReaderLock(s.lock, r.pc, i);
    forall j | 0 <= j < |s'.readers| ensures YieldOk(s'.gate.pending, s'.readers[j].pc) {
      assert YieldOk(s.gate.pending, s.readers[j].pc) && ReaderLock(s.lock, s.readers[j].pc, j);
    }
  }

  lemma PendingEnv(s: State, i: nat, op: EnvOp)
    requires PendingInv(s) && EnvEnabled(s, i, op)
    ensures PendingInv(EnvNext(s, i, op))
  {
    SumUpdate(s.readers, i, EnvNext(s, i, op).readers[i], PendingBy);
  }

  lemma PendingStep(s: State, a: Action)
    requires PendingInv(s) && LockInv(s) && Enabled(s, a)
    ensures PendingInv(Next(s, a))
  {
    match a
    case Env(i, op) => PendingEnv(s, i, op);
    case Move(i) => PendingMove(s, i);
    case Consume(_) =>
    case StopCall =>
    case Stop =>
  }

  // ---------------------------------------------------------------- stopping

  /** Steps between a negative test of stopped and the end of the critical section it was made in. */
  predicate PastStop(pc: Pc) {
    match pc
    case Excl(x) => x.Own? || x.Fin? || (x.Try? && !x.at.Head?)
    case Shared(y) => !y.TestStop? && !y.Quit?
    case _ => false
  }

  /** A SIP call about to return false has seen stopped. */
  predicate Refused(pc: Pc) { pc.Excl? && (pc.x.Abort? || (pc.x.Exit? && !pc.x.ok)) }

  ghost predicate StopInv(s: State) {
    && (s.stopped <==> s.stopper.StopSignal? || s.stopper.StopUnlock? || s.stopper.CloseDone? || s.stopper.Closed?)
    && (s.done <==> s.stopper.Closed?)
    && (forall i :: 0 <= i < |s.readers| ==> StopOk(s.stopped, s.readers[i].pc))
    && (s.consumer.Drain? || s.consumer.Returned? || (HasWork(s.consumer) && s.consumer.w.drain) ==> s.done)
    && (s.consumer.Returned? ==> s.pool.chan == [])
  }

  predicate StopOk(stopped: bool, pc: Pc) { (stopped ==> !PastStop(pc)) && (Refused(pc) ==> stopped) }

  lemma StopEffect(s: State, pc: Pc)
    requires StopOk(s.stopped, pc)
    ensures var e := MoveEffect(s, pc); StopOk(s.stopped, e.pc) && (e.pool.Send? ==> !s.stopped)
  {}

  lemma StopMove(s: State, i: nat)
    requires StopInv(s) && MoveEnabled(s, i)
    ensures StopInv(MoveNext(s, i))
  {
    assert StopOk(s.stopped, s.readers[i].pc);
    StopEffect(s, s.readers[i].pc);
  }

  lemma StopStop(s: State)
    requires StopInv(s) && LockInv(s) && StopEnabled(s)
    ensures StopInv(StopNext(s))
  {
    var s' := StopNext(s);
    forall i | 0 <= i < |s.readers| ensures StopOk(s'.stopped, s.readers[i].pc) {
      assert StopOk(s.stopped, s.readers[i].pc) && ReaderLock(s.lock, s.readers[i].pc, i);
    }
  }

  lemma StopConsume(s: State, quit: bool)
    requires StopInv(s) && ConsumeEnabled(s, quit)
    ensures StopInv(ConsumeNext(s, quit))
  {}

  lemma StopStep(s: State, a: Action)
    requires StopInv(s) && LockInv(s) && Enabled(s, a)
    ensures StopInv(Next(s, a))
  {
    match a
    case Env(i, op) =>
    case Move(i) => StopMove(s, i);
    case Consume(quit) => StopConsume(s, quit);
    case StopCall =>
    case Stop => StopStop(s);
  }

  // ---------------------------------------------------------------- tickets

  predicate HasTicket(pc: Pc) {
    pc.SipWait? || pc.SipRelock? || (pc.Excl? && (pc.x.Try? || pc.x.Own? || (pc.x.Fin? && !pc.x.stage.Signal?)))
  }

  function Ticket(pc: Pc): nat
    requires HasTicket(pc)
  {
    match pc
    case SipWait(_, t, _) => t
    case SipRelock(_, t) => t
    case Excl(x) => x.t
  }

  /** Steps taken only by the call whose ticket is being served. */
  predicate IsServed(pc: Pc) {
    pc.Excl? && (pc.x.Own? || (pc.x.Fin? && !pc.x.stage.Signal?) || (pc.x.Try? && (pc.x.at.Load? || pc.x.at.Cas?)))
  }

  predicate Logged(pc: Pc) { pc.Excl? && pc.x.Fin? && !pc.x.stage.Signal? }

  /** The call has published its run and moved servingSIP past its ticket. */
  predicate Served(pc: Pc) { pc.Excl? && ((pc.x.Fin? && pc.x.stage.Signal?) || (pc.x.Exit? && pc.x.ok)) }

  predicate TicketOk(g: Gate, pc: Pc, i: nat) {
    && (HasTicket(pc) ==>
          var t := Ticket(pc);
          g.serving <= t < |g.owner| && g.owner[t] == i && (IsServed(pc) ==> t == g.serving))
    && (pc.Excl? ==> |g.sipLog| == g.serving + if Logged(pc) then 1 else 0)
    && (Served(pc) ==> pc.x.t < g.serving)
  }

  /** Tickets are drawn and served in order, each by one call; every published SIP run is in the log in
      ticket order; until the queue is stopped each drawn and unserved ticket belongs to a live call. */
  ghost predicate TicketInv(s: State) {
    && |s.gate.owner| == s.gate.next && s.gate.serving <= s.gate.next
    && (forall i :: 0 <= i < |s.readers| ==> TicketOk(s.gate, s.readers[i].pc, i))
    && (!s.stopped ==> forall t :: s.gate.serving <= t < s.gate.next ==> Live(s, t))
    && (forall k :: 0 <= k < |s.gate.sipLog| ==> s.gate.sipLog[k] == k)
    && (!(s.lock.Write? && s.lock.who.ReaderActor?) ==> |s.gate.sipLog| == s.gate.serving)
  }

  ghost predicate Live(s: State, t: nat) {
    && t < |s.gate.owner| && s.gate.owner[t] < |s.readers|
    && HasTicket(s.readers[s.gate.owner[t]].pc) && Ticket(s.readers[s.gate.owner[t]].pc) == t
  }

  lemma TicketEffect(s: State, pc: Pc)
    ensures var e := MoveEffect(s, pc);
            && (match e.gate
                case DrawTicket => !s.stopped && !HasTicket(pc) && HasTicket(e.pc) && Ticket(e.pc) == s.gate.next && !IsServed(e.pc) && !Logged(e.pc)
                case ServeNext => pc.Excl? && pc.x.Fin? && pc.x.stage.Serve? && e.pc == Excl(Fin(pc.x.t, Signal))
                case LogSip(t) => pc.Excl? && pc.x.Own? && pc.x.t == t && e.pc == Excl(Fin(t, Uncount))
                case _ => Logged(e.pc) == Logged(pc)
                          && (Served(e.pc) ==> Served(pc) && e.pc.x.t == pc.x.t)
                          && (HasTicket(e.pc) ==> HasTicket(pc) && Ticket(e.pc) == Ticket(pc)
                                                  && (IsServed(e.pc) ==> IsServed(pc) || Ticket(pc) == s.gate.serving))
                          && (HasTicket(pc) && !HasTicket(e.pc) ==> s.stopped))
  {}

  lemma TicketReaders(s: State, i: nat)
    requires TicketInv(s) && LockInv(s) && MoveEnabled(s, i)
    ensures var s' := MoveNext(s, i); forall j :: 0 <= j < |s'.readers| ==> TicketOk(s'.gate, s'.readers[j].pc, j)
  {
    var pc, s' := s.readers[i].pc, MoveNext(s, i);
    assert TicketOk(s.gate, pc, i) && ReaderLock(s.lock, pc, i);
    TicketEffect(s, pc);
    EffectLock(s, pc);
    GateNeedsLock(s, pc);
    forall j | 0 <= j < |s'.readers| ensures TicketOk(s'.gate, s'.readers[j].pc, j) {
      assert TicketOk(s.gate, s.readers[j].pc, j) && ReaderLock(s.lock, s.readers[j].pc, j);
    }
  }

  lemma TicketLive(s: State, i: nat)
    requires TicketInv(s) && MoveEnabled(s, i) && !s.stopped
    ensures var s' := MoveNext(s, i); forall t :: s'.gate.serving <= t < s'.gate.next ==> Live(s', t)
  {
    var pc, s' := s.readers[i].pc, MoveNext(s, i);
    assert TicketOk(s.gate, pc, i);
    TicketEffect(s, pc);
    forall t | s'.gate.serving <= t < s'.gate.next ensures Live(s', t) {
      if t < s.gate.next { assert Live(s, t); }
    }
  }

  lemma TicketMove(s: State, i: nat)
    requires TicketInv(s) && LockInv(s) && MoveEnabled(s, i)
    ensures TicketInv(MoveNext(s, i))
  {
    var pc := s.readers[i].pc;
    assert TicketOk(s.gate, pc, i) && ReaderLock(s.lock, pc, i);
    TicketReaders(s, i);
    if !s.stopped { TicketLive(s, i); }
    TicketEffect(s, pc);
    EffectLock(s, pc);
    GateNeedsLock(s, pc);
  }

  lemma TicketStep(s: State, a: Action)
    requires TicketInv(s) && LockInv(s) && Enabled(s, a)
    ensures TicketInv(Next(s, a))
  {
    match a
    case Env(i, op) => TicketEnv(s, i, op);
    case Move(i) => TicketMove(s, i);
    case Consume(quit) => TicketConsume(s, quit);
    case StopCall => TicketFrame(s, Next(s, a));
    case Stop => TicketStop(s);
  }

  lemma TicketFrame(s: State, s': State)
    requires TicketInv(s) && s'.readers == s.readers && s'.gate == s.gate.(epoch := s'.gate.epoch)
    requires s'.stopped || s'.stopped == s.stopped
    requires !(s'.lock.Write? && s'.lock.who.ReaderActor?) ==> !(s.lock.Write? && s.lock.who.ReaderActor?)
    ensures TicketInv(s')
  {
    forall j | 0 <= j < |s'.readers| ensures TicketOk(s'.gate, s'.readers[j].pc, j) {
      assert TicketOk(s.gate, s.readers[j].pc, j);
    }
    if !s'.stopped {
      forall t | s'.gate.serving <= t < s'.gate.next ensures Live(s', t) { assert Live(s, t); }
    }
  }

  lemma TicketConsume(s: State, quit: bool)
    requires TicketInv(s) && LockInv(s) && ConsumeEnabled(s, quit)
    ensures TicketInv(ConsumeNext(s, quit))
  {
    WakeLockEffect(s, quit);
    TicketFrame(s, ConsumeNext(s, quit));
  }

  lemma WakeLockEffect(s: State, quit: bool)
    ensures var e := ConsumeEffect(s, quit); e.lock.KeepLock? || e.lock.TakeWrite? || (e.lock.DropWrite? && ConsumerHolds(s.consumer))
  {}

  lemma TicketStop(s: State)
    requires TicketInv(s) && LockInv(s) && StopEnabled(s)
    ensures TicketInv(StopNext(s))
  {
    TicketFrame(s, StopNext(s));
  }

  lemma TicketEnv(s: State, i: nat, op: EnvOp)
    requires TicketInv(s) && EnvEnabled(s, i, op)
    ensures TicketInv(EnvNext(s, i, op))
  {
    var s' := EnvNext(s, i, op);
    assert TicketOk(s.gate, s.readers[i].pc, i);
    forall j | 0 <= j < |s'.readers| ensures TicketOk(s'.gate, s'.readers[j].pc, j) {
      assert TicketOk(s.gate, s.readers[j].pc, j);
    }
    if !s.stopped {
      forall t | s'.gate.serving <= t < s'.gate.next ensures Live(s', t) { assert Live(s, t); }
    }
  }

  // ---------------------------------------------------------------- no lost wakeup

  /** The call has read, or is about to read, the current admission channel and will wait on it. */
  predicate Parks(epoch: nat, pc: Pc) {
    match pc
    case SipWait(_, _, e) => e == epoch
    case Excl(x) => x.Try? && (x.at.Prep? || (x.at.Leave? && x.at.e == epoch))
    case _ => false
  }

  function Size(pc: Pc): nat {
    match pc
    case SipLock(n) => n
    case SipWait(n, _, _) => n
    case SipRelock(n, _) => n
    case Excl(x) => if x.Enter? || x.Try? || x.Own? then x.n else 0
    case _ => 0
  }

  /** The call has nothing to wait for: the queue is stopped, or it is first and its packets fit. */
  predicate Ready(s: State, pc: Pc) {
    s.stopped || (HasTicket(pc) && Ticket(pc) == s.gate.serving && Size(pc) <= s.max - s.pool.queued)
  }

  /** Someone has changed the state a waiter depends on and has not replaced the channel yet. */
  ghost predicate Waker(s: State) {
    || (s.consumer.Wake? && !s.consumer.stage.WakeUnlock?)
    || s.stopper.StopSignal?
    || (s.lock.Write? && s.lock.who.ReaderActor? && s.lock.who.i < |s.readers|
        && s.readers[s.lock.who.i].pc.Excl? && s.readers[s.lock.who.i].pc.x.Fin? && s.readers[s.lock.who.i].pc.x.stage.Signal?)
  }

  ghost predicate WakeInv(s: State) {
    forall i :: 0 <= i < |s.readers| && Parks(s.gate.epoch, s.readers[i].pc) && Ready(s, s.readers[i].pc) ==> Waker(s)
  }

  lemma ParksEffect(s: State, pc: Pc)
    requires StopOk(s.stopped, pc)
    ensures var e := MoveEffect(s, pc);
            Parks(s.gate.epoch, e.pc) && Ready(s, e.pc) ==> Parks(s.gate.epoch, pc) && Ready(s, pc)
    ensures var e := MoveEffect(s, pc);
            && (e.gate.ServeNext? ==> e.pc.Excl? && e.pc.x.Fin? && e.pc.x.stage.Signal?)
            && (e.gate.Replace? ==> pc.Excl? && !Parks(s.gate.epoch + 1, e.pc))
            && (pc.Excl? && pc.x.Fin? && pc.x.stage.Signal? ==> e.gate.Replace?)
  {}

  lemma WakeMove(s: State, i: nat)
    requires WakeInv(s) && LockInv(s) && StopInv(s) && SizeInv(s) && MoveEnabled(s, i)
    ensures WakeInv(MoveNext(s, i))
  {
    var pc, s' := s.readers[i].pc, MoveNext(s, i);
    var e := MoveEffect(s, pc);
    assert StopOk(s.stopped, pc) && ReaderLock(s.lock, pc, i);
    ParksEffect(s, pc);
    EffectLock(s, pc);
    GateNeedsLock(s, pc);
    forall j | 0 <= j < |s'.readers| && Parks(s'.gate.epoch, s'.readers[j].pc) && Ready(s', s'.readers[j].pc)
      ensures Waker(s')
    {
      assert ReaderLock(s.lock, s.readers[j].pc, j) && SizeOk(s.max, s.gate.epoch, s.readers[j].pc);
      if !e.gate.ServeNext? && !e.gate.Replace? {
        assert Parks(s.gate.epoch, s.readers[j].pc) && Ready(s, s.readers[j].pc);
      }
    }
  }

  lemma WakeEnv(s: State, i: nat, op: EnvOp)
    requires WakeInv(s) && LockInv(s) && EnvEnabled(s, i, op)
    ensures WakeInv(EnvNext(s, i, op))
  {
    assert ReaderLock(s.lock, s.readers[i].pc, i);
  }

  /** A waiting call is counted in pendingSIP, so no releaser skips the signal while one waits. */
  lemma WaiterIsPending(s: State, i: nat)
    requires PendingInv(s) && i < |s.readers| && Parks(s.gate.epoch, s.readers[i].pc)
    ensures s.gate.pending > 0
  {
    SumAtLeast(s.readers, PendingBy);
    assert PendingBy(s.readers[i]) == 1;
  }

  lemma WakeConsume(s: State, quit: bool)
    requires WakeInv(s) && LockInv(s) && PendingInv(s) && SizeInv(s) && ConsumeEnabled(s, quit)
    ensures WakeInv(ConsumeNext(s, quit))
  {
    var s' := ConsumeNext(s, quit);
    forall j | 0 <= j < |s'.readers| && Parks(s'.gate.epoch, s'.readers[j].pc) && Ready(s', s'.readers[j].pc)
      ensures Waker(s')
    {
      assert ReaderLock(s.lock, s.readers[j].pc, j) && SizeOk(s.max, s.gate.epoch, s.readers[j].pc);
      if s'.gate.epoch == s.gate.epoch { WaiterIsPending(s, j); }
    }
  }

  lemma WakeStop(s: State)
    requires WakeInv(s) && LockInv(s) && SizeInv(s) && StopInv(s) && StopEnabled(s)
    ensures WakeInv(StopNext(s))
  {
    var s' := StopNext(s);
    forall j | 0 <= j < |s'.readers| && Parks(s'.gate.epoch, s'.readers[j].pc) && Ready(s', s'.readers[j].pc)
      ensures Waker(s')
    {
      assert ReaderLock(s.lock, s.readers[j].pc, j) && SizeOk(s.max, s.gate.epoch, s.readers[j].pc);
    }
  }

  lemma WakeStep(s: State, a: Action)
    requires WakeInv(s) && LockInv(s) && PendingInv(s) && SizeInv(s) && StopInv(s) && Enabled(s, a)
    ensures WakeInv(Next(s, a))
  {
    match a
    case Env(i, op) => WakeEnv(s, i, op);
    case Move(i) => WakeMove(s, i);
    case Consume(quit) => WakeConsume(s, quit);
    case StopCall =>
    case Stop => WakeStop(s);
  }

  // ---------------------------------------------------------------- blocks and runs

  /** The retained reference of a run between retain and send. */
  predicate Retained(pc: Pc) { (pc.Excl? && pc.x.Own? && pc.x.retained) || (pc.Shared? && pc.y.OwnQ? && pc.y.retained) }

  function BorrowOf(r: Reader, b: nat): int {
    if r.block == b then (if r.open then 1 else 0) + (if Retained(r.pc) then 1 else 0) else 0
  }

  function BorrowBy(b: nat): Reader -> int { (r: Reader) => BorrowOf(r, b) }

  ghost function RunsOf(chan: seq<Run>, b: nat): nat {
    if chan == [] then 0 else (if chan[0].block == b then 1 else 0) + RunsOf(chan[1..], b)
  }

  lemma {:induction false} RunsAppend(chan: seq<Run>, r: Run, b: nat)
    ensures RunsOf(chan + [r], b) == RunsOf(chan, b) + if r.block == b then 1 else 0
  {
    if chan == [] {
      assert chan + [r] == [r];
    } else {
      assert (chan + [r])[1..] == chan[1..] + [r];
      RunsAppend(chan[1..], r, b);
    }
  }

  lemma {:induction false} RunsNone(chan: seq<Run>, b: nat)
    requires forall k :: 0 <= k < |chan| ==> chan[k].block < b
    ensures RunsOf(chan, b) == 0
  {
    if chan != [] { RunsNone(chan[1..], b); }
  }

  function ConsumerBorrow(c: ConsumerPc, b: nat): nat { if HasWork(c) && c.w.block == b then 1 else 0 }

  /** References on block b: root references, retained but unsent runs, runs in the channel, the run at the
      consumer. */
  ghost function Borrowers(s: State, b: nat): int {
    Sum(s.readers, BorrowBy(b)) + RunsOf(s.pool.chan, b) + ConsumerBorrow(s.consumer, b)
  }

  /** A block's count is the number of its borrowers, and its release function has run exactly once if
      that is zero and not at all otherwise. */
  ghost predicate BlockInv(s: State) {
    forall b :: 0 <= b < |s.pool.blocks| ==>
      s.pool.blocks[b].refs == Borrowers(s, b) && s.pool.blocks[b].freed == if s.pool.blocks[b].refs == 0 then 1 else 0
  }

  lemma BlockEffect(s: State, pc: Pc)
    ensures var e := MoveEffect(s, pc);
            match e.pool
            case Retain => !Retained(pc) && Retained(e.pc)
            case Send(_) => Retained(pc) && !Retained(e.pc)
            case _ => Retained(e.pc) == Retained(pc)
  {}

  lemma BlockMove(s: State, i: nat)
    requires BlockInv(s) && RangeInv(s) && MoveEnabled(s, i)
    ensures BlockInv(MoveNext(s, i))
  {
    var r, s' := s.readers[i], MoveNext(s, i);
    var e := MoveEffect(s, r.pc);
    BlockEffect(s, r.pc);
    assert ReaderRange(r, |s.pool.blocks|);
    forall b | 0 <= b < |s'.pool.blocks|
      ensures s'.pool.blocks[b].refs == Borrowers(s', b)
      ensures s'.pool.blocks[b].freed == if s'.pool.blocks[b].refs == 0 then 1 else 0
    {
      SumUpdate(s.readers, i, s'.readers[i], BorrowBy(b));
      SumAtLeast(s.readers, BorrowBy(b));
      assert BorrowBy(b)(s.readers[i]) == BorrowOf(s.readers[i], b);
      if e.pool.Send? { RunsAppend(s.pool.chan, Run(e.pool.n, r.block), b); }
    }
  }

  lemma BlockEnv(s: State, i: nat, op: EnvOp)
    requires BlockInv(s) && RangeInv(s) && EnvEnabled(s, i, op)
    ensures BlockInv(EnvNext(s, i, op))
  {
    var r, s' := s.readers[i], EnvNext(s, i, op);
    forall b | 0 <= b < |s'.pool.blocks|
      ensures s'.pool.blocks[b].refs == Borrowers(s', b)
      ensures s'.pool.blocks[b].freed == if s'.pool.blocks[b].refs == 0 then 1 else 0
    {
      SumUpdate(s.readers, i, s'.readers[i], BorrowBy(b));
      SumAtLeast(s.readers, BorrowBy(b));
      assert BorrowBy(b)(r) == BorrowOf(r, b);
      if b == |s.pool.blocks| {
        forall j | 0 <= j < |s.readers| ensures BorrowBy(b)(s.readers[j]) == 0 {
          assert ReaderRange(s.readers[j], |s.pool.blocks|);
        }
        SumZero(s.readers, BorrowBy(b));
        RunsNone(s.pool.chan, b);
      }
    }
  }

  lemma BlockConsume(s: State, quit: bool)
    requires BlockInv(s) && RangeInv(s) && ConsumeEnabled(s, quit)
    ensures BlockInv(ConsumeNext(s, quit))
  {
    ConsumerBlocks(s, quit);
    var s' := ConsumeNext(s, quit);
    forall b | 0 <= b < |s'.pool.blocks|
      ensures s'.pool.blocks[b].refs == Borrowers(s', b)
      ensures s'.pool.blocks[b].freed == if s'.pool.blocks[b].refs == 0 then 1 else 0
    {
      SumAtLeast(s.readers, BorrowBy(b));
    }
  }

  /** The consumer's step keeps its run, takes the first one of the channel, or gives its run up. */
  lemma ConsumerBlocks(s: State, quit: bool)
    requires ConsumeEnabled(s, quit)
    ensures var e := ConsumeEffect(s, quit);
            match e.pool
            case TakeRun => s.pool.chan != [] && !HasWork(s.consumer) && HasWork(e.pc) && e.pc.w.block == s.pool.chan[0].block
            case Finish(b) => HasWork(s.consumer) && s.consumer.w.block == b && !HasWork(e.pc)
            case _ => HasWork(e.pc) == HasWork(s.consumer) && (HasWork(e.pc) ==> e.pc.w.block == s.consumer.w.block)
  {}

  lemma BlockStep(s: State, a: Action)
    requires BlockInv(s) && RangeInv(s) && Enabled(s, a)
    ensures BlockInv(Next(s, a))
  {
    match a
    case Env(i, op) => BlockEnv(s, i, op);
    case Move(i) => BlockMove(s, i);
    case Consume(quit) => BlockConsume(s, quit);
    case StopCall =>
    case Stop =>
  }

  /** Every published run is in the channel, at the consumer, or released. */
  ghost predicate FlowInv(s: State) {
    s.pool.sent == s.pool.finished + |s.pool.chan| + if HasWork(s.consumer) then 1 else 0
  }

  lemma FlowStep(s: State, a: Action)
    requires FlowInv(s) && Enabled(s, a)
    ensures FlowInv(Next(s, a))
  {
    if a.Consume? { ConsumerBlocks(s, a.quit); }
  }

  // ---------------------------------------------------------------- runs of the machine

  ghost predicate Inv(s: State) {
    && LockInv(s) && TallyInv(s) && SizeInv(s) && RangeInv(s) && CountInv(s) && PendingInv(s)
    && StopInv(s) && TicketInv(s) && WakeInv(s) && BlockInv(s) && FlowInv(s)
  }

  predicate Init(s: State) {
    && s.lock == Free && s.gate == Gate(0, 0, 0, 0, [], []) && s.pool == Pool(0, [], [], 0, 0)
    && !s.stopped && !s.done && s.consumer == Top && s.stopper == Running
    && forall i :: 0 <= i < |s.readers| ==> s.readers[i] == Reader(Idle, false, 0, 0, 0, 0)
  }

  lemma InitLocal(s: State)
    requires Init(s)
    ensures LockInv(s) && TallyInv(s) && RangeInv(s)
  {}

  lemma InitGate(s: State)
    requires Init(s)
    ensures SizeInv(s) && StopInv(s) && TicketInv(s)
  {}

  lemma InitSums(s: State)
    requires Init(s)
    ensures CountInv(s) && PendingInv(s)
  {
    SumZero(s.readers, ReservedBy);
    SumZero(s.readers, PendingBy);
  }

  lemma InitInv(s: State)
    requires Init(s)
    ensures Inv(s)
  {
    InitLocal(s);
    InitGate(s);
    InitSums(s);
    assert WakeInv(s) && BlockInv(s) && FlowInv(s);
  }

  lemma InvStep(s: State, a: Action)
    requires Inv(s) && Enabled(s, a)
    ensures Inv(Next(s, a))
  {
    LockStep(s, a);
    TallyStep(s, a);
    SizeStep(s, a);
    RangeStep(s, a);
    CountStep(s, a);
    PendingStep(s, a);
    StopStep(s, a);
    TicketStep(s, a);
    WakeStep(s, a);
    BlockStep(s, a);
    FlowStep(s, a);
  }

  ghost predicate Step(s: State, s': State) { exists a :: Enabled(s, a) && s' == Next(s, a) }

  /** An interleaving of the actors' steps from the initial state. */
  ghost predicate IsRun(tr: seq<State>) {
    && tr != [] && Init(tr[0])
    && forall k :: 0 < k < |tr| ==> Step(tr[k - 1], tr[k])
  }

  lemma {:induction false} RunInv(tr: seq<State>, k: nat)
    requires IsRun(tr) && k < |tr|
    ensures Inv(tr[k])
  {
    if k == 0 {
      InitInv(tr[0]);
    } else {
      RunInv(tr, k - 1);
      assert Step(tr[k - 1], tr[k]);
      var a :| Enabled(tr[k - 1], a) && tr[k] == Next(tr[k - 1], a);
      InvStep(tr[k - 1], a);
    }
  }

  // ---------------------------------------------------------------- main results

  /** No lost wakeup: in every interleaving, when a SIP call waits on the current channel although it is first and
      its packets fit (or the queue is stopped), someone is on the way to replacing that channel, and a releaser
      on that way will find pendingSIP non-zero. */
  lemma NoLostWakeup(tr: seq<State>, k: nat, i: nat)
    requires IsRun(tr) && k < |tr| && i < |tr[k].readers|
    requires Parks(tr[k].gate.epoch, tr[k].readers[i].pc) && Ready(tr[k], tr[k].readers[i].pc)
    ensures Waker(tr[k]) && tr[k].gate.pending > 0
  {
    RunInv(tr, k);
    WaiterIsPending(tr[k], i);
  }

  /** The channel send made under the admission lock can always be taken at once, and the count stays in range. */
  lemma SendNeverBlocks(tr: seq<State>, k: nat, i: nat)
    requires IsRun(tr) && k < |tr| && i < |tr[k].readers|
    requires MoveEffect(tr[k], tr[k].readers[i].pc).pool.Send?
    ensures MoveEnabled(tr[k], i)
    ensures |tr[k].pool.chan| < tr[k].max && |tr[k].pool.chan| < tr[k].pool.queued <= tr[k].max
  {
    RunInv(tr, k);
    var s := tr[k];
    assert SizeOk(s.max, s.gate.epoch, s.readers[i].pc) && ReservedBy(s.readers[i]) >= 1;
    SendHasRoom(s, i);
    SumAtLeast(s.readers, ReservedBy);
    FramesAtLeast(s.pool.chan);
  }

  /** A reader inside a critical section is never held up. */
  lemma HolderMoves(s: State, i: nat)
    requires LockInv(s) && SizeInv(s) && RangeInv(s) && CountInv(s)
    requires i < |s.readers| && (s.readers[i].pc.Excl? || s.readers[i].pc.Shared?)
    ensures MoveEnabled(s, i)
  {
    var pc := s.readers[i].pc;
    assert ReaderRange(s.readers[i], |s.pool.blocks|) && SizeOk(s.max, s.gate.epoch, pc);
    HolderEffect(s, pc);
    if Reserved(pc) > 0 { SendHasRoom(s, i); }
  }

  lemma HolderEffect(s: State, pc: Pc)
    requires (pc.Excl? || pc.Shared?) && SizeOk(s.max, s.gate.epoch, pc)
    ensures var e := MoveEffect(s, pc);
            !e.lock.TakeWrite? && !e.lock.TakeRead? && (e.pool.Send? ==> Reserved(pc) > 0)
  {}

  /** With an open lock, nothing at the consumer and nothing in the channel, the call that is first in line can
      take its next step: an empty queue holds nobody up. */
  lemma EmptyQueueServesHead(s: State, i: nat)
    requires Inv(s) && s.max > 0 && !s.stopped && s.lock.Free?
    requires s.pool.chan == [] && !HasWork(s.consumer)
    requires i < |s.readers| && HasTicket(s.readers[i].pc)
    ensures s.gate.serving < s.gate.next && MoveEnabled(s, s.gate.owner[s.gate.serving])
  {
    assert TicketOk(s.gate, s.readers[i].pc, i);
    assert Live(s, s.gate.serving);
    var h := s.gate.owner[s.gate.serving];
    var pc := s.readers[h].pc;
    assert ReaderLock(s.lock, pc, h) && SizeOk(s.max, s.gate.epoch, pc);
    if pc.SipWait? && pc.e == s.gate.epoch {
      NothingReserved(s);
      assert Ready(s, pc) && Parks(s.gate.epoch, pc);
      assert false;
    }
  }

  lemma NothingReserved(s: State)
    requires LockInv(s) && CountInv(s) && s.lock.Free?
    ensures s.pool.queued == Frames(s.pool.chan) + Held(s.consumer)
  {
    forall j | 0 <= j < |s.readers| ensures ReservedBy(s.readers[j]) == 0 { assert ReaderLock(s.lock, s.readers[j].pc, j); }
    SumZero(s.readers, ReservedBy);
  }

  /** Steps of a call, of the consumer or of Close that are already under way. */
  predicate Internal(a: Action) { a.Move? || a.Consume? || a.Stop? }

  lemma SomeoneMoves(s: State, i: nat)
    requires Inv(s) && s.max > 0 && i < |s.readers| && !s.readers[i].pc.Idle?
    ensures exists a :: Internal(a) && Enabled(s, a)
  {
    match s.lock
    case Write(who) => {
      match who
      case ReaderActor(j) => assert ReaderLock(s.lock, s.readers[j].pc, j); HolderMoves(s, j); assert Enabled(s, Move(j));
      case ConsumerActor => assert Enabled(s, Consume(false));
      case StopperActor => assert Enabled(s, Stop);
    }
    case Read(rs) =>
      var j :| j in rs;
      assert ReaderLock(s.lock, s.readers[j].pc, j);
      HolderMoves(s, j);
      assert Enabled(s, Move(j));
    case Free => FreeLockMoves(s, i);
  }

  /** No stuck state: while any call is inside the queue some step other than a new call is possible. */
  lemma NoDeadlock(tr: seq<State>, k: nat, i: nat)
    requires IsRun(tr) && k < |tr| && tr[k].max > 0
    requires i < |tr[k].readers| && !tr[k].readers[i].pc.Idle?
    ensures exists a :: Internal(a) && Enabled(tr[k], a)
  {
    RunInv(tr, k);
    SomeoneMoves(tr[k], i);
  }

  lemma FreeLockMoves(s: State, i: nat)
    requires Inv(s) && s.max > 0 && s.lock.Free? && i < |s.readers| && !s.readers[i].pc.Idle?
    ensures exists a :: Internal(a) && Enabled(s, a)
  {
    var pc := s.readers[i].pc;
    assert ReaderLock(s.lock, pc, i) && SizeOk(s.max, s.gate.epoch, pc);
    if !pc.SipWait? || pc.e < s.gate.epoch {
      assert Enabled(s, Move(i));
    } else if s.stopped {
      assert Parks(s.gate.epoch, pc) && Ready(s, pc);
      assert Enabled(s, Consume(false));
    } else if s.pool.chan != [] || HasWork(s.consumer) {
      assert Enabled(s, Consume(false));
    } else {
      EmptyQueueServesHead(s, i);
      assert Enabled(s, Move(s.gate.owner[s.gate.serving]));
    }
  }

  /** SIP runs are published in ticket order, a call that returns true has published its run, and a call
      returns false only when the queue is stopped. */
  lemma SipInOrder(tr: seq<State>, k: nat, i: nat)
    requires IsRun(tr) && k < |tr| && i < |tr[k].readers|
    ensures var log := tr[k].gate.sipLog; forall j :: 0 <= j < |log| ==> log[j] == j
    ensures var pc := tr[k].readers[i].pc;
            pc.Excl? && pc.x.Exit? ==> if pc.x.ok then pc.x.t in tr[k].gate.sipLog else tr[k].stopped
  {
    RunInv(tr, k);
    var s := tr[k];
    var pc := s.readers[i].pc;
    assert TicketOk(s.gate, pc, i) && StopOk(s.stopped, pc);
    if pc.Excl? && pc.x.Exit? && pc.x.ok { assert s.gate.sipLog[pc.x.t] == pc.x.t; }
  }

  /** An RTP call reserves only while no SIP call is registered. */
  lemma RtpYields(tr: seq<State>, k: nat, i: nat)
    requires IsRun(tr) && k < |tr| && i < |tr[k].readers|
    requires tr[k].readers[i].pc.Shared? && MoveEffect(tr[k], tr[k].readers[i].pc).pool.Reserve?
    ensures forall j :: 0 <= j < |tr[k].readers| ==> Pending(tr[k].readers[j].pc) == 0
  {
    RunInv(tr, k);
    var s := tr[k];
    assert YieldOk(s.gate.pending, s.readers[i].pc);
    SumAtLeast(s.readers, PendingBy);
    forall j | 0 <= j < |s.readers| ensures Pending(s.readers[j].pc) == 0 { assert PendingBy(s.readers[j]) <= 0; }
  }

  /** Once a call has returned, the frames of the reader's latest RTP run are each published or reported dropped. */
  lemma RtpConserved(tr: seq<State>, k: nat, i: nat)
    requires IsRun(tr) && k < |tr| && i < |tr[k].readers| && tr[k].readers[i].pc.Idle?
    ensures tr[k].readers[i].offered == tr[k].readers[i].published + tr[k].readers[i].dropped
  {
    RunInv(tr, k);
    assert TallyOk(tr[k].readers[i]);
  }

  lemma StoppedStep(s: State, a: Action)
    requires StopInv(s) && s.stopped && Enabled(s, a)
    ensures Next(s, a).stopped && Next(s, a).pool.sent == s.pool.sent
  {
    if a.Move? {
      assert StopOk(s.stopped, s.readers[a.i].pc);
      StopEffect(s, s.readers[a.i].pc);
    }
  }

  lemma StoppedNext(tr: seq<State>, k: nat)
    requires IsRun(tr) && k + 1 < |tr| && tr[k].stopped
    ensures tr[k + 1].stopped && tr[k + 1].pool.sent == tr[k].pool.sent
  {
    RunInv(tr, k);
    assert Step(tr[k + 1 - 1], tr[k + 1]);
    var a :| Enabled(tr[k], a) && tr[k + 1] == Next(tr[k], a);
    StoppedStep(tr[k], a);
  }

  /** After stop has marked the queue, no run is ever published. */
  lemma {:induction false} NothingAfterStop(tr: seq<State>, j: nat, k: nat)
    requires IsRun(tr) && j <= k < |tr| && tr[j].stopped
    ensures tr[k].stopped && tr[k].pool.sent == tr[j].pool.sent
    decreases k
  {
    if j < k {
      NothingAfterStop(tr, j, k - 1);
      StoppedNext(tr, k - 1);
    }
  }

  /** Shutdown drains everything: when the consumer has returned the channel is empty, every published run has been
      released, no packet is counted, and every block that no reader is inside has gone back exactly once. */
  lemma ShutdownDrains(tr: seq<State>, k: nat)
    requires IsRun(tr) && k < |tr| && tr[k].consumer.Returned?
    ensures tr[k].pool.chan == [] && tr[k].pool.finished == tr[k].pool.sent && tr[k].pool.queued == 0
    ensures forall b :: 0 <= b < |tr[k].pool.blocks| && (forall i :: 0 <= i < |tr[k].readers| && tr[k].readers[i].open ==> tr[k].readers[i].block != b) ==>
              tr[k].pool.blocks[b] == Block(0, 1)
  {
    RunInv(tr, k);
    var s := tr[k];
    forall i | 0 <= i < |s.readers| ensures ReservedBy(s.readers[i]) == 0 {
      assert StopOk(s.stopped, s.readers[i].pc) && SizeOk(s.max, s.gate.epoch, s.readers[i].pc);
    }
    SumZero(s.readers, ReservedBy);
    forall b | 0 <= b < |s.pool.blocks| && (forall i :: 0 <= i < |s.readers| && s.readers[i].open ==> s.readers[i].block != b)
      ensures s.pool.blocks[b] == Block(0, 1)
    {
      forall i | 0 <= i < |s.readers| ensures BorrowBy(b)(s.readers[i]) == 0 { assert ReaderRange(s.readers[i], |s.pool.blocks|); }
      SumZero(s.readers, BorrowBy(b));
    }
  }

  /** Without capacity nothing is ever reserved, so no run is published. */
  lemma NothingFits(s: State, i: nat)
    requires Inv(s) && s.max == 0 && i < |s.readers|
    ensures Reserved(s.readers[i].pc) == 0
  {
    SumAtLeast(s.readers, ReservedBy);
    FramesAtLeast(s.pool.chan);
    assert ReservedBy(s.readers[i]) <= Sum(s.readers, ReservedBy);
  }

  lemma NothingLogged(s: State, a: Action)
    requires Inv(s) && s.max == 0 && Enabled(s, a) && s.gate.sipLog == []
    ensures Next(s, a).gate.sipLog == []
  {
    if a.Move? {
      NothingFits(s, a.i);
      assert SizeOk(s.max, s.gate.epoch, s.readers[a.i].pc);
    }
  }

  lemma {:induction false} NeverLogged(tr: seq<State>, k: nat)
    requires IsRun(tr) && k < |tr| && tr[0].max == 0
    ensures tr[k].max == 0 && tr[k].gate.sipLog == []
  {
    if k > 0 {
      NeverLogged(tr, k - 1);
      RunInv(tr, k - 1);
      assert Step(tr[k - 1], tr[k]);
      var a :| Enabled(tr[k - 1], a) && tr[k] == Next(tr[k - 1], a);
      NothingLogged(tr[k - 1], a);
    }
  }

  predicate Waits(pc: Pc) { HasTicket(pc) && !(pc.Excl? && (pc.x.Own? || pc.x.Fin?)) }

  lemma KeepsTicket(s: State, a: Action, i: nat)
    requires Enabled(s, a) && !s.stopped && i < |s.readers| && Waits(s.readers[i].pc)
    ensures i < |Next(s, a).readers| && HasTicket(Next(s, a).readers[i].pc)
  {}

  lemma OnlyWaits(s: State, i: nat)
    requires Inv(s) && s.max == 0 && s.gate.sipLog == [] && i < |s.readers| && HasTicket(s.readers[i].pc)
    ensures Waits(s.readers[i].pc)
  {
    NothingFits(s, i);
    assert TicketOk(s.gate, s.readers[i].pc, i) && SizeOk(s.max, s.gate.epoch, s.readers[i].pc);
  }

  /** With capacity zero no SIP run is published, and a call returns only when the queue is stopped: until then one with a
      ticket keeps it. */
  lemma ZeroCapacityWaits(tr: seq<State>, k: nat, i: nat)
    requires IsRun(tr) && k + 1 < |tr| && tr[0].max == 0 && i < |tr[k].readers|
    requires HasTicket(tr[k].readers[i].pc) && !tr[k].stopped
    ensures i < |tr[k + 1].readers| && HasTicket(tr[k + 1].readers[i].pc) && tr[k + 1].gate.sipLog == []
  {
    NeverLogged(tr, k);
    NeverLogged(tr, k + 1);
    RunInv(tr, k);
    OnlyWaits(tr[k], i);
    assert Step(tr[k + 1 - 1], tr[k + 1]);
    var a :| Enabled(tr[k], a) && tr[k + 1] == Next(tr[k], a);
    KeepsTicket(tr[k], a, i);
  }

  /** A block whose release function has run is never borrowed again. */
  lemma FreedStaysFreed(s: State, a: Action, b: nat)
    requires Inv(s) && Enabled(s, a) && b < |s.pool.blocks| && s.pool.blocks[b].freed == 1
    ensures b < |Next(s, a).pool.blocks| && Next(s, a).pool.blocks[b] == Block(0, 1)
  {
    InvStep(s, a);
    FreedStep(s, a, b);
  }

  lemma FreedStep(s: State, a: Action, b: nat)
    requires BlockInv(s) && RangeInv(s) && Enabled(s, a) && b < |s.pool.blocks| && s.pool.blocks[b].refs == 0
    ensures b < |Next(s, a).pool.blocks| && Next(s, a).pool.blocks[b] == s.pool.blocks[b]
  {
    SumAtLeast(s.readers, BorrowBy(b));
    if a.Move? {
      var r := s.readers[a.i];
      assert ReaderRange(r, |s.pool.blocks|) && BorrowBy(b)(r) == BorrowOf(r, b);
    } else if a.Env? {
      var r := s.readers[a.i];
      assert BorrowBy(b)(r) == BorrowOf(r, b);
    } else if a.Consume? {
      ConsumerBlocks(s, a.quit);
    }
  }
}
