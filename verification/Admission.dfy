/**
 The packet admission queue (`packetBatchQueue`) as a state machine over its atomic steps.

 Actors: any number of NIC readers, the one consumer (which is also the only releaser of
 capacity) and the goroutine that closes the exporter.  Each has a program counter; one action
 is one lock, unlock, atomic load, compare-and-swap, atomic add, channel send or channel receive.
 A replaced `admissionChanged` channel is an epoch number: the channel of epoch e is closed once
 the epoch has moved past e.  `admissionMu` is the `lock` field.  The fields `owner`, `sipLog`,
 `sent` and `finished` are history: no step reads them.
 */
module Admission {

  /** One published run: `size` packets still to account for, borrowing ring block `block`. */
  datatype Run = Run(size: nat, block: nat)

  datatype Actor = ReaderActor(i: nat) | ConsumerActor | StopperActor

  datatype Lock = Free | Write(who: Actor) | Read(readers: set<nat>)

  /** Steps before a SIP run has its reservation: pendingSIP.Add(1), the loop head, the load and
      the compare-and-swap of reserveAll, reading admissionChanged, unlocking before the wait. */
  datatype TryAt = Count | Head | Load | Cas(q: int) | Prep | Leave(e: nat)

  /** Steps of finishSIPLocked: pendingSIP.Add(-1), servingSIP++, replacing the channel. */
  datatype FinAt = Uncount | Serve | Signal

  /** Steps of enqueueSIPRun that hold the write lock. */
  datatype Excl =
    | Enter(n: nat)                            // first test of stopped, take a ticket
    | Try(n: nat, t: nat, at: TryAt)
    | Own(n: nat, t: nat, retained: bool)      // n packets reserved: retain the block, then send
    | Fin(t: nat, stage: FinAt)
    | Abort                                    // stopped: pendingSIP.Add(-1)
    | Exit(ok: bool, t: nat)                   // unlock and return ok

  /** Steps of enqueueRTPRun, all under the read lock: the test of stopped, the load of pendingSIP,
      the load and compare-and-swap of reserve, the drop callbacks, retain and send, the unlock. */
  datatype Shr =
    | TestStop(n: nat)
    | TestSip(n: nat)
    | LoadQ(n: nat)
    | CasQ(n: nat, q: int, a: nat)
    | Drop(n: nat, a: nat, d: nat)
    | OwnQ(a: nat, retained: bool)
    | Quit

  /** Program counter of a reader. */
  datatype Pc =
    | Idle
    | SipLock(n: nat)                          // admissionMu.Lock
    | SipWait(n: nat, t: nat, e: nat)          // receive from the channel of epoch e
    | SipRelock(n: nat, t: nat)                // lock again
    | Excl(x: Excl)
    | RtpLock(n: nat)                          // admissionMu.RLock
    | Shared(y: Shr)

  /** A reader: its counter, the ring block it is feeding (while `open` it holds the root
      reference), and what happened to the frames of its latest RTP run. */
  datatype Reader = Reader(pc: Pc, open: bool, block: nat, offered: nat, published: nat, dropped: nat)

  /** The run the consumer holds; `fin`: inside run.release, `drain`: inside releaseQueuedPacketRuns. */
  datatype Work = Work(block: nat, rem: nat, fin: bool, drain: bool)

  /** Steps of queue.release after the atomic add: load pendingSIP, lock, load again, signal, unlock. */
  datatype WakeAt = Look | WakeLock | WakeTest | WakeSignal | WakeUnlock

  datatype ConsumerPc =
    | Top                                      // poll done
    | Select                                   // wait for done or a run
    | Frame(w: Work)                           // loop over the frames of the run
    | Sub(w: Work, k: nat)                     // queuedPackets.Add(-k)
    | Wake(w: Work, stage: WakeAt)
    | Unref(w: Work)                           // reference.release
    | Drain                                    // non-blocking receive
    | Returned

  datatype StopperPc = Running | StopLock | StopSet | StopSignal | StopUnlock | CloseDone | Closed

  /** References still held on a handed-out block, and how often its release function ran. */
  datatype Block = Block(refs: int, freed: nat)

  /** What admissionMu guards, with the history of tickets drawn and served. */
  datatype Gate = Gate(pending: int, next: nat, serving: nat, epoch: nat, owner: seq<nat>, sipLog: seq<nat>)

  /** The packet count, the run channel and the blocks the runs borrow. */
  datatype Pool = Pool(queued: int, chan: seq<Run>, blocks: seq<Block>, sent: nat, finished: nat)

  datatype State = State(
    max: nat, lock: Lock, gate: Gate, pool: Pool, stopped: bool, done: bool,
    readers: seq<Reader>, consumer: ConsumerPc, stopper: StopperPc)

  datatype EnvOp = OpenBlock | CloseBlock | StartSip(n: nat) | StartRtp(n: nat)

  datatype Action =
    | Env(i: nat, op: EnvOp)                   // a reader begins or ends a call
    | Move(i: nat)                             // a reader's next atomic step
    | Consume(quit: bool)                      // the consumer's next atomic step; quit: a select with
                                               // both cases ready picks done
    | StopCall                                 // Close is called
    | Stop                                     // the closing goroutine's next atomic step

  // ---------------------------------------------------------------- what one atomic step does

  datatype LockOp = KeepLock | TakeWrite | DropWrite | TakeRead | DropRead

  /** Changes to the guarded fields: draw ticket, pendingSIP.Add(1), pendingSIP.Add(-1), servingSIP++,
      replace the channel, log the publication of ticket t. */
  datatype GateOp = KeepGate | DrawTicket | CountIn | CountOut | ServeNext | Replace | LogSip(t: nat)

  /** Changes to the shared pool: reserve k packets, retain the reader's block, send a run of n frames. */
  datatype PoolOp = KeepPool | Reserve(k: nat) | Retain | Send(n: nat)

  /** Changes to the tally of the current RTP run. */
  datatype TallyOp = KeepTally | Offer(n: nat) | DropOne | Deliver(a: nat)

  /** One atomic step of a reader: its next program counter and what it changes. */
  datatype Effect = Effect(pc: Pc, lock: LockOp, gate: GateOp, pool: PoolOp, tally: TallyOp)

  function To(pc: Pc): Effect { Effect(pc, KeepLock, KeepGate, KeepPool, KeepTally) }

  function Min(a: int, b: int): int { if a <= b then a else b }

  /** enqueueSIPRun under the write lock. */
  function ExclEffect(s: State, x: Excl): Effect {
    match x
    case Enter(n) =>
      if s.stopped then To(Excl(Exit(false, 0))) else To(Excl(Try(n, s.gate.next, Count))).(gate := DrawTicket)
    case Try(n, t, at) => TryEffect(s, n, t, at)
    case Own(n, t, retained) =>
      if !retained then To(Excl(Own(n, t, true))).(pool := Retain)
      else To(Excl(Fin(t, Uncount))).(pool := Send(n), gate := LogSip(t))
    case Fin(t, Uncount) => To(Excl(Fin(t, Serve))).(gate := CountOut)
    case Fin(t, Serve) => To(Excl(Fin(t, Signal))).(gate := ServeNext)
    case Fin(t, Signal) => To(Excl(Exit(true, t))).(gate := Replace)
    case Abort => To(Excl(Exit(false, 0))).(gate := CountOut)
    case Exit(_, _) => To(Idle).(lock := DropWrite)
  }

  function TryEffect(s: State, n: nat, t: nat, at: TryAt): Effect {
    match at
    case Count => To(Excl(Try(n, t, Head))).(gate := CountIn)
    case Head => To(Excl(if s.stopped then Abort else Try(n, t, if t == s.gate.serving then Load else Prep)))
    case Load => To(Excl(Try(n, t, if n > s.max - s.pool.queued then Prep else Cas(s.pool.queued))))
    case Cas(q) =>
      if s.pool.queued == q then To(Excl(Own(n, t, false))).(pool := Reserve(n)) else To(Excl(Try(n, t, Load)))
    case Prep => To(Excl(Try(n, t, Leave(s.gate.epoch))))
    case Leave(e) => To(SipWait(n, t, e)).(lock := DropWrite)
  }

  /** enqueueRTPRun under the read lock. */
  function SharedEffect(s: State, y: Shr): Effect {
    match y
    case TestStop(n) => if s.stopped then To(Shared(Quit)) else To(Shared(TestSip(n))).(tally := Offer(n))
    case TestSip(n) => To(Shared(if s.gate.pending == 0 then LoadQ(n) else Drop(n, 0, 0)))
    case LoadQ(n) =>
      var available := s.max - s.pool.queued;
      To(Shared(if available <= 0 then Drop(n, 0, 0) else CasQ(n, s.pool.queued, Min(n, available))))
    case CasQ(n, q, a) =>
      if s.pool.queued == q then To(Shared(Drop(n, a, a))).(pool := Reserve(a)) else To(Shared(LoadQ(n)))
    case Drop(n, a, d) =>
      if d < n then To(Shared(Drop(n, a, d + 1))).(tally := DropOne)
      else To(Shared(if a != 0 then OwnQ(a, false) else Quit))
    case OwnQ(a, retained) =>
      if !retained then To(Shared(OwnQ(a, true))).(pool := Retain)
      else To(Shared(Quit)).(pool := Send(a), tally := Deliver(a))
    case Quit => To(Idle).(lock := DropRead)
  }

  function MoveEffect(s: State, pc: Pc): Effect {
    match pc
    case Idle => To(Idle)
    case SipLock(n) => To(Excl(Enter(n))).(lock := TakeWrite)
    case SipWait(n, t, _) => To(SipRelock(n, t))
    case SipRelock(n, t) => To(Excl(Try(n, t, Head))).(lock := TakeWrite)
    case Excl(x) => ExclEffect(s, x)
    case RtpLock(n) => To(Shared(TestStop(n))).(lock := TakeRead)
    case Shared(y) => SharedEffect(s, y)
  }

  // ---------------------------------------------------------------- applying a step

  function ReadHolders(lock: Lock): set<nat> { if lock.Read? then lock.readers else {} }

  function ApplyLock(lock: Lock, op: LockOp, i: nat): Lock {
    match op
    case KeepLock => lock
    case TakeWrite => Write(ReaderActor(i))
    case DropWrite => Free
    case TakeRead => Read(ReadHolders(lock) + {i})
    case DropRead => var rest := ReadHolders(lock) - {i}; if rest == {} then Free else Read(rest)
  }

  function ApplyGate(g: Gate, op: GateOp, i: nat): Gate {
    match op
    case KeepGate => g
    case DrawTicket => g.(next := g.next + 1, owner := g.owner + [i])
    case CountIn => g.(pending := g.pending + 1)
    case CountOut => g.(pending := g.pending - 1)
    case ServeNext => g.(serving := g.serving + 1)
    case Replace => g.(epoch := g.epoch + 1)
    case LogSip(t) => g.(sipLog := g.sipLog + [t])
  }

  function ApplyPool(p: Pool, op: PoolOp, b: nat): Pool
    requires op.Retain? ==> b < |p.blocks|
  {
    match op
    case KeepPool => p
    case Reserve(k) => p.(queued := p.queued + k)
    case Retain => p.(blocks := p.blocks[b := p.blocks[b].(refs := p.blocks[b].refs + 1)])
    case Send(n) => p.(chan := p.chan + [Run(n, b)], sent := p.sent + 1)
  }

  function ApplyReader(r: Reader, e: Effect): Reader {
    match e.tally
    case KeepTally => r.(pc := e.pc)
    case Offer(n) => r.(pc := e.pc, offered := n)
    case DropOne => r.(pc := e.pc, dropped := r.dropped + 1)
    case Deliver(a) => r.(pc := e.pc, published := a)
  }

  /** A reader's next step can be taken now: only taking the lock, receiving and sending can wait. */
  predicate MoveEnabled(s: State, i: nat) {
    && i < |s.readers|
    && var e := MoveEffect(s, s.readers[i].pc);
       && !s.readers[i].pc.Idle?
       && (s.readers[i].pc.SipWait? ==> s.readers[i].pc.e < s.gate.epoch)
       && (e.lock.TakeWrite? ==> s.lock.Free?)
       && (e.lock.TakeRead? ==> !s.lock.Write?)
       && (e.pool.Send? ==> |s.pool.chan| < s.max)
       && (e.pool.Retain? ==> s.readers[i].block < |s.pool.blocks|)
  }

  function MoveNext(s: State, i: nat): State
    requires MoveEnabled(s, i)
  {
    var r := s.readers[i];
    var e := MoveEffect(s, r.pc);
    s.(lock := ApplyLock(s.lock, e.lock, i), gate := ApplyGate(s.gate, e.gate, i),
       pool := ApplyPool(s.pool, e.pool, r.block), readers := s.readers[i := ApplyReader(r, e)])
  }

  predicate EnvEnabled(s: State, i: nat, op: EnvOp) {
    && i < |s.readers| && s.readers[i].pc.Idle?
    && match op
       case OpenBlock => !s.readers[i].open
       case CloseBlock => s.readers[i].open && s.readers[i].block < |s.pool.blocks|
       case StartSip(n) => s.readers[i].open && 1 <= n && (s.max > 0 ==> n <= s.max)
       case StartRtp(n) => s.readers[i].open && 1 <= n
  }

  /** One reference less on block b; the release function runs when the last one goes. */
  function DropRef(p: Pool, b: nat): Pool
    requires b < |p.blocks|
  {
    p.(blocks := p.blocks[b := Block(p.blocks[b].refs - 1, p.blocks[b].freed + if p.blocks[b].refs == 1 then 1 else 0)])
  }

  function EnvNext(s: State, i: nat, op: EnvOp): State
    requires EnvEnabled(s, i, op)
  {
    var r := s.readers[i];
    match op
    case OpenBlock =>
      s.(readers := s.readers[i := r.(open := true, block := |s.pool.blocks|)],
         pool := s.pool.(blocks := s.pool.blocks + [Block(1, 0)]))
    case CloseBlock => s.(readers := s.readers[i := r.(open := false)], pool := DropRef(s.pool, r.block))
    case StartSip(n) => s.(readers := s.readers[i := r.(pc := SipLock(n))])
    case StartRtp(n) =>
      s.(readers := s.readers[i := r.(pc := RtpLock(n), offered := 0, published := 0, dropped := 0)])
  }

  /** Changes the consumer makes to the pool: receive the first run, queuedPackets.Add(-k), drop its
      reference on block b. */
  datatype ConsumerOp = NoOp | TakeRun | Subtract(k: nat) | Finish(b: nat)

  /** One atomic step of the consumer. */
  datatype ConsumerEffect = ConsumerEffect(pc: ConsumerPc, lock: LockOp, signal: bool, pool: ConsumerOp)

  function Then(pc: ConsumerPc): ConsumerEffect { ConsumerEffect(pc, KeepLock, false, NoOp) }

  function AfterWake(w: Work): ConsumerPc { if w.fin then Unref(w) else Frame(w) }

  /** The tail of queue.release. */
  function WakeEffect(s: State, w: Work, stage: WakeAt): ConsumerEffect {
    match stage
    case Look => Then(if s.gate.pending == 0 then AfterWake(w) else Wake(w, WakeLock))
    case WakeLock => Then(Wake(w, WakeTest)).(lock := TakeWrite)
    case WakeTest => Then(Wake(w, if s.gate.pending != 0 then WakeSignal else WakeUnlock))
    case WakeSignal => Then(Wake(w, WakeUnlock)).(signal := true)
    case WakeUnlock => Then(AfterWake(w)).(lock := DropWrite)
  }

  /** readPacketRuns, processPacketRingRun and releaseQueuedPacketRuns. */
  function ConsumeEffect(s: State, quit: bool): ConsumerEffect {
    var chan := s.pool.chan;
    match s.consumer
    case Top => Then(if s.done then Drain else Select)
    case Select =>
      if chan != [] && !(s.done && quit) then Then(Frame(Work(chan[0].block, chan[0].size, false, false))).(pool := TakeRun)
      else Then(Drain)
    case Frame(w) => Then(if w.rem > 0 then Sub(w.(rem := w.rem - 1), 1) else Unref(w.(fin := true)))
    case Sub(w, k) => Then(Wake(w, Look)).(pool := Subtract(k))
    case Wake(w, stage) => WakeEffect(s, w, stage)
    case Unref(w) => Then(if w.drain then Drain else Top).(pool := Finish(w.block))
    case Drain =>
      if chan != [] then Then(Sub(Work(chan[0].block, 0, true, true), chan[0].size)).(pool := TakeRun) else Then(Returned)
    case Returned => Then(Returned)
  }

  predicate ConsumeEnabled(s: State, quit: bool) {
    var e := ConsumeEffect(s, quit);
    && !s.consumer.Returned?
    && (s.consumer.Select? ==> s.done || s.pool.chan != [])
    && (e.lock.TakeWrite? ==> s.lock.Free?)
    && (e.pool.Finish? ==> e.pool.b < |s.pool.blocks|)
  }

  function ApplyConsumer(p: Pool, op: ConsumerOp): Pool
    requires op.TakeRun? ==> p.chan != []
    requires op.Finish? ==> op.b < |p.blocks|
  {
    match op
    case NoOp => p
    case TakeRun => p.(chan := p.chan[1..])
    case Subtract(k) => p.(queued := p.queued - k)
    case Finish(b) => DropRef(p, b).(finished := p.finished + 1)
  }

  function ConsumeNext(s: State, quit: bool): State
    requires ConsumeEnabled(s, quit)
  {
    var e := ConsumeEffect(s, quit);
    s.(consumer := e.pc, pool := ApplyConsumer(s.pool, e.pool),
       lock := if e.lock.TakeWrite? then Write(ConsumerActor) else if e.lock.DropWrite? then Free else s.lock,
       gate := if e.signal then s.gate.(epoch := s.gate.epoch + 1) else s.gate)
  }

  predicate StopEnabled(s: State) {
    match s.stopper
    case Running => false
    case StopLock => s.lock.Free?
    case Closed => false
    case _ => true
  }

  /** stop and then close(done). */
  function StopNext(s: State): State
    requires StopEnabled(s)
  {
    match s.stopper
    case StopLock => s.(lock := Write(StopperActor), stopper := StopSet)
    case StopSet => s.(stopped := true, stopper := StopSignal)
    case StopSignal => s.(gate := s.gate.(epoch := s.gate.epoch + 1), stopper := StopUnlock)
    case StopUnlock => s.(lock := Free, stopper := CloseDone)
    case CloseDone => s.(done := true, stopper := Closed)
  }

  predicate Enabled(s: State, a: Action) {
    match a
    case Env(i, op) => EnvEnabled(s, i, op)
    case Move(i) => MoveEnabled(s, i)
    case Consume(quit) => ConsumeEnabled(s, quit)
    case StopCall => s.stopper.Running?
    case Stop => StopEnabled(s)
  }

  function Next(s: State, a: Action): State
    requires Enabled(s, a)
  {
    match a
    case Env(i, op) => EnvNext(s, i, op)
    case Move(i) => MoveNext(s, i)
    case Consume(quit) => ConsumeNext(s, quit)
    case StopCall => s.(stopper := StopLock)
    case Stop => StopNext(s)
  }
}
