/**
 The reference count of one borrowed ring block, shared by any number of threads that retain and release references
 to it.  Every load, compare-and-swap and add is a step of its own; atomics are sequentially consistent.
 */
module BlockRefs {
  type Tid = nat
  type RefId = nat

  /** Where a thread is in `retain` or `release`. */
  datatype Pc =
    | Idle
    | Check(r: RefId)                  // retain: about to load released
    | Load(r: RefId)                   // retain: about to load the count
    | Cas(r: RefId, seen: int)         // retain: about to swap seen for seen + 1
    | Recheck(r: RefId)                // retain: counted, about to load released again
    | Mark(r: RefId)                   // release: about to swap released from false to true
    | Drop                             // about to subtract one: after Mark, or undoing a retain
    | Fire                             // subtracted the last one, about to call release
    | Got(r: RefId)                    // retain returned a new reference
    | GotNil                           // retain returned nil

  /** count: the shared counter; made: the references that exist; live: those whose released flag is unset. */
  datatype State = State(count: int, made: set<RefId>, live: set<RefId>, pc: map<Tid, Pc>, fired: nat)

  predicate Init(s: State) {
    s.count == 1 && s.made == {0} && s.live == {0} && s.fired == 0 && forall t :: t in s.pc ==> s.pc[t] == Idle
  }

  /** A new reference comes into being. */
  predicate Makes(s: State, s': State, r: RefId) {
    r !in s.made && s'.made == s.made + {r} && s'.live == s.live + {r}
  }

  predicate SameRefs(s: State, s': State) { s'.made == s.made && s'.live == s.live }

  predicate Moves(s: State, s': State, t: Tid, to: Pc) { t in s.pc && s'.pc == s.pc[t := to] }

  /** One atomic step of thread t. */
  ghost predicate Step(s: State, s': State, t: Tid)
    requires t in s.pc
  {
    match s.pc[t]
    case Idle =>
      SameRefs(s, s') && s'.count == s.count && s'.fired == s.fired
      && exists r :: r in s.made && (Moves(s, s', t, Check(r)) || Moves(s, s', t, Mark(r)))
    case Check(r) =>
      SameRefs(s, s') && s'.count == s.count && s'.fired == s.fired
      && Moves(s, s', t, if r in s.live then Load(r) else GotNil)
    case Load(r) =>
      SameRefs(s, s') && s'.count == s.count && s'.fired == s.fired
      && Moves(s, s', t, if s.count == 0 then GotNil else Cas(r, s.count))
    case Cas(r, seen) =>
      SameRefs(s, s') && s'.fired == s.fired
      && s'.count == (if s.count == seen then seen + 1 else s.count)
      && Moves(s, s', t, if s.count == seen then Recheck(r) else Load(r))
    case Recheck(r) =>
      s'.count == s.count && s'.fired == s.fired
      && if r in s.live then exists made: RefId :: Makes(s, s', made) && Moves(s, s', t, Got(made))
         else SameRefs(s, s') && Moves(s, s', t, Drop)
    case Mark(r) =>
      s'.made == s.made && s'.live == s.live - {r} && s'.count == s.count && s'.fired == s.fired
      && Moves(s, s', t, if r in s.live then Drop else Idle)
    case Drop =>
      SameRefs(s, s') && s'.count == s.count - 1 && s'.fired == s.fired
      && Moves(s, s', t, if s.count - 1 == 0 then Fire else Idle)
    case Fire => SameRefs(s, s') && s'.count == s.count && s'.fired == s.fired + 1 && Moves(s, s', t, Idle)
    case Got(_) => SameRefs(s, s') && s'.count == s.count && s'.fired == s.fired && Moves(s, s', t, Idle)
    case GotNil => SameRefs(s, s') && s'.count == s.count && s'.fired == s.fired && Moves(s, s', t, Idle)
  }

  ghost predicate Next(s: State, s': State) { exists t :: t in s.pc && Step(s, s', t) }

  // ---------------------------------------------------------------- invariant

  /** Threads that hold a unit of the count without a reference to show for it. */
  ghost function Holding(pc: map<Tid, Pc>): set<Tid> { set t | t in pc && (pc[t].Recheck? || pc[t].Drop?) }

  ghost function Firing(pc: map<Tid, Pc>): set<Tid> { set t | t in pc && pc[t].Fire? }

  /** The count is the live references and the units in flight. */
  ghost predicate Counted(s: State) { s.live <= s.made && s.count == |s.live| + |Holding(s.pc)| }

  /** The release call has been made, or is about to be, once, exactly if the count is zero. */
  ghost predicate FiresOnce(s: State) { s.fired + |Firing(s.pc)| == if s.count == 0 then 1 else 0 }

  ghost predicate SeenPositive(s: State) { forall t :: t in s.pc && s.pc[t].Cas? ==> s.pc[t].seen > 0 }

  ghost predicate Inv(s: State) { Counted(s) && FiresOnce(s) && SeenPositive(s) }

  lemma InitInv(s: State)
    requires Init(s)
    ensures Inv(s)
  {
    assert Holding(s.pc) == {} && Firing(s.pc) == {};
  }

  lemma HoldingMoves(pc: map<Tid, Pc>, t: Tid, to: Pc)
    requires t in pc
    ensures |Holding(pc[t := to])| == |Holding(pc)| + (if to.Recheck? || to.Drop? then 1 else 0) - (if pc[t].Recheck? || pc[t].Drop? then 1 else 0)
    ensures |Firing(pc[t := to])| == |Firing(pc)| + (if to.Fire? then 1 else 0) - (if pc[t].Fire? then 1 else 0)
  {
    Replaced(Holding(pc), Holding(pc[t := to]), t);
    Replaced(Firing(pc), Firing(pc[t := to]), t);
  }

  lemma Replaced(a: set<Tid>, b: set<Tid>, t: Tid)
    requires forall x :: x != t ==> (x in a <==> x in b)
    ensures |b| == |a| + (if t in b then 1 else 0) - (if t in a then 1 else 0)
  {
    assert a - {t} == b - {t};
    if t in a { assert |a| == |a - {t}| + 1; } else { assert a - {t} == a; }
    if t in b { assert |b| == |b - {t}| + 1; } else { assert b - {t} == b; }
  }

  lemma StepInv(s: State, s': State, t: Tid)
    requires Inv(s) && t in s.pc && Step(s, s', t)
    ensures Inv(s')
  {
    assert s'.pc == s.pc[t := s'.pc[t]];
    HoldingMoves(s.pc, t, s'.pc[t]);
    if s.pc[t].Fire? { assert t in Firing(s.pc); }
    if s.pc[t].Mark? && s.pc[t].r in s.live { assert |s.live - {s.pc[t].r}| == |s.live| - 1; }
    if s.pc[t].Drop? { assert t in Holding(s.pc); }
  }

  lemma NextInv(s: State, s': State)
    requires Inv(s) && Next(s, s')
    ensures Inv(s')
  {
    var t :| t in s.pc && Step(s, s', t);
    StepInv(s, s', t);
  }

  ghost predicate IsRun(run: seq<State>) {
    run != [] && Init(run[0]) && forall i :: 0 <= i < |run| - 1 ==> Next(run[i], run[i + 1])
  }

  lemma {:induction false} RunInv(run: seq<State>, n: nat)
    requires IsRun(run) && n < |run|
    ensures Inv(run[n])
  {
    if n == 0 { InitInv(run[0]); } else {
      RunInv(run, n - 1);
      NextInv(run[n - 1], run[n]);
    }
  }

  // ---------------------------------------------------------------- main results

  /** The release call is made at most once, and only when every reference has let go and nothing is in flight. */
  lemma ReleasedAtMostOnce(run: seq<State>, n: nat)
    requires IsRun(run) && n < |run|
    ensures run[n].fired <= 1
    ensures run[n].fired == 1 ==> run[n].count == 0 && run[n].live == {} && Holding(run[n].pc) == {}
  {
    RunInv(run, n);
  }

  /** Once all threads rest, it has been made exactly if every reference has let go. */
  lemma ReleasedExactlyWhenLetGo(run: seq<State>, n: nat)
    requires IsRun(run) && n < |run| && forall t :: t in run[n].pc ==> run[n].pc[t] == Idle
    ensures run[n].fired == 1 <==> run[n].live == {}
  {
    RunInv(run, n);
    assert Holding(run[n].pc) == {} && Firing(run[n].pc) == {};
  }

  lemma StaysZero(s: State, s': State)
    requires Inv(s) && Next(s, s') && s.count == 0
    ensures s'.count == 0 && s'.live == {} && s'.made == s.made
  {
    var t :| t in s.pc && Step(s, s', t);
    assert s.live == {} && Holding(s.pc) == {};
    assert t in Holding(s.pc) <==> s.pc[t].Recheck? || s.pc[t].Drop?;
  }

  /** A count that has reached zero is never revived, and no reference is made any more. */
  lemma {:induction false} NeverRevived(run: seq<State>, i: nat, j: nat)
    requires IsRun(run) && i <= j < |run| && run[i].count == 0
    ensures run[j].count == 0 && run[j].live == {} && run[j].made == run[i].made
    decreases j
  {
    RunInv(run, j);
    if i < j {
      NeverRevived(run, i, j - 1);
      RunInv(run, j - 1);
      StaysZero(run[j - 1], run[j]);
    }
  }

  /** Retaining through a reference that has not let go never fails: the reader, which lets go of its own reference last
      of all, always gets one for the run it publishes. */
  lemma RetainThroughLive(run: seq<State>, n: nat, t: Tid)
    requires IsRun(run) && n + 1 < |run| && t in run[n].pc && Step(run[n], run[n + 1], t)
    requires match run[n].pc[t]
             case Check(r) => r in run[n].live
             case Load(r) => r in run[n].live
             case Cas(r, _) => r in run[n].live
             case Recheck(r) => r in run[n].live
             case _ => false
    ensures !run[n + 1].pc[t].GotNil? && !run[n + 1].pc[t].Drop?
    ensures run[n].pc[t].Recheck? ==> run[n + 1].pc[t].Got? && run[n + 1].pc[t].r in run[n + 1].live
  {
    RunInv(run, n);
  }

  /** While any reference is live, the block has not been given back. */
  lemma LiveMeansHeld(run: seq<State>, n: nat, r: RefId)
    requires IsRun(run) && n < |run| && r in run[n].live
    ensures run[n].fired == 0 && Firing(run[n].pc) == {} && run[n].count > 0
  {
    RunInv(run, n);
    assert |run[n].live| > 0;
  }

  lemma LetGoStep(s: State, s': State, r: RefId)
    requires Next(s, s') && r in s.made && r !in s.live
    ensures r in s'.made && r !in s'.live
  {
    var t :| t in s.pc && Step(s, s', t);
  }

  /** A reference that has let go has done so for good. */
  lemma {:induction false} LetGoForGood(run: seq<State>, i: nat, j: nat, r: RefId)
    requires IsRun(run) && i <= j < |run| && r in run[i].made && r !in run[i].live
    ensures r in run[j].made && r !in run[j].live
    decreases j
  {
    if i < j {
      LetGoForGood(run, i, j - 1, r);
      LetGoStep(run[j - 1], run[j], r);
    }
  }

  /** ... and no retain through it makes a reference any more, not even one that had begun before. */
  lemma NothingThroughLetGo(run: seq<State>, i: nat, j: nat, t: Tid, r: RefId)
    requires IsRun(run) && i <= j && j + 1 < |run| && r in run[i].made && r !in run[i].live
    requires t in run[j].pc && Step(run[j], run[j + 1], t)
    requires run[j].pc[t] in {Check(r), Load(r), Recheck(r)} || (run[j].pc[t].Cas? && run[j].pc[t].r == r)
    ensures !run[j + 1].pc[t].Got? && run[j + 1].made == run[j].made
  {
    LetGoForGood(run, i, j, r);
  }
}
