/**
 Blocks of a ring between the kernel, the reader and whoever gives them back last.  The reader keeps a table of
 borrowed blocks; a block is given back by setting its status word and then sending its index to the reader.
 */
module Borrowing {
  import opened Basics

  // ---------------------------------------------------------------- the reader's table

  function CountTrue(b: seq<bool>): nat { if b == [] then 0 else CountTrue(b[1..]) + if b[0] then 1 else 0 }

  lemma {:induction false} CountTrueUpdate(b: seq<bool>, i: nat, v: bool)
    requires i < |b|
    ensures CountTrue(b[i := v]) == CountTrue(b) + (if v then 1 else 0) - (if b[i] then 1 else 0)
  {
    if i == 0 {
      assert b[i := v][1..] == b[1..];
    } else {
      CountTrueUpdate(b[1..], i - 1, v);
      assert b[i := v][1..] == b[1..][i - 1 := v];
    }
  }

  lemma {:induction false} CountTrueZero(b: seq<bool>)
    ensures CountTrue(b) == 0 <==> forall i :: 0 <= i < |b| ==> !b[i]
  {
    if b != [] {
      CountTrueZero(b[1..]);
      assert forall i :: 0 < i < |b| ==> b[i] == b[1..][i - 1];
      assert (forall i :: 0 <= i < |b| ==> !b[i]) ==> forall i :: 0 <= i < |b[1..]| ==> !b[1..][i] by {
        assert forall i :: 0 <= i < |b[1..]| ==> b[1..][i] == b[i + 1];
      }
    }
  }

  class BorrowedBlocks {
    const borrowed: array<bool>
    var count: int

    ghost predicate Valid()
      reads this, borrowed
    {
      count == CountTrue(borrowed[..])
    }

    constructor (blockCount: nat)
      ensures Valid() && fresh(borrowed) && borrowed.Length == blockCount && count == 0
      ensures forall i :: 0 <= i < blockCount ==> !borrowed[i]
    {
      borrowed := new bool[blockCount](_ => false);
      count := 0;
      new;
      CountTrueZero(borrowed[..]);
    }

    method Track(index: nat)
      requires Valid() && index < borrowed.Length && !borrowed[index]
      modifies this, borrowed
      ensures Valid() && borrowed[..] == old(borrowed[..])[index := true] && count == old(count) + 1
    {
      CountTrueUpdate(borrowed[..], index, true);
      borrowed[index] := true;
      count := count + 1;
      assert borrowed[..] == old(borrowed[..])[index := true];
    }

    /** A notification has been received. */
    method Released(index: nat)
      requires Valid() && index < borrowed.Length && borrowed[index]
      modifies this, borrowed
      ensures Valid() && borrowed[..] == old(borrowed[..])[index := false] && count == old(count) - 1
    {
      CountTrueUpdate(borrowed[..], index, false);
      borrowed[index] := false;
      count := count - 1;
      assert borrowed[..] == old(borrowed[..])[index := false];
    }

    /** waitUntilReusable, over the notifications that arrive before the exporter is stopped: takes as many as it needs.
        The block is reusable, or the exporter was stopped with the block still borrowed. */
    method WaitUntilReusable(index: nat, arriving: seq<nat>) returns (reusable: bool, taken: nat)
      requires Valid() && index < borrowed.Length
      requires forall i :: 0 <= i < |arriving| ==> arriving[i] < borrowed.Length && borrowed[arriving[i]]
      requires forall i, j :: 0 <= i < j < |arriving| ==> arriving[i] != arriving[j]
      modifies this, borrowed
      ensures Valid() && taken <= |arriving| && (reusable <==> !borrowed[index])
      ensures forall i :: 0 <= i < borrowed.Length ==> borrowed[i] == (old(borrowed[i]) && i !in arriving[..taken])
      ensures !reusable ==> taken == |arriving|
      ensures reusable && taken > 0 ==> arriving[taken - 1] == index
    {
      taken := 0;
      while borrowed[index]
        invariant Valid() && taken <= |arriving|
        invariant forall i :: 0 <= i < borrowed.Length ==> borrowed[i] == (old(borrowed[i]) && i !in arriving[..taken])
        invariant !borrowed[index] && taken > 0 ==> arriving[taken - 1] == index
        decreases |arriving| - taken
      {
        if taken == |arriving| { return false, taken; }
        assert arriving[taken] !in arriving[..taken];
        assert arriving[..taken + 1] == arriving[..taken] + [arriving[taken]];
        Released(arriving[taken]);
        taken := taken + 1;
      }
      return true, taken;
    }
  }

  // ---------------------------------------------------------------- the protocol

  /** Where the reader is, with the physical index of the block it is about. */
  datatype Reader =
    | Reuse(i: nat)      // waiting until block i is not borrowed
    | Look(i: nat)       // about to read the status word of block i
    | Await(i: nat)      // block i is not ready and others are borrowed: waiting for a notification
    | Poll(i: nat)       // block i is not ready and nothing is borrowed: waiting for the kernel
    | Take(i: nat)       // block i is ready: about to track it
    | Use(i: nat)        // reading the frames of block i

  /** user: the status words; out: tracked blocks that have not been given back; sending: blocks whose status word has
      been reset and whose notification is still to be sent; channel: notifications sent. */
  datatype State = State(borrowed: seq<bool>, user: seq<bool>, out: set<nat>, sending: set<nat>, channel: seq<nat>, reader: Reader)

  datatype Action =
    | Fill(i: nat)       // the kernel hands over block i
    | Store(i: nat)      // the last reference to block i lets go: its status word goes back to the kernel
    | Send(i: nat)       // ... and its index into the channel
    | Read               // the reader takes one step

  predicate Init(s: State, n: nat) {
    |s.borrowed| == n && |s.user| == n && (forall i :: 0 <= i < n ==> !s.borrowed[i])
    && s.out == {} && s.sending == {} && s.channel == [] && s.reader == Reuse(0)
  }

  /** The reader takes a notification. */
  function Receive(s: State, next: Reader): State
    requires s.channel != [] && s.channel[0] < |s.borrowed|
  {
    s.(borrowed := s.borrowed[s.channel[0] := false], channel := s.channel[1..], reader := next)
  }

  /** An action can be taken.  Sending needs room in the channel, which has one place per block; a block in use is not
      given back, because the reader's own reference goes last. */
  predicate Enabled(s: State, a: Action) {
    match a
    case Fill(i) => i < |s.user| && !s.user[i]
    case Store(i) => i in s.out && i < |s.user| && s.reader != Use(i)
    case Send(i) => i in s.sending && |s.channel| < |s.borrowed|
    case Read =>
      s.reader.i < |s.borrowed| == |s.user| &&
      match s.reader
      case Reuse(i) => s.borrowed[i] ==> s.channel != [] && s.channel[0] < |s.borrowed|
      case Await(_) => s.channel != [] && s.channel[0] < |s.borrowed|
      case _ => true
  }

  function Next(s: State, a: Action): State
    requires Enabled(s, a)
  {
    match a
    case Fill(i) => s.(user := s.user[i := true])
    case Store(i) => s.(user := s.user[i := false], out := s.out - {i}, sending := s.sending + {i})
    case Send(i) => s.(channel := s.channel + [i], sending := s.sending - {i})
    case Read =>
      var n := |s.borrowed|;
      match s.reader
      case Reuse(i) => if s.borrowed[i] then Receive(s, Reuse(i)) else s.(reader := Look(i))
      case Look(i) =>
        s.(reader := if s.user[i] then Take(i) else if CountTrue(s.borrowed) != 0 then Await(i) else Poll(i))
      case Await(i) => Receive(s, Look(i))
      case Poll(i) => s.(reader := Look(i))
      case Take(i) => s.(borrowed := s.borrowed[i := true], out := s.out + {i}, reader := Use(i))
      case Use(i) => s.(reader := Reuse((i + 1) % n))
  }

  // ---------------------------------------------------------------- invariant

  /** A block is borrowed exactly if it is out, being sent or announced, and it is in one of these states only. */
  predicate Whereabouts(s: State, i: nat)
    requires i < |s.borrowed|
  {
    && (s.borrowed[i] <==> i in s.out || i in s.sending || i in s.channel)
    && !(i in s.out && i in s.sending) && !(i in s.out && i in s.channel) && !(i in s.sending && i in s.channel)
  }

  /** The reader has checked that the block it is about is not borrowed, a block it has found ready or is using is in
      user hands, and it waits for a notification only if something is borrowed. */
  predicate ReaderOk(s: State)
    requires |s.borrowed| == |s.user|
  {
    && s.reader.i < |s.borrowed|
    && (s.reader.Look? || s.reader.Await? || s.reader.Poll? || s.reader.Take? ==> !s.borrowed[s.reader.i])
    && (s.reader.Take? || s.reader.Use? ==> s.user[s.reader.i])
    && (s.reader.Use? ==> s.reader.i in s.out)
    && (s.reader.Await? ==> CountTrue(s.borrowed) != 0)
  }

  ghost predicate InRange(s: State) { forall i :: i in s.out || i in s.sending || i in s.channel ==> i < |s.borrowed| }

  ghost predicate Inv(s: State) {
    && |s.borrowed| == |s.user| && ReaderOk(s) && NoDup(s.channel) && InRange(s)
    && (forall i :: 0 <= i < |s.borrowed| ==> Whereabouts(s, i))
    && (forall i :: i in s.out ==> i < |s.user| && s.user[i])
  }

  lemma InitInv(s: State, n: nat)
    requires Init(s, n) && n > 0
    ensures Inv(s)
  {}

  lemma ReceiveInv(s: State, next: Reader)
    requires Inv(s) && s.channel != [] && s.channel[0] < |s.borrowed|
    requires (s.reader.Reuse? && next == s.reader) || (s.reader.Await? && next == Look(s.reader.i))
    ensures Inv(Receive(s, next))
  {
    var s' := Receive(s, next);
    var k := s.channel[0];
    assert s.channel == [k] + s.channel[1..];
    assert k !in s.channel[1..];
    forall i | 0 <= i < |s'.borrowed| ensures Whereabouts(s', i) {
      assert Whereabouts(s, i);
    }
  }

  lemma StoreInv(s: State, i: nat)
    requires Inv(s) && Enabled(s, Store(i))
    ensures Inv(Next(s, Store(i)))
  {
    var s' := Next(s, Store(i));
    assert Whereabouts(s, i);
    forall k | 0 <= k < |s'.borrowed| ensures Whereabouts(s', k) { assert Whereabouts(s, k); }
  }

  lemma SendInv(s: State, i: nat)
    requires Inv(s) && Enabled(s, Send(i))
    ensures Inv(Next(s, Send(i)))
  {
    var s' := Next(s, Send(i));
    assert Whereabouts(s, i);
    assert forall k :: k in s'.channel <==> k in s.channel || k == i;
    forall k | 0 <= k < |s'.borrowed| ensures Whereabouts(s', k) { assert Whereabouts(s, k); }
  }

  lemma FillInv(s: State, i: nat)
    requires Inv(s) && Enabled(s, Fill(i))
    ensures Inv(Next(s, Fill(i)))
  {
    var s' := Next(s, Fill(i));
    forall k | 0 <= k < |s'.borrowed| ensures Whereabouts(s', k) { assert Whereabouts(s, k); }
  }

  lemma ReadInv(s: State)
    requires Inv(s) && Enabled(s, Read)
    ensures Inv(Next(s, Read))
  {
    var s', i := Next(s, Read), s.reader.i;
    if s.reader.Reuse? && s.borrowed[i] {
      ReceiveInv(s, s.reader);
    } else if s.reader.Await? {
      ReceiveInv(s, Look(i));
    } else {
      assert Whereabouts(s, i);
      if s.reader.Use? { NextIndex(i, |s.borrowed|); }
      forall k | 0 <= k < |s'.borrowed| ensures Whereabouts(s', k) { assert Whereabouts(s, k); }
    }
  }

  lemma NextIndex(i: nat, n: nat)
    requires n > 0
    ensures (i + 1) % n < n
  {}

  lemma NextInv(s: State, a: Action)
    requires Inv(s) && Enabled(s, a)
    ensures Inv(Next(s, a))
  {
    match a
    case Fill(i) => FillInv(s, i);
    case Store(i) => StoreInv(s, i);
    case Send(i) => SendInv(s, i);
    case Read => ReadInv(s);
  }

  ghost predicate Steps(s: State, s': State) { exists a :: Enabled(s, a) && s' == Next(s, a) }

  ghost predicate IsRun(run: seq<State>, blocks: nat) {
    blocks > 0 && run != [] && Init(run[0], blocks) && forall i :: 0 <= i < |run| - 1 ==> Steps(run[i], run[i + 1])
  }

  lemma {:induction false} RunInv(run: seq<State>, blocks: nat, n: nat)
    requires IsRun(run, blocks) && n < |run|
    ensures Inv(run[n]) && |run[n].borrowed| == blocks
  {
    if n == 0 { InitInv(run[0], blocks); } else {
      RunInv(run, blocks, n - 1);
      var a :| Enabled(run[n - 1], a) && run[n] == Next(run[n - 1], a);
      NextInv(run[n - 1], a);
    }
  }

  // ---------------------------------------------------------------- main results

  /** The reader never reads the status of a block that is still borrowed, and while it uses a block the kernel cannot
      write to it. */
  lemma NeverReadsBorrowed(run: seq<State>, blocks: nat, n: nat)
    requires IsRun(run, blocks) && n < |run|
    ensures var t := run[n];
            && (t.reader.Look? || t.reader.Take? ==> t.reader.i < |t.borrowed| && !t.borrowed[t.reader.i])
            && (t.reader.Use? ==> !Enabled(t, Fill(t.reader.i)) && !Enabled(t, Store(t.reader.i)))
  {
    RunInv(run, blocks, n);
  }

  /** Sending a release notification never blocks: those pending are distinct, and of other blocks. */
  lemma SendNeverBlocks(run: seq<State>, blocks: nat, n: nat, i: nat)
    requires IsRun(run, blocks) && n < |run| && i in run[n].sending
    ensures Enabled(run[n], Send(i))
  {
    RunInv(run, blocks, n);
    var t := run[n];
    assert Whereabouts(t, i);
    Pigeons(t.channel + [i], blocks);
  }

  lemma {:induction false} Pigeons(s: seq<nat>, n: nat)
    requires NoDup(s) && forall k :: k in s ==> k < n
    ensures |s| <= n
  {
    if s != [] {
      var last := n - 1;
      assert s[0] in s && s[0] < n;
      if last in s {
        var p :| 0 <= p < |s| && s[p] == last;
        var rest := s[..p] + s[p + 1..];
        forall k | k in rest ensures k < last {
          var q :| 0 <= q < |rest| && rest[q] == k;
          assert rest[q] == if q < p then s[q] else s[q + 1];
          assert (if q < p then s[q] else s[q + 1]) in s;
        }
        Pigeons(rest, last);
      } else {
        Pigeons(s, last);
      }
    }
  }

  lemma HeadInRange(s: State)
    requires Inv(s) && s.channel != []
    ensures s.channel[0] < |s.borrowed|
  {
    assert s.channel[0] in s.channel;
  }

  /** The reader never waits for a notification that cannot come: some block is out, or its notification is on its way. */
  lemma WaitsForSomething(run: seq<State>, blocks: nat, n: nat)
    requires IsRun(run, blocks) && n < |run| && !Enabled(run[n], Read)
    ensures exists i :: (i in run[n].out && Enabled(run[n], Store(i))) || (i in run[n].sending && Enabled(run[n], Send(i)))
  {
    RunInv(run, blocks, n);
    var t := run[n];
    assert t.reader.Reuse? || t.reader.Await?;
    if t.channel != [] { HeadInRange(t); }
    var i := if t.reader.Reuse? then t.reader.i else SomeBorrowed(t.borrowed);
    assert Whereabouts(t, i);
    if i in t.sending {
      SendNeverBlocks(run, blocks, n, i);
      assert Enabled(t, Send(i));
    } else {
      assert Enabled(t, Store(i));
    }
  }

  function SomeBorrowed(b: seq<bool>): (i: nat)
    requires CountTrue(b) != 0
    ensures i < |b| && b[i]
  {
    if b[0] then 0 else SomeBorrowed(b[1..]) + 1
  }

  /** When every block has been given back and announced, the reader's table is empty once it has read the notifications. */
  lemma AllReturned(run: seq<State>, blocks: nat, n: nat)
    requires IsRun(run, blocks) && n < |run|
    requires run[n].out == {} && run[n].sending == {} && run[n].channel == []
    ensures CountTrue(run[n].borrowed) == 0
  {
    RunInv(run, blocks, n);
    forall i | 0 <= i < |run[n].borrowed| ensures !run[n].borrowed[i] { assert Whereabouts(run[n], i); }
    CountTrueZero(run[n].borrowed);
  }
}
