/**
 The removal loop of the tracker: a call is taken off the owner list of each of its endpoints, one after the other,
 in whatever order the map is walked.
 */
module ClaimLoops {
  import opened Basics
  import opened Ownership

  /** One turn of the loop that takes call c off endpoint k, on the owners. */
  function LetGoOwners(owners: Owners, c: CallId, k: Endpoint): Owners {
    if k !in owners then owners
    else if Without(owners[k], c) == [] then owners - {k} else owners[k := Without(owners[k], c)]
  }

  /** ... and on the current claims: the youngest remaining owner speaks. */
  function LetGoCurrent<T>(byCall: ByCall<T>, owners: Owners, current: Current<T>, c: CallId, k: Endpoint): Current<T> {
    var rest := Without(OwnersOf(owners, k), c);
    if rest == [] then current - {k}
    else if Owns(byCall, rest[|rest| - 1], k) then current[k := byCall[rest[|rest| - 1]][k]] else current
  }

  function OwnersTurns(owners: Owners, c: CallId, ks: seq<Endpoint>): Owners {
    if ks == [] then owners else LetGoOwners(OwnersTurns(owners, c, ks[..|ks| - 1]), c, ks[|ks| - 1])
  }

  function CurrentTurns<T>(byCall: ByCall<T>, owners: Owners, current: Current<T>, c: CallId, ks: seq<Endpoint>): Current<T> {
    if ks == [] then current
    else
      var before := ks[..|ks| - 1];
      LetGoCurrent(byCall, OwnersTurns(owners, c, before), CurrentTurns(byCall, owners, current, c, before), c, ks[|ks| - 1])
  }

  function Elems(ks: seq<Endpoint>): set<Endpoint> { set k | k in ks }

  lemma TurnsNone<T>(byCall: ByCall<T>, owners: Owners, current: Current<T>, c: CallId)
    requires current.Keys == owners.Keys
    ensures OwnersAfter(owners, c, {}) == owners && CurrentAfter(byCall, owners, current, c, {}) == current
  {}

  /** Whatever order the loop takes the endpoints in, it ends with the call off all of them. */
  lemma {:induction false} TurnsAreAfter<T>(byCall: ByCall<T>, owners: Owners, current: Current<T>, c: CallId, ks: seq<Endpoint>)
    requires OwnersOk(byCall, owners) && current.Keys == owners.Keys
    requires NoDup(ks) && forall k :: k in ks ==> Owns(byCall, c, k)
    ensures OwnersTurns(owners, c, ks) == OwnersAfter(owners, c, Elems(ks))
    ensures CurrentTurns(byCall, owners, current, c, ks) == CurrentAfter(byCall, owners, current, c, Elems(ks))
  {
    if ks == [] {
      TurnsNone(byCall, owners, current, c);
      assert Elems(ks) == {};
    } else {
      var before, k := ks[..|ks| - 1], ks[|ks| - 1];
      TurnsAreAfter(byCall, owners, current, c, before);
      assert Elems(ks) == Elems(before) + {k} && k !in Elems(before);
      assert Owns(byCall, c, k) <==> k in owners && c in owners[k];
      OneMoreTurn(byCall, owners, current, c, Elems(before), k);
    }
  }

  lemma OneMoreTurn<T>(byCall: ByCall<T>, owners: Owners, current: Current<T>, c: CallId, ks: set<Endpoint>, k: Endpoint)
    requires OwnersOk(byCall, owners) && current.Keys == owners.Keys && k in owners && k !in ks
    ensures OwnersAfter(owners, c, ks + {k}) == LetGoOwners(OwnersAfter(owners, c, ks), c, k)
    ensures CurrentAfter(byCall, owners, current, c, ks + {k})
            == LetGoCurrent(byCall, OwnersAfter(owners, c, ks), CurrentAfter(byCall, owners, current, c, ks), c, k)
  {
    YoungestOwns(byCall, owners, c, k);
    OwnersOneMore(owners, c, ks, k);
    CurrentOneMore(byCall, owners, current, c, ks, k);
  }

  /** The loop can find what it looks up at the endpoint of its next turn. */
  lemma TurnFinds<T>(byCall: ByCall<T>, owners: Owners, current: Current<T>, c: CallId, ks: seq<Endpoint>, k: Endpoint)
    requires OwnersOk(byCall, owners) && current.Keys == owners.Keys
    requires NoDup(ks) && (forall x :: x in ks ==> Owns(byCall, c, x)) && Owns(byCall, c, k) && k !in ks
    ensures k in OwnersTurns(owners, c, ks)
    ensures var rest := Without(OwnersTurns(owners, c, ks)[k], c); rest != [] ==> Owns(byCall, rest[|rest| - 1], k)
  {
    TurnsAreAfter(byCall, owners, current, c, ks);
    assert Owns(byCall, c, k) <==> k in owners && c in owners[k];
    OwnersOneMore(owners, c, Elems(ks), k);
    YoungestOwns(byCall, owners, c, k);
  }

  lemma {:induction false} DistinctMultiset(ks: seq<Endpoint>)
    requires NoDup(ks)
    ensures multiset(ks) == multiset(Elems(ks))
  {
    if ks == [] {
      assert Elems(ks) == {};
    } else {
      var before, k := ks[..|ks| - 1], ks[|ks| - 1];
      DistinctMultiset(before);
      assert ks == before + [k];
      assert Elems(ks) == Elems(before) + {k} && k !in Elems(before);
    }
  }

  method RemoveOwner(owners: seq<CallId>, callID: CallId) returns (rest: seq<CallId>)
    ensures rest == Without(owners, callID)
  {
    var i := 0;
    while i < |owners|
      invariant 0 <= i <= |owners| && callID !in owners[..i]
    {
      if owners[i] == callID {
        WithoutAt(owners, i, callID);
        return owners[..i] + owners[i + 1..];
      }
      i := i + 1;
    }
    WithoutNone(owners, callID);
    return owners;
  }

  lemma {:induction false} WithoutAt<X>(s: seq<X>, i: nat, x: X)
    requires i < |s| && s[i] == x && x !in s[..i]
    ensures Without(s, x) == s[..i] + s[i + 1..]
  {
    if i > 0 {
      assert s[0] == s[..i][0];
      assert s[1..][..i - 1] == s[..i][1..];
      WithoutAt(s[1..], i - 1, x);
      assert s[..i] == [s[0]] + s[1..][..i - 1];
    }
  }

  lemma {:induction false} WithoutNone<X>(s: seq<X>, x: X)
    requires x !in s
    ensures Without(s, x) == s
  {
    if s != [] { WithoutNone(s[1..], x); }
  }

  /** One turn of the loop: the call leaves the owner list of k. */
  method TakeOff<T>(byCall: ByCall<T>, owners: Owners, current: Current<T>, callID: CallId, k: Endpoint)
    returns (owners': Owners, current': Current<T>)
    requires k in owners
    requires var rest := Without(owners[k], callID); rest != [] ==> Owns(byCall, rest[|rest| - 1], k)
    ensures owners' == LetGoOwners(owners, callID, k) && current' == LetGoCurrent(byCall, owners, current, callID, k)
  {
    var rest := RemoveOwner(owners[k], callID);
    if rest == [] {
      owners', current' := owners - {k}, current - {k};
    } else {
      owners', current' := owners[k := rest], current[k := byCall[rest[|rest| - 1]][k]];
    }
  }

  lemma TurnsNext<T>(byCall: ByCall<T>, owners: Owners, current: Current<T>, c: CallId, ks: seq<Endpoint>, k: Endpoint)
    ensures OwnersTurns(owners, c, ks + [k]) == LetGoOwners(OwnersTurns(owners, c, ks), c, k)
    ensures CurrentTurns(byCall, owners, current, c, ks + [k])
            == LetGoCurrent(byCall, OwnersTurns(owners, c, ks), CurrentTurns(byCall, owners, current, c, ks), c, k)
  {
    assert (ks + [k])[..|ks|] == ks;
  }

  /** The two loops of removeCallMedia that take a call off its media and its RTCP endpoints. */
  method RemoveClaims<T>(byCall: ByCall<T>, owners: Owners, current: Current<T>, callID: CallId)
    returns (owners': Owners, current': Current<T>, deleted: seq<Endpoint>)
    requires OwnersOk(byCall, owners) && current.Keys == owners.Keys
    ensures var ks := Claims(byCall, callID).Keys;
            && owners' == OwnersAfter(owners, callID, ks) && current' == CurrentAfter(byCall, owners, current, callID, ks)
            && multiset(deleted) == multiset(ks)
  {
    owners', current', deleted := owners, current, [];
    var todo := Claims(byCall, callID).Keys;
    while todo != {}
      invariant NoDup(deleted) && (forall k :: k in deleted ==> Owns(byCall, callID, k))
      invariant forall k :: k in todo <==> Owns(byCall, callID, k) && k !in deleted
      invariant owners' == OwnersTurns(owners, callID, deleted)
      invariant current' == CurrentTurns(byCall, owners, current, callID, deleted)
      decreases todo
    {
      var k :| k in todo;
      TurnFinds(byCall, owners, current, callID, deleted, k);
      TurnsNext(byCall, owners, current, callID, deleted, k);
      owners', current' := TakeOff(byCall, owners', current', callID, k);
      deleted := deleted + [k];
      todo := todo - {k};
    }
    TurnsAreAfter(byCall, owners, current, callID, deleted);
    DistinctMultiset(deleted);
    assert Elems(deleted) == Claims(byCall, callID).Keys;
  }
}
