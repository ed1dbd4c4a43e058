/**
 Which calls own which endpoints.  The tracker keeps the same three interlocking maps twice, for
 media and for RTCP endpoints: the claims of each call, the owners of each endpoint in claim order,
 and the claim that currently speaks for the endpoint.
 */
module Ownership {
  import opened Basics

  type CallId = string

  /** An IPv4 address and a UDP port. */
  datatype Endpoint = Endpoint(ip: nat, port: nat)

  /** What a call says about an endpoint. */
  datatype Owned<+T> = Owned(callID: CallId, info: T)

  type ByCall<T> = map<CallId, map<Endpoint, Owned<T>>>
  type Owners = map<Endpoint, seq<CallId>>
  type Current<T> = map<Endpoint, Owned<T>>

  predicate Owns<T>(byCall: ByCall<T>, c: CallId, k: Endpoint) { c in byCall && k in byCall[c] }

  ghost predicate ClaimsOk<T>(byCall: ByCall<T>) {
    && (forall c :: c in byCall ==> byCall[c] != map[])
    && (forall c, k :: Owns(byCall, c, k) ==> byCall[c][k].callID == c)
  }

  ghost predicate OwnersOk<T>(byCall: ByCall<T>, owners: Owners) {
    && (forall k :: k in owners ==> owners[k] != [] && NoDup(owners[k]))
    && (forall c, k :: Owns(byCall, c, k) <==> k in owners && c in owners[k])
  }

  ghost predicate CurrentOk<T>(byCall: ByCall<T>, owners: Owners, current: Current<T>) {
    && current.Keys == owners.Keys
    && (forall k :: k in current ==> Speaks(byCall, k, current[k]))
  }

  /** v is the claim some owner of k makes. */
  predicate Speaks<T(==)>(byCall: ByCall<T>, k: Endpoint, v: Owned<T>) { Owns(byCall, v.callID, k) && byCall[v.callID][k] == v }

  /** The three maps agree: c is among the owners of k, once, iff k is among the claims of c, and an endpoint
      has a current claim iff it has owners, the claim being that of one of them. */
  ghost predicate IndexOk<T>(byCall: ByCall<T>, owners: Owners, current: Current<T>) {
    ClaimsOk(byCall) && OwnersOk(byCall, owners) && CurrentOk(byCall, owners, current)
  }

  // ---------------------------------------------------------------- claiming

  function Claims<T>(byCall: ByCall<T>, c: CallId): map<Endpoint, Owned<T>> { if c in byCall then byCall[c] else map[] }

  function Claim<T>(byCall: ByCall<T>, k: Endpoint, v: Owned<T>): ByCall<T> {
    byCall[v.callID := Claims(byCall, v.callID)[k := v]]
  }

  function OwnersOf(owners: Owners, k: Endpoint): seq<CallId> { if k in owners then owners[k] else [] }

  function AddOwner<T>(byCall: ByCall<T>, owners: Owners, c: CallId, k: Endpoint): Owners {
    if Owns(byCall, c, k) then owners else owners[k := OwnersOf(owners, k) + [c]]
  }

  lemma ClaimOwns<T>(byCall: ByCall<T>, k: Endpoint, v: Owned<T>)
    ensures forall c, k' :: Owns(Claim(byCall, k, v), c, k') <==> Owns(byCall, c, k') || (c == v.callID && k' == k)
  {}

  lemma ClaimClaims<T>(byCall: ByCall<T>, k: Endpoint, v: Owned<T>)
    requires ClaimsOk(byCall)
    ensures ClaimsOk(Claim(byCall, k, v))
  {
    ClaimOwns(byCall, k, v);
    var byCall': ByCall<T> := Claim(byCall, k, v);
    assert k in byCall'[v.callID];
    forall c: CallId, k': Endpoint | Owns<T>(byCall', c, k') ensures byCall'[c][k'].callID == c {
      if Owns(byCall, c, k') { assert byCall[c][k'].callID == c; }
    }
  }

  lemma ClaimOwners<T>(byCall: ByCall<T>, owners: Owners, k: Endpoint, v: Owned<T>)
    requires OwnersOk(byCall, owners)
    ensures OwnersOk(Claim(byCall, k, v), AddOwner(byCall, owners, v.callID, k))
  {
    ClaimOwns(byCall, k, v);
    var byCall', owners' := Claim(byCall, k, v), AddOwner(byCall, owners, v.callID, k);
    assert Owns(byCall, v.callID, k) <==> k in owners && v.callID in owners[k];
    forall c, k' ensures Owns(byCall', c, k') <==> k' in owners' && c in owners'[k'] {
      assert Owns(byCall, c, k') <==> k' in owners && c in owners[k'];
    }
  }

  lemma ClaimCurrent<T>(byCall: ByCall<T>, owners: Owners, current: Current<T>, k: Endpoint, v: Owned<T>)
    requires OwnersOk(byCall, owners) && CurrentOk(byCall, owners, current)
    ensures CurrentOk(Claim(byCall, k, v), AddOwner(byCall, owners, v.callID, k), current[k := v])
  {
    var byCall', current' := Claim(byCall, k, v), current[k := v];
    assert Owns(byCall, v.callID, k) <==> k in owners && v.callID in owners[k];
    forall k' | k' in current' ensures Speaks(byCall', k', current'[k']) {
      if k' != k { assert Speaks(byCall, k', current[k']); }
    }
  }

  lemma ClaimKeeps<T>(byCall: ByCall<T>, owners: Owners, current: Current<T>, k: Endpoint, v: Owned<T>)
    requires IndexOk(byCall, owners, current)
    ensures IndexOk(Claim(byCall, k, v), AddOwner(byCall, owners, v.callID, k), current[k := v])
  {
    ClaimClaims(byCall, k, v);
    ClaimOwners(byCall, owners, k, v);
    ClaimCurrent(byCall, owners, current, k, v);
  }

  // ---------------------------------------------------------------- letting go

  /** removeOwner: the list without the first occurrence of c. */
  function Without<X(==)>(s: seq<X>, c: X): seq<X> {
    if s == [] then [] else if s[0] == c then s[1..] else [s[0]] + Without(s[1..], c)
  }

  lemma {:induction false} WithoutMembers<X>(s: seq<X>, c: X)
    requires NoDup(s)
    ensures NoDup(Without(s, c)) && forall x :: x in Without(s, c) <==> x in s && x != c
  {
    if s != [] {
      WithoutMembers(s[1..], c);
      assert forall x :: x in s <==> x == s[0] || x in s[1..];
      if s[0] != c {
        var w := Without(s[1..], c);
        assert Without(s, c) == [s[0]] + w;
        assert s[0] !in w by { assert s[0] !in s[1..]; }
        forall i, j | 0 <= i < j < |[s[0]] + w| ensures ([s[0]] + w)[i] != ([s[0]] + w)[j] {
          assert ([s[0]] + w)[j] == w[j - 1] && w[j - 1] in w;
          if i > 0 { assert w[i - 1] != w[j - 1]; }
        }
      } else {
        assert s[0] !in s[1..];
      }
    }
  }

  /** The owners once call c has let go of the endpoints ks. */
  function OwnersAfter(owners: Owners, c: CallId, ks: set<Endpoint>): Owners {
    map k | k in owners && (k in ks ==> Without(owners[k], c) != []) :: if k in ks then Without(owners[k], c) else owners[k]
  }

  function ClaimOr<T>(byCall: ByCall<T>, c: CallId, k: Endpoint, default: Owned<T>): Owned<T> {
    if Owns(byCall, c, k) then byCall[c][k] else default
  }

  /** The current claims once call c has let go of the endpoints ks: the youngest remaining owner speaks. */
  function CurrentAfter<T>(byCall: ByCall<T>, owners: Owners, current: Current<T>, c: CallId, ks: set<Endpoint>): Current<T> {
    map k | k in current && (k in ks ==> Without(OwnersOf(owners, k), c) != []) ::
      if k in ks then
        var rest := Without(OwnersOf(owners, k), c);
        ClaimOr(byCall, rest[|rest| - 1], k, current[k])
      else current[k]
  }

  /** Letting go of one more endpoint is what one turn of the removal loop does to the owners. */
  lemma OwnersOneMore(owners: Owners, c: CallId, ks: set<Endpoint>, k: Endpoint)
    requires k in owners && k !in ks
    ensures k in OwnersAfter(owners, c, ks) && OwnersAfter(owners, c, ks)[k] == owners[k]
    ensures var rest := Without(owners[k], c);
            OwnersAfter(owners, c, ks + {k})
            == if rest == [] then OwnersAfter(owners, c, ks) - {k} else OwnersAfter(owners, c, ks)[k := rest]
  {}

  /** ... and to the current claims: the youngest of the remaining owners, another call, speaks. */
  lemma CurrentOneMore<T>(byCall: ByCall<T>, owners: Owners, current: Current<T>, c: CallId, ks: set<Endpoint>, k: Endpoint)
    requires k in owners && k in current && k !in ks
    requires var rest := Without(owners[k], c); rest != [] ==> Owns(byCall, rest[|rest| - 1], k)
    ensures var rest := Without(owners[k], c);
            CurrentAfter(byCall, owners, current, c, ks + {k})
            == if rest == [] then CurrentAfter(byCall, owners, current, c, ks) - {k}
               else CurrentAfter(byCall, owners, current, c, ks)[k := byCall[rest[|rest| - 1]][k]]
  {}

  lemma YoungestOwns<T>(byCall: ByCall<T>, owners: Owners, c: CallId, k: Endpoint)
    requires OwnersOk(byCall, owners) && k in owners
    ensures var rest := Without(owners[k], c);
            rest != [] ==> Owns(byCall, rest[|rest| - 1], k) && rest[|rest| - 1] != c
  {
    WithoutMembers(owners[k], c);
    var rest := Without(owners[k], c);
    if rest != [] {
      assert rest[|rest| - 1] in rest;
      assert Owns(byCall, rest[|rest| - 1], k) <==> k in owners && rest[|rest| - 1] in owners[k];
    }
  }

  lemma RemoveOwns<T>(byCall: ByCall<T>, c: CallId)
    ensures forall d, k :: Owns(byCall - {c}, d, k) <==> Owns(byCall, d, k) && d != c
  {}

  lemma RemoveKeeps<T>(byCall: ByCall<T>, owners: Owners, current: Current<T>, c: CallId)
    requires IndexOk(byCall, owners, current)
    ensures var ks := Claims(byCall, c).Keys;
            IndexOk(byCall - {c}, OwnersAfter(owners, c, ks), CurrentAfter(byCall, owners, current, c, ks))
  {
    RemoveOwns(byCall, c);
    var ks := Claims(byCall, c).Keys;
    var byCall', owners', current' := byCall - {c}, OwnersAfter(owners, c, ks), CurrentAfter(byCall, owners, current, c, ks);
    forall k | k in owners ensures NoDup(Without(owners[k], c)) && forall x :: x in Without(owners[k], c) <==> x in owners[k] && x != c {
      WithoutMembers(owners[k], c);
    }
    forall d, k ensures Owns(byCall', d, k) <==> k in owners' && d in owners'[k] {
      assert Owns(byCall, d, k) <==> k in owners && d in owners[k];
      assert Owns(byCall, c, k) <==> k in owners && c in owners[k];
    }
    forall k | k in current' ensures Speaks(byCall', k, current'[k]) {
      assert Speaks(byCall, k, current[k]);
      assert Owns(byCall, c, k) <==> k in owners && c in owners[k];
      if k in ks {
        var rest := Without(owners[k], c);
        assert rest[|rest| - 1] in rest;
        assert Owns(byCall, rest[|rest| - 1], k);
      }
    }
  }

  /** The newest claim of an endpoint speaks for it until its own call lets go or a newer one is made: it speaks after it
      is made, and after any other call has let go of everything. */
  lemma NewestSpeaks<T>(byCall: ByCall<T>, owners: Owners, current: Current<T>, k: Endpoint, v: Owned<T>, c: CallId)
    requires IndexOk(byCall, owners, current) && !Owns(byCall, v.callID, k) && c != v.callID
    ensures var byCall', owners', current' := Claim(byCall, k, v), AddOwner(byCall, owners, v.callID, k), current[k := v];
            var after := CurrentAfter(byCall', owners', current', c, Claims(byCall', c).Keys);
            current'[k] == v && k in after && after[k] == v
  {
    var owners' := AddOwner(byCall, owners, v.callID, k);
    assert owners'[k] == OwnersOf(owners, k) + [v.callID];
    WithoutKeepsLast(OwnersOf(owners, k), v.callID, c);
  }

  lemma {:induction false} WithoutKeepsLast<X>(s: seq<X>, last: X, c: X)
    requires c != last
    ensures var w := Without(s + [last], c); w != [] && w[|w| - 1] == last
  {
    if s == [] {
      assert s + [last] == [last];
    } else {
      assert (s + [last])[1..] == s[1..] + [last];
      WithoutKeepsLast(s[1..], last, c);
    }
  }

  // ---------------------------------------------------------------- the abstract view

  /** Every (call, endpoint) claim. */
  ghost function Pairs<T>(byCall: ByCall<T>): set<(CallId, Endpoint)> {
    set c, k | c in byCall && k in byCall[c] :: (c, k)
  }

  lemma PairsClaim<T>(byCall: ByCall<T>, k: Endpoint, v: Owned<T>)
    ensures Pairs(Claim(byCall, k, v)) == Pairs(byCall) + {(v.callID, k)}
  {
    ClaimOwns(byCall, k, v);
    forall p ensures p in Pairs(Claim(byCall, k, v)) <==> p in Pairs(byCall) + {(v.callID, k)} {
      assert p in Pairs(Claim(byCall, k, v)) <==> Owns(Claim(byCall, k, v), p.0, p.1);
      assert p in Pairs(byCall) <==> Owns(byCall, p.0, p.1);
    }
  }

  ghost function OtherCalls(pairs: set<(CallId, Endpoint)>, c: CallId): set<(CallId, Endpoint)> {
    set p | p in pairs && p.0 != c
  }

  lemma PairsRemove<T>(byCall: ByCall<T>, c: CallId)
    ensures Pairs(byCall - {c}) == OtherCalls(Pairs(byCall), c)
  {}

  /** How many calls claim k. */
  ghost function Count(pairs: set<(CallId, Endpoint)>, k: Endpoint): nat { |set p | p in pairs && p.1 == k| }

  lemma CountAdd(pairs: set<(CallId, Endpoint)>, c: CallId, k: Endpoint, k': Endpoint)
    ensures Count(pairs + {(c, k)}, k') == Count(pairs, k') + if k' == k && (c, k) !in pairs then 1 else 0
  {
    var before, after := set p | p in pairs && p.1 == k', set p | p in pairs + {(c, k)} && p.1 == k';
    if k' == k && (c, k) !in pairs { assert after == before + {(c, k)}; } else { assert after == before; }
  }

  lemma CountRemove(pairs: set<(CallId, Endpoint)>, c: CallId, k: Endpoint)
    ensures Count(OtherCalls(pairs, c), k) == Count(pairs, k) - if (c, k) in pairs then 1 else 0
  {
    var before, after := set p | p in pairs && p.1 == k, set p | p in OtherCalls(pairs, c) && p.1 == k;
    if (c, k) in pairs { assert before == after + {(c, k)}; } else { assert after == before; }
  }

  ghost function Elements(s: seq<CallId>, k: Endpoint): set<(CallId, Endpoint)> { set i | 0 <= i < |s| :: (s[i], k) }

  lemma {:induction false} ElementsSize(s: seq<CallId>, k: Endpoint)
    requires NoDup(s)
    ensures |Elements(s, k)| == |s|
  {
    if s != [] {
      var init, last := s[..|s| - 1], s[|s| - 1];
      ElementsSize(init, k);
      assert Elements(s, k) == Elements(init, k) + {(last, k)};
      assert (last, k) !in Elements(init, k);
    }
  }

  /** The length of an owner list is the number of calls claiming the endpoint. */
  lemma OwnersCount<T>(byCall: ByCall<T>, owners: Owners, k: Endpoint)
    requires OwnersOk(byCall, owners)
    ensures |OwnersOf(owners, k)| == Count(Pairs(byCall), k)
  {
    var s := OwnersOf(owners, k);
    var holders := set p | p in Pairs(byCall) && p.1 == k;
    forall p ensures p in holders <==> p in Elements(s, k) {
      assert Owns(byCall, p.0, k) <==> k in owners && p.0 in owners[k];
      assert p in holders <==> Owns(byCall, p.0, p.1) && p.1 == k;
    }
    assert holders == Elements(s, k);
    ElementsSize(s, k);
  }
}
