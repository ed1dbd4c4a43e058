/**
 Reference counts of the endpoints the packet filter must let through, mirrored into one kernel map per network
 interface.  A write to a kernel map may fail; a key whose last write failed somewhere is remembered in a dirty log
 together with the presence it should have, and retried.
 */
module EndpointRefs {
  import opened Ownership

  type Refs = map<Endpoint, nat>
  type Dirty = map<Endpoint, bool>
  type Kernel = seq<set<Endpoint>>

  /** The kernel-map writes that return an error, by map and key; the value says whether the write took effect
      nevertheless.  The empty map is a healthy kernel. */
  type Faults = map<(nat, Endpoint), bool>

  /** One call of setRTPEndpointPresence. */
  datatype Flip = Flip(key: Endpoint, present: bool)

  function RefCount(refs: Refs, k: Endpoint): nat { if k in refs then refs[k] else 0 }

  ghost predicate Positive(refs: Refs) { forall k :: k in refs ==> refs[k] > 0 }

  /** What the dirty log wants for a key is what the references want. */
  predicate Wanted(refs: Refs, dirty: Dirty, k: Endpoint) { k in dirty ==> (dirty[k] <==> k in refs) }

  /** A key that is not dirty is in every kernel map exactly if it is referenced. */
  ghost predicate Mirrored(refs: Refs, dirty: Dirty, kernel: Kernel, k: Endpoint) {
    k !in dirty ==> Present(kernel, k, k in refs)
  }

  ghost predicate Present(kernel: Kernel, k: Endpoint, present: bool) {
    forall i :: 0 <= i < |kernel| ==> (k in kernel[i] <==> present)
  }

  ghost predicate Agrees(refs: Refs, dirty: Dirty, kernel: Kernel, k: Endpoint) {
    Wanted(refs, dirty, k) && Mirrored(refs, dirty, kernel, k)
  }

  /** What retaining and releasing does to the counts. */
  function Retained(refs: Refs, k: Endpoint): Refs { refs[k := RefCount(refs, k) + 1] }

  function Released(refs: Refs, k: Endpoint): Refs {
    if RefCount(refs, k) > 1 then refs[k := refs[k] - 1] else refs - {k}
  }

  /** The keys that were flipped between two states are set, all of them, and no key has lost its last reference. */
  ghost predicate Grew(log: seq<Flip>, refs: Refs, log': seq<Flip>, refs': Refs) {
    && log <= log' && refs.Keys <= refs'.Keys
    && forall i :: |log| <= i < |log'| ==> log'[i].present && log'[i].key !in refs && log'[i].key in refs'
  }

  /** The keys that were flipped between two states are cleared, all of them, and no key has gained a first reference. */
  ghost predicate Shrank(log: seq<Flip>, refs: Refs, log': seq<Flip>, refs': Refs) {
    && log <= log' && refs'.Keys <= refs.Keys
    && forall i :: |log| <= i < |log'| ==> !log'[i].present && log'[i].key in refs && log'[i].key !in refs'
  }

  /** Nothing is written where the referenced keys stay the same. */
  lemma SameKeysNoFlips(log: seq<Flip>, refs: Refs, log': seq<Flip>, refs': Refs)
    requires Grew(log, refs, log', refs') || Shrank(log, refs, log', refs')
    requires refs.Keys == refs'.Keys
    ensures log' == log
  {
    if |log'| > |log| { FlipChangesKeys(log, refs, log', refs'); }
  }

  lemma FlipChangesKeys(log: seq<Flip>, refs: Refs, log': seq<Flip>, refs': Refs)
    requires Grew(log, refs, log', refs') || Shrank(log, refs, log', refs')
    requires |log'| > |log|
    ensures refs.Keys != refs'.Keys
  {
    var key := log'[|log|].key;
    assert key in refs <==> key !in refs';
  }

  class EndpointMap {
    var refs: Refs
    var dirty: Dirty
    var kernel: Kernel
    ghost var log: seq<Flip>

    ghost predicate Valid()
      reads this
    {
      Positive(refs) && forall k :: Agrees(refs, dirty, kernel, k)
    }

    constructor (maps: nat)
      ensures Valid() && refs == map[] && dirty == map[] && kernel == seq(maps, i => {}) && log == []
    {
      refs, dirty, kernel, log := map[], map[], seq(maps, i => {}), [];
    }

    /** Update or Delete on one kernel map; true if the answer counts as success: no error, or the error of deleting a
        key that is not there. */
    method WriteOne(i: nat, key: Endpoint, present: bool, faults: Faults) returns (ok: bool)
      requires i < |kernel|
      modifies this`kernel
      ensures |kernel| == |old(kernel)| && forall j :: 0 <= j < |kernel| && j != i ==> kernel[j] == old(kernel)[j]
      ensures kernel[i] - {key} == old(kernel)[i] - {key}
      ensures ok ==> (key in kernel[i] <==> present)
      ensures ok <==> (i, key) !in faults
    {
      var fault := (i, key) in faults;
      if !fault || faults[(i, key)] {
        kernel := kernel[i := if present then kernel[i] + {key} else kernel[i] - {key}];
      }
      return !fault;
    }

    method SetPresence(key: Endpoint, present: bool, faults: Faults)
      requires forall k :: k != key ==> Agrees(refs, dirty, kernel, k)
      requires present <==> key in refs
      modifies this`kernel, this`dirty, this`log
      ensures |kernel| == |old(kernel)|
      ensures forall k :: Agrees(refs, dirty, kernel, k)
      ensures dirty == old(dirty) - {key} || dirty == old(dirty)[key := present]
      ensures (forall i :: 0 <= i < |kernel| ==> (i, key) !in faults) <==> key !in dirty
      ensures log == old(log) + [Flip(key, present)]
    {
      var converged := true;
      var i := 0;
      while i < |kernel|
        invariant 0 <= i <= |kernel| == |old(kernel)| && dirty == old(dirty) && log == old(log)
        invariant forall j :: 0 <= j < |kernel| ==> kernel[j] - {key} == old(kernel)[j] - {key}
        invariant converged ==> forall j :: 0 <= j < i ==> (key in kernel[j] <==> present)
        invariant converged <==> forall j :: 0 <= j < i ==> (j, key) !in faults
      {
        var ok := WriteOne(i, key, present, faults);
        if !ok { converged := false; }
        i := i + 1;
      }
      dirty := if converged then dirty - {key} else dirty[key := present];
      log := log + [Flip(key, present)];
      assert dirty - {key} == old(dirty) - {key};
      OthersAgree(refs, old(dirty), dirty, old(kernel), kernel, key);
    }

    method Retain(key: Endpoint, faults: Faults)
      requires Valid()
      modifies this
      ensures Valid() && |kernel| == |old(kernel)|
      ensures refs == Retained(old(refs), key)
      ensures log == old(log) + if key in old(refs) then [] else [Flip(key, true)]
      ensures Grew(old(log), old(refs), log, refs)
      ensures faults == map[] ==> dirty.Keys <= old(dirty).Keys
    {
      if key in refs && refs[key] > 0 {
        RefsOnly(refs, Retained(refs, key), dirty, kernel);
        refs := refs[key := refs[key] + 1];
        return;
      }
      OtherKeys(refs, Retained(refs, key), dirty, kernel, key);
      refs := refs[key := 1];
      SetPresence(key, true, faults);
    }

    method Release(key: Endpoint, faults: Faults)
      requires Valid()
      modifies this
      ensures Valid() && |kernel| == |old(kernel)|
      ensures refs == Released(old(refs), key)
      ensures log == old(log) + if key in old(refs) && key !in refs then [Flip(key, false)] else []
      ensures Shrank(old(log), old(refs), log, refs)
      ensures faults == map[] ==> dirty.Keys <= old(dirty).Keys
    {
      if key !in refs {
        assert refs - {key} == refs;
        return;
      }
      if refs[key] > 1 {
        RefsOnly(refs, Released(refs, key), dirty, kernel);
        refs := refs[key := refs[key] - 1];
        return;
      }
      OtherKeys(refs, Released(refs, key), dirty, kernel, key);
      refs := refs - {key};
      SetPresence(key, false, faults);
    }

    /** Retries every dirty key.  With a healthy kernel, every map then holds exactly the referenced endpoints. */
    method Reconcile(faults: Faults)
      requires Valid()
      modifies this`kernel, this`dirty, this`log
      ensures Valid() && |kernel| == |old(kernel)| && dirty.Keys <= old(dirty).Keys
      ensures faults == map[] ==> dirty == map[] && forall i :: 0 <= i < |kernel| ==> kernel[i] == refs.Keys
    {
      var todo := dirty.Keys;
      while todo != {}
        invariant todo <= dirty.Keys <= old(dirty).Keys && |kernel| == |old(kernel)|
        invariant forall k :: Agrees(refs, dirty, kernel, k)
        invariant faults == map[] ==> dirty.Keys == todo
        decreases todo
      {
        var key :| key in todo;
        assert Agrees(refs, dirty, kernel, key);
        SetPresence(key, dirty[key], faults);
        todo := todo - {key};
      }
      if faults == map[] {
        Converged(refs, dirty, kernel);
      }
    }

    method RetainAll(keys: seq<Endpoint>, faults: Faults)
      requires Valid()
      modifies this
      ensures Valid() && |kernel| == |old(kernel)|
      ensures forall k :: RefCount(refs, k) == RefCount(old(refs), k) + multiset(keys)[k]
      ensures Grew(old(log), old(refs), log, refs)
    {
      var i := 0;
      while i < |keys|
        invariant 0 <= i <= |keys| && Valid() && |kernel| == |old(kernel)|
        invariant forall k :: RefCount(refs, k) == RefCount(old(refs), k) + multiset(keys[..i])[k]
        invariant Grew(old(log), old(refs), log, refs)
      {
        Retain(keys[i], faults);
        assert keys[..i + 1] == keys[..i] + [keys[i]];
        i := i + 1;
      }
      assert keys[..i] == keys;
    }

    method ReleaseAll(keys: seq<Endpoint>, faults: Faults)
      requires Valid()
      requires forall k :: multiset(keys)[k] <= RefCount(refs, k)
      modifies this
      ensures Valid() && |kernel| == |old(kernel)|
      ensures forall k :: RefCount(refs, k) == RefCount(old(refs), k) - multiset(keys)[k]
      ensures Shrank(old(log), old(refs), log, refs)
    {
      var i := 0;
      while i < |keys|
        invariant 0 <= i <= |keys| && Valid() && |kernel| == |old(kernel)|
        invariant forall k :: RefCount(refs, k) == RefCount(old(refs), k) - multiset(keys[..i])[k]
        invariant Shrank(old(log), old(refs), log, refs)
      {
        MoreLeft(keys, i);
        Release(keys[i], faults);
        assert keys[..i + 1] == keys[..i] + [keys[i]];
        i := i + 1;
      }
      assert keys[..i] == keys;
    }
  }

  lemma MoreLeft(keys: seq<Endpoint>, i: nat)
    requires i < |keys|
    ensures multiset(keys[..i])[keys[i]] < multiset(keys)[keys[i]]
  {
    assert keys == keys[..i] + [keys[i]] + keys[i + 1..];
  }

  lemma RefsOnly(refs: Refs, refs': Refs, dirty: Dirty, kernel: Kernel)
    requires refs.Keys == refs'.Keys && forall k :: Agrees(refs, dirty, kernel, k)
    ensures forall k :: Agrees(refs', dirty, kernel, k)
  {
    forall k ensures Agrees(refs', dirty, kernel, k) { assert Agrees(refs, dirty, kernel, k); }
  }

  lemma OtherKeys(refs: Refs, refs': Refs, dirty: Dirty, kernel: Kernel, key: Endpoint)
    requires refs.Keys - {key} == refs'.Keys - {key} && forall k :: Agrees(refs, dirty, kernel, k)
    ensures forall k :: k != key ==> Agrees(refs', dirty, kernel, k)
  {
    forall k | k != key ensures Agrees(refs', dirty, kernel, k) {
      assert Agrees(refs, dirty, kernel, k);
      assert k in refs.Keys - {key} <==> k in refs'.Keys - {key};
    }
  }

  lemma OthersAgree(refs: Refs, dirty: Dirty, dirty': Dirty, kernel: Kernel, kernel': Kernel, key: Endpoint)
    requires |kernel| == |kernel'| && forall j :: 0 <= j < |kernel| ==> kernel'[j] - {key} == kernel[j] - {key}
    requires dirty' - {key} == dirty - {key}
    ensures forall k :: k != key && Agrees(refs, dirty, kernel, k) ==> Agrees(refs, dirty', kernel', k)
  {
    forall k | k != key && Agrees(refs, dirty, kernel, k) ensures Agrees(refs, dirty', kernel', k) {
      assert k in dirty' - {key} <==> k in dirty - {key};
      forall i | 0 <= i < |kernel| ensures k in kernel'[i] <==> k in kernel[i] {
        assert k in kernel'[i] - {key} <==> k in kernel[i] - {key};
      }
    }
  }

  lemma Converged(refs: Refs, dirty: Dirty, kernel: Kernel)
    requires dirty == map[] && forall k :: Agrees(refs, dirty, kernel, k)
    ensures forall i :: 0 <= i < |kernel| ==> kernel[i] == refs.Keys
  {
    forall i | 0 <= i < |kernel| ensures kernel[i] == refs.Keys {
      forall k ensures k in kernel[i] <==> k in refs { assert Agrees(refs, dirty, kernel, k); }
    }
  }
}
