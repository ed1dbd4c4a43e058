/**
 SIP dialogs: the identifier under which a dialog is kept, and the table of active dialogs.
 */
module Dialogs {
  import opened Basics

  // ---------------------------------------------------------------- identifiers

  /** Order of byte strings (bytes.Compare <= 0). */
  predicate LexLe(a: string, b: string) {
    a == [] || (b != [] && (a[0] < b[0] || (a[0] == b[0] && LexLe(a[1..], b[1..]))))
  }

  /** normalizeDialogID: the Call-ID and both tags, smaller tag first; an error without either tag. */
  function DialogId(callID: string, fromTag: string, toTag: string): Option<string> {
    if fromTag == "" || toTag == "" then None
    else if LexLe(fromTag, toTag) then Some(callID + ":" + fromTag + ":" + toTag)
    else Some(callID + ":" + toTag + ":" + fromTag)
  }

  predicate ColonFree(s: string) { ':' !in s }

  lemma {:induction false} LexAntisymmetric(a: string, b: string)
    requires LexLe(a, b) && LexLe(b, a)
    ensures a == b
  {
    if a != [] {
      LexAntisymmetric(a[1..], b[1..]);
      assert a == [a[0]] + a[1..] && b == [b[0]] + b[1..];
    }
  }

  lemma {:induction false} LexTotal(a: string, b: string)
    ensures LexLe(a, b) || LexLe(b, a)
  {
    if a != [] && b != [] { LexTotal(a[1..], b[1..]); }
  }

  /** Both directions of a dialog have the same identifier. */
  lemma DialogIdSymmetric(callID: string, fromTag: string, toTag: string)
    ensures DialogId(callID, fromTag, toTag) == DialogId(callID, toTag, fromTag)
  {
    LexTotal(fromTag, toTag);
    if LexLe(fromTag, toTag) && LexLe(toTag, fromTag) { LexAntisymmetric(fromTag, toTag); }
  }

  /** The last colon of a string is found again behind any prefix. */
  lemma LastColon(x: string, m: string, x': string, m': string)
    requires ColonFree(m) && ColonFree(m') && x + ":" + m == x' + ":" + m'
    ensures x == x' && m == m'
  {
    var s := x + ":" + m;
    NoLaterColon(x, m);
    NoLaterColon(x', m');
    assert s[|x|] == ':' && s[|x'|] == ':';
    assert x == s[..|x|] && x' == s[..|x'|];
    assert m == s[|x| + 1..] && m' == s[|x'| + 1..];
  }

  lemma NoLaterColon(x: string, m: string)
    requires ColonFree(m)
    ensures var s := x + ":" + m; forall i :: |x| < i < |s| ==> s[i] != ':'
  {
    var s := x + ":" + m;
    forall i | |x| < i < |s| ensures s[i] != ':' { assert s[i] == m[i - |x| - 1]; }
  }

  function MinTag(a: string, b: string): string { if LexLe(a, b) then a else b }

  function MaxTag(a: string, b: string): string { if LexLe(a, b) then b else a }

  /** For tags without a colon, an identifier names one Call-ID and one pair of tags, whatever the Call-ID contains. */
  lemma DialogIdInjective(callID: string, a: string, b: string, callID': string, a': string, b': string)
    requires ColonFree(a) && ColonFree(b) && ColonFree(a') && ColonFree(b')
    requires DialogId(callID, a, b).Some? && DialogId(callID, a, b) == DialogId(callID', a', b')
    ensures callID == callID' && ((a == a' && b == b') || (a == b' && b == a'))
  {
    var min, max, min', max' := MinTag(a, b), MaxTag(a, b), MinTag(a', b'), MaxTag(a', b');
    LastColon(callID + ":" + min, max, callID' + ":" + min', max');
    LastColon(callID, min, callID', min');
  }

  /** With a colon in a tag, two calls can share an identifier. */
  lemma ColonTagsCollide()
    ensures DialogId("x", "1", "2:3") == DialogId("x:1", "2", "3") && DialogId("x", "1", "2:3").Some?
  {
    assert LexLe("1", "2:3") && LexLe("2", "3");
    assert "x" + ":" + "1" + ":" + "2:3" == "x:1:2:3";
    assert "x:1" + ":" + "2" + ":" + "3" == "x:1:2:3";
  }

  // ---------------------------------------------------------------- the table

  datatype Info = Info(carrier: string, uaType: string, sourceCountry: string, destinationCountry: string, direction: string)

  datatype Entry = Entry(expiresAt: int, createdAt: int, callID: string, info: Info)

  type Storage = map<string, Entry>

  /** What teardown metrics are computed from; all empty when there was no dialog. */
  datatype Ended = Ended(duration: int, callID: string, info: Info)

  const NO_INFO := Info("", "", "", "", "")

  function EndOf(e: Entry, now: int): Ended {
    Ended(if now < e.createdAt then 0 else now - e.createdAt, e.callID, e.info)
  }

  function Created(s: Storage, id: string, e: Entry): Storage { if id in s then s else s[id := e] }

  function Refreshed(s: Storage, id: string, expiresAt: int): Storage {
    if id in s then s[id := s[id].(expiresAt := expiresAt)] else s
  }

  predicate Expires(e: Entry, now: int) { now > e.expiresAt }

  /** An expired dialog is reported only if it has lasted some time. */
  predicate Reports(e: Entry, now: int) { Expires(e, now) && now > e.createdAt }

  function Kept(s: Storage, now: int): Storage { map id | id in s && !Expires(s[id], now) :: s[id] }

  function ReportedIds(s: Storage, now: int): set<string> { set id | id in s && Reports(s[id], now) }

  class DialogTable {
    var storage: Storage

    constructor ()
      ensures storage == map[]
    {
      storage := map[];
    }

    method Create(id: string, e: Entry)
      modifies this
      ensures storage == Created(old(storage), id, e)
      ensures storage == if id in old(storage) then old(storage) else old(storage)[id := e]
    {
      if id !in storage { storage := storage[id := e]; }
    }

    method Delete(id: string, now: int) returns (r: Ended)
      modifies this
      ensures storage == old(storage) - {id}
      ensures r == if id in old(storage) then EndOf(old(storage)[id], now) else Ended(0, "", NO_INFO)
      ensures id in old(storage) ==>
                var e := old(storage)[id];
                r.callID == e.callID && r.info == e.info && r.duration == if now > e.createdAt then now - e.createdAt else 0
    {
      if id !in storage {
        assert storage - {id} == storage;
        return Ended(0, "", NO_INFO);
      }
      var entry := storage[id];
      storage := storage - {id};
      var d := now - entry.createdAt;
      if d < 0 { return Ended(0, entry.callID, entry.info); }
      return Ended(d, entry.callID, entry.info);
    }

    predicate HasActive(id: string)
      reads this
    {
      id in storage
    }

    method Refresh(id: string, expiresAt: int) returns (ok: bool)
      modifies this
      ensures ok <==> id in old(storage)
      ensures storage == Refreshed(old(storage), id, expiresAt)
      ensures ok ==> storage == old(storage)[id := old(storage)[id].(expiresAt := expiresAt)]
      ensures !ok ==> storage == old(storage)
    {
      if id !in storage { return false; }
      storage := storage[id := storage[id].(expiresAt := expiresAt)];
      return true;
    }

    /** Removes every expired dialog and reports those that lasted some time, each once. */
    method Cleanup(now: int) returns (results: seq<Ended>, ghost ids: seq<string>)
      modifies this
      ensures storage == Kept(old(storage), now)
      ensures forall id :: id in storage <==> id in old(storage) && now <= old(storage)[id].expiresAt
      ensures |ids| == |results| && NoDup(ids) && forall id :: id in ids <==> id in ReportedIds(old(storage), now)
      ensures forall i :: 0 <= i < |ids| ==> ids[i] in old(storage) && results[i] == EndOf(old(storage)[ids[i]], now)
      ensures forall id :: id in ids <==> id in old(storage) && now > old(storage)[id].expiresAt && now > old(storage)[id].createdAt
      ensures forall i :: 0 <= i < |ids| ==>
                var e := old(storage)[ids[i]];
                results[i].duration == now - e.createdAt && results[i].callID == e.callID && results[i].info == e.info
    {
      results, ids := [], [];
      var todo := storage.Keys;
      while todo != {}
        invariant todo <= storage.Keys <= old(storage).Keys && |ids| == |results| && NoDup(ids)
        invariant forall id :: id in old(storage) ==> (id in storage <==> id in todo || !Expires(old(storage)[id], now))
        invariant forall id :: id in storage ==> storage[id] == old(storage)[id]
        invariant forall id :: id in ids <==> id in old(storage) && id !in todo && Reports(old(storage)[id], now)
        invariant forall i :: 0 <= i < |ids| ==> ids[i] in old(storage) && results[i] == EndOf(old(storage)[ids[i]], now)
        decreases todo
      {
        var id :| id in todo;
        var entry := storage[id];
        if now > entry.expiresAt {
          var d := now - entry.createdAt;
          if d > 0 {
            results, ids := results + [Ended(d, entry.callID, entry.info)], ids + [id];
          }
          storage := storage - {id};
        }
        todo := todo - {id};
      }
    }
  }
}
