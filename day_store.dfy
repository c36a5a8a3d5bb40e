/**
 * The `days` collection of the document store, held in memory. Each write
 * (`addDoc`, `updateDoc`, `deleteDoc`) is one atomic step whose success is
 * a parameter: a failed write changes nothing.
 */
module DayStore {
  import opened Optional
  import opened Records

  /** The document an `updateDoc` leaves: the payload merged in, and the type too when the payload carries one. */
  function Patched(d: Day, data: DayData, ledger: Option<Ledger>): (r: Day)
    ensures r.id == d.id
    ensures r.ledger == (if ledger.Some? then ledger.value else d.ledger)
  {
    var m := Merge(d, data);
    if ledger.Some? then m.(ledger := ledger.value) else m
  }

  /** The documents with the one at index i taken out. */
  function RemoveAt(docs: seq<Day>, i: nat): (r: seq<Day>)
    requires i < |docs|
    ensures |r| == |docs| - 1
    ensures forall k :: 0 <= k < i ==> r[k] == docs[k]
    ensures forall k :: i <= k < |r| ==> r[k] == docs[k + 1]
  {
    docs[..i] + docs[i + 1..]
  }

  /** Under unique ids, looking a document up by its own id finds that document. */
  lemma IndexOfMember(docs: seq<Day>, d: Day)
    requires UniqueIds(docs) && d in docs
    ensures IndexOf(docs, d.id).Some? && docs[IndexOf(docs, d.id).value] == d
  {
    var j :| 0 <= j < |docs| && docs[j] == d;
    var i := IndexOf(docs, d.id).value;
    assert !(i < j) && !(j < i);
  }

  class DayCollection {
    var docs: seq<Day>
    var nextId: nat

    ghost predicate Valid()
      reads this
    {
      UniqueIds(docs) && IdsBelow(docs, nextId)
    }

    constructor (initial: seq<Day>, next: nat)
      requires UniqueIds(initial) && IdsBelow(initial, next)
      ensures Valid() && docs == initial && nextId == next
    {
      docs := initial;
      nextId := next;
    }

    /** addDoc: appends a document of ledger t under a fresh id. */
    method Create(t: Ledger, data: DayData, writeOk: bool) returns (id: Option<DayId>)
      requires Valid()
      modifies this
      ensures Valid()
      ensures writeOk ==> id == Some(old(nextId)) && nextId == old(nextId) + 1
      ensures writeOk ==> docs == old(docs) + [NewDay(old(nextId), t, data)]
      ensures !writeOk ==> id == None && docs == old(docs) && nextId == old(nextId)
    {
      if !writeOk {
        return None;
      }
      id := Some(nextId);
      docs := docs + [NewDay(nextId, t, data)];
      nextId := nextId + 1;
    }

    /** updateDoc: merges the payload into the document with that id; there must be one. */
    method Update(id: DayId, data: DayData, ledger: Option<Ledger>, writeOk: bool) returns (done: bool)
      requires Valid()
      modifies this
      ensures Valid() && nextId == old(nextId)
      ensures done <==> writeOk && IndexOf(old(docs), id).Some?
      ensures done ==> docs == old(docs)[IndexOf(old(docs), id).value := Patched(old(docs)[IndexOf(old(docs), id).value], data, ledger)]
      ensures !done ==> docs == old(docs)
    {
      var at := IndexOf(docs, id);
      if !writeOk || at.None? {
        return false;
      }
      docs := docs[at.value := Patched(docs[at.value], data, ledger)];
      done := true;
    }

    /** deleteDoc: removes the document with that id; deleting a missing document succeeds. */
    method Delete(id: DayId, writeOk: bool) returns (done: bool)
      requires Valid()
      modifies this
      ensures Valid() && nextId == old(nextId)
      ensures done <==> writeOk
      ensures done && IndexOf(old(docs), id).Some? ==> docs == RemoveAt(old(docs), IndexOf(old(docs), id).value)
      ensures !(done && IndexOf(old(docs), id).Some?) ==> docs == old(docs)
      ensures forall k :: 0 <= k < |docs| ==> docs[k].id != id || !done
    {
      if !writeOk {
        return false;
      }
      var at := IndexOf(docs, id);
      if at.Some? {
        docs := RemoveAt(docs, at.value);
      }
      done := true;
    }
  }
}
