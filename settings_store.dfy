/**
 * The `settings` collection of the document store, held in memory: one
 * document per ledger holding that ledger's initial balance, found by its
 * `type` field and written by find-or-create. Each write is one atomic step
 * whose success is a parameter.
 */
module SettingsStore {
  import opened Optional
  import opened Records
  import opened Validation

  /**
   * A settings document: its `type` (None when it is neither ledger's) and
   * its `initialBalance` field as stored, which may be missing or not a number.
   */
  datatype SettingDoc = SettingDoc(kind: Option<Ledger>, initialBalance: Value)

  /** The position of `docs[0]` of the query `where("type", "==", t)`. */
  function FirstOfKind(docs: seq<SettingDoc>, t: Ledger): (r: Option<nat>)
    ensures r.Some? ==> r.value < |docs| && docs[r.value].kind == Some(t)
    ensures r.Some? ==> forall j :: 0 <= j < r.value ==> docs[j].kind != Some(t)
    ensures r.None? ==> forall j :: 0 <= j < |docs| ==> docs[j].kind != Some(t)
  {
    if docs == [] then None
    else if docs[0].kind == Some(t) then Some(0)
    else match FirstOfKind(docs[1..], t)
      case None => None
      case Some(k) => Some(k + 1)
  }

  /** The balance a load reads for t: the first matching document's `initialBalance || 0`, or 0 when there is none. */
  function FirstBalance(docs: seq<SettingDoc>, t: Ledger): (v: Value)
    ensures v.Number? || v.Text?
    ensures FirstOfKind(docs, t).None? ==> v == Number(0.0)
  {
    match FirstOfKind(docs, t)
    case Some(i) => OrZero(docs[i].initialBalance)
    case None => Number(0.0)
  }

  /**
   * The collection after a find-or-create of t's balance: the first
   * document of that type gets the amount (a merging write that keeps its
   * other fields), or a new document of that type is added.
   */
  function PutDocs(docs: seq<SettingDoc>, t: Ledger, amount: real): seq<SettingDoc> {
    match FirstOfKind(docs, t)
    case Some(i) => docs[i := docs[i].(initialBalance := Number(amount))]
    case None => docs + [SettingDoc(Some(t), Number(amount))]
  }

  /** No two documents are of the same ledger. */
  ghost predicate OnePerKind(docs: seq<SettingDoc>) {
    forall i, j :: 0 <= i < j < |docs| && docs[i].kind.Some? ==> docs[i].kind != docs[j].kind
  }

  /**
   * A write never adds a second document of a ledger: it creates one
   * exactly when the ledger had none, and keeps the rest in place.
   */
  lemma PutCreatesOnlyWhenMissing(docs: seq<SettingDoc>, t: Ledger, amount: real)
    ensures |PutDocs(docs, t, amount)| == |docs| + (if FirstOfKind(docs, t).None? then 1 else 0)
    ensures forall j :: 0 <= j < |docs| && docs[j].kind != Some(t) ==> PutDocs(docs, t, amount)[j] == docs[j]
    ensures OnePerKind(docs) ==> OnePerKind(PutDocs(docs, t, amount))
  {
  }

  /** Loading after a write reads back the amount written, and the other ledger's balance as it was. */
  lemma PutThenLoad(docs: seq<SettingDoc>, t: Ledger, amount: real, other: Ledger)
    ensures FirstBalance(PutDocs(docs, t, amount), t) == Number(amount)
    ensures other != t ==> FirstBalance(PutDocs(docs, t, amount), other) == FirstBalance(docs, other)
  {
    var r := PutDocs(docs, t, amount);
    match FirstOfKind(docs, t)
    case Some(i) =>
      assert FirstOfKind(r, t) == Some(i) by {
        FirstOfKindUnique(r, t, i);
      }
      if other != t {
        match FirstOfKind(docs, other)
        case Some(k) =>
          FirstOfKindUnique(r, other, k);
        case None =>
      }
    case None =>
      FirstOfKindUnique(r, t, |docs|);
      if other != t {
        FirstOfKindPrefix(docs, SettingDoc(Some(t), Number(amount)), other);
      }
  }

  /** The first document of a kind is determined by the kinds before it. */
  lemma FirstOfKindUnique(docs: seq<SettingDoc>, t: Ledger, i: nat)
    requires i < |docs| && docs[i].kind == Some(t)
    requires forall j :: 0 <= j < i ==> docs[j].kind != Some(t)
    ensures FirstOfKind(docs, t) == Some(i)
  {
    var r := FirstOfKind(docs, t);
    assert r.Some?;
    assert !(r.value < i) && !(i < r.value);
  }

  /** Appending a document of another kind does not change the first document of a kind. */
  lemma FirstOfKindPrefix(docs: seq<SettingDoc>, d: SettingDoc, t: Ledger)
    requires d.kind != Some(t)
    ensures FirstOfKind(docs + [d], t) == FirstOfKind(docs, t)
  {
    match FirstOfKind(docs, t)
    case Some(i) => FirstOfKindUnique(docs + [d], t, i);
    case None =>
      var r := FirstOfKind(docs + [d], t);
      assert forall j :: 0 <= j < |docs + [d]| ==> (docs + [d])[j].kind != Some(t);
  }

  class SettingsCollection {
    var docs: seq<SettingDoc>

    constructor (initial: seq<SettingDoc>)
      ensures docs == initial
    {
      docs := initial;
    }

    /** Query by type, then `setDoc` on the first match with `merge`, or on a new document. */
    method Put(t: Ledger, amount: real, writeOk: bool) returns (done: bool)
      modifies this
      ensures done <==> writeOk
      ensures done ==> docs == PutDocs(old(docs), t, amount)
      ensures !done ==> docs == old(docs)
    {
      if !writeOk {
        return false;
      }
      var at := FirstOfKind(docs, t);
      if at.Some? {
        docs := docs[at.value := docs[at.value].(initialBalance := Number(amount))];
      } else {
        docs := docs + [SettingDoc(Some(t), Number(amount))];
      }
      done := true;
    }
  }
}
