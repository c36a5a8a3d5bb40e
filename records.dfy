/**
 * The records both ledgers share: entries, day documents, the payload a
 * form hands to a save handler, and the sums the components take over them.
 */
module Records {
  import opened Optional
  import opened Folds

  /** The two independent books ("personnel" and "operational"), the `type` of a document. */
  datatype Ledger = Personnel | Operational

  /** A named amount; entries written by the modals carry no `id`. */
  datatype Entry = Entry(id: Option<string>, name: string, amount: real)

  /** A generated document identifier. */
  type DayId = nat

  /**
   * A document of the `days` collection. A list the document does not
   * carry is None; a missing `personnel` is 0 (only its truth value and
   * its use as an addend matter).
   */
  datatype Day = Day(
    id: DayId,
    ledger: Ledger,
    dateString: string,
    entries: Option<seq<Entry>>,
    withdrawals: Option<seq<Entry>>,
    personnel: real,
    personnelEntries: Option<seq<Entry>>)

  /**
   * The `dayData` object a handler writes: the fields it always carries,
   * and the optional ones (present only when the writer sets them).
   */
  datatype DayData = DayData(
    dateString: string,
    entries: seq<Entry>,
    personnel: real,
    withdrawals: Option<seq<Entry>>,
    personnelEntries: Option<seq<Entry>>)

  /** `list.reduce((sum, e) => sum + e.amount, 0)`, accumulated from the left. */
  function Sum(es: seq<Entry>): real {
    if es == [] then 0.0 else Sum(es[..|es| - 1]) + es[|es| - 1].amount
  }

  /** `list || []`. */
  function ListOrEmpty(o: Option<seq<Entry>>): seq<Entry> {
    if o.Some? then o.value else []
  }

  /** `list?.reduce(...) || 0`: an absent list sums to 0. */
  function SumOrZero(o: Option<seq<Entry>>): real {
    Sum(ListOrEmpty(o))
  }

  lemma {:induction false} SumConcat(a: seq<Entry>, b: seq<Entry>)
    ensures Sum(a + b) == Sum(a) + Sum(b)
    decreases |b|
  {
    if b == [] {
      assert a + b == a;
    } else {
      assert (a + b)[..|a + b| - 1] == a + b[..|b| - 1];
      SumConcat(a, b[..|b| - 1]);
    }
  }

  lemma SumSingle(e: Entry)
    ensures Sum([e]) == e.amount
  {
    assert [e][..0] == [];
  }

  /** Appending an entry adds its amount to the total. */
  lemma SumAppend(es: seq<Entry>, e: Entry)
    ensures Sum(es + [e]) == Sum(es) + e.amount
  {
    assert (es + [e])[..|es|] == es;
  }

  /** Removing the element at i takes its amount off the sum. */
  lemma SumRemoveAt(es: seq<Entry>, i: nat)
    requires i < |es|
    ensures Sum(es) == Sum(es[..i] + es[i + 1..]) + es[i].amount
  {
    var left, mid, right := es[..i], [es[i]], es[i + 1..];
    assert es == left + (mid + right);
    SumConcat(left, mid + right);
    SumConcat(mid, right);
    SumConcat(left, right);
    SumSingle(es[i]);
  }

  /** `where("type", "==", t)`: the documents of one ledger, in store order. */
  function Of(docs: seq<Day>, t: Ledger): (r: seq<Day>)
    ensures forall d :: d in r <==> d in docs && d.ledger == t
    ensures |r| <= |docs|
  {
    if docs == [] then []
    else Of(docs[..|docs| - 1], t) + (if docs[|docs| - 1].ledger == t then [docs[|docs| - 1]] else [])
  }

  lemma {:induction false} OfConcat(a: seq<Day>, b: seq<Day>, t: Ledger)
    ensures Of(a + b, t) == Of(a, t) + Of(b, t)
    decreases |b|
  {
    if b == [] {
      assert a + b == a;
    } else {
      var init, last := b[..|b| - 1], b[|b| - 1];
      assert a + b == (a + init) + [last] && b == init + [last];
      OfAppend(a + init, last, t);
      OfAppend(init, last, t);
      OfConcat(a, init, t);
      SeqAssoc(Of(a, t), Of(init, t), if last.ledger == t then [last] else []);
    }
  }

  lemma SeqAssoc<T>(x: seq<T>, y: seq<T>, z: seq<T>)
    ensures (x + y) + z == x + (y + z)
  {
  }

  lemma OfAppend(docs: seq<Day>, d: Day, t: Ledger)
    ensures Of(docs + [d], t) == Of(docs, t) + (if d.ledger == t then [d] else [])
  {
    assert (docs + [d])[..|docs|] == docs;
  }

  lemma OfSingle(d: Day, t: Ledger)
    ensures Of([d], t) == if d.ledger == t then [d] else []
  {
    assert [d][..0] == [];
  }

  /** Of a list split around index i. */
  lemma OfSplit(docs: seq<Day>, i: nat, t: Ledger)
    requires i < |docs|
    ensures Of(docs, t) == Of(docs[..i], t) + Of([docs[i]], t) + Of(docs[i + 1..], t)
  {
    assert docs == docs[..i] + [docs[i]] + docs[i + 1..];
    OfConcat(docs[..i] + [docs[i]], docs[i + 1..], t);
    OfConcat(docs[..i], [docs[i]], t);
  }

  /** A ledger's documents keep the collection's unique ids. */
  lemma {:induction false} OfUniqueIds(docs: seq<Day>, t: Ledger)
    requires UniqueIds(docs)
    ensures UniqueIds(Of(docs, t))
    decreases |docs|
  {
    if docs != [] {
      var init, last := docs[..|docs| - 1], docs[|docs| - 1];
      assert UniqueIds(init);
      OfUniqueIds(init, t);
      forall d | d in Of(init, t)
        ensures d.id != last.id
      {
        var j :| 0 <= j < |init| && init[j] == d;
        assert docs[j] == d;
      }
    }
  }

  /** The document a create writes: the payload's fields plus the ledger type. */
  function NewDay(id: DayId, t: Ledger, data: DayData): (d: Day)
    ensures d.id == id && d.ledger == t && d.dateString == data.dateString
    ensures d.entries == Some(data.entries) && d.personnel == data.personnel
  {
    Day(id, t, data.dateString, Some(data.entries), data.withdrawals, data.personnel, data.personnelEntries)
  }

  /**
   * A merging update (`updateDoc`): fields the payload carries replace the
   * document's, the others (and the ledger type) are kept.
   */
  function Merge(d: Day, data: DayData): (r: Day)
    ensures r.id == d.id && r.ledger == d.ledger
    ensures r.dateString == data.dateString && r.entries == Some(data.entries) && r.personnel == data.personnel
    ensures data.withdrawals.None? ==> r.withdrawals == d.withdrawals
    ensures data.withdrawals.Some? ==> r.withdrawals == data.withdrawals
    ensures data.personnelEntries.None? ==> r.personnelEntries == d.personnelEntries
    ensures data.personnelEntries.Some? ==> r.personnelEntries == data.personnelEntries
  {
    d.(dateString := data.dateString,
       entries := Some(data.entries),
       personnel := data.personnel,
       withdrawals := if data.withdrawals.Some? then data.withdrawals else d.withdrawals,
       personnelEntries := if data.personnelEntries.Some? then data.personnelEntries else d.personnelEntries)
  }

  /** The payload `{...day}`: every field of a document, as read. */
  function Spread(d: Day): DayData {
    DayData(d.dateString, ListOrEmpty(d.entries), d.personnel, d.withdrawals, d.personnelEntries)
  }

  /** Writing back a document's own fields with new entries changes only the entries. */
  lemma MergeSpread(d: Day, es: seq<Entry>)
    ensures Merge(d, Spread(d).(entries := es)) == d.(entries := Some(es))
  {
  }

  /** The first index whose document has the given id. */
  function IndexOf(docs: seq<Day>, id: DayId): (r: Option<nat>)
    ensures r.Some? ==> r.value < |docs| && docs[r.value].id == id
    ensures r.Some? ==> forall j :: 0 <= j < r.value ==> docs[j].id != id
    ensures r.None? ==> forall j :: 0 <= j < |docs| ==> docs[j].id != id
  {
    if docs == [] then None
    else if docs[0].id == id then Some(0)
    else match IndexOf(docs[1..], id)
      case None => None
      case Some(k) => Some(k + 1)
  }

  /** No two documents share an id. */
  ghost predicate UniqueIds(docs: seq<Day>) {
    forall i, j :: 0 <= i < j < |docs| ==> docs[i].id != docs[j].id
  }

  /** Every id is below the next one the store will hand out. */
  ghost predicate IdsBelow(docs: seq<Day>, next: nat) {
    forall i :: 0 <= i < |docs| ==> docs[i].id < next
  }

  /** A day's own totals, each `list?.reduce(...) || 0` or `field || 0`. */
  function DayEntries(d: Day): real { SumOrZero(d.entries) }
  function DayWithdrawals(d: Day): real { SumOrZero(d.withdrawals) }
  function DayPersonnelEntries(d: Day): real { SumOrZero(d.personnelEntries) }
  function DayPersonnel(d: Day): real { d.personnel }

  /** Σ of entry amounts over the days. */
  function EntriesTotal(days: seq<Day>): real { SumOver(days, DayEntries) }

  /** The days whose date string is date, in order (`days.filter(d => d.dateString === date)`). */
  function OnDate(days: seq<Day>, date: string): (r: seq<Day>)
    ensures forall d :: d in r <==> d in days && d.dateString == date
    ensures |r| <= |days|
  {
    if days == [] then []
    else OnDate(days[..|days| - 1], date) + (if days[|days| - 1].dateString == date then [days[|days| - 1]] else [])
  }

  /** Every day's entries, concatenated in order; a day without a list adds nothing. */
  function AllEntries(days: seq<Day>): (r: seq<Entry>)
    ensures forall e :: e in r <==> exists d :: d in days && e in ListOrEmpty(d.entries)
  {
    if days == [] then []
    else
      var r := AllEntries(days[..|days| - 1]) + ListOrEmpty(days[|days| - 1].entries);
      assert forall d :: d in days <==> d in days[..|days| - 1] || d == days[|days| - 1] by {
        assert days == days[..|days| - 1] + [days[|days| - 1]];
      }
      r
  }

  /** One more day adds its entries at the end. */
  lemma AllEntriesStep(days: seq<Day>, i: nat)
    requires i < |days|
    ensures AllEntries(days[..i + 1]) == AllEntries(days[..i]) + ListOrEmpty(days[i].entries)
  {
    assert days[..i + 1][..i] == days[..i];
  }

  /** The flattened entries sum to the per-day entry totals. */
  lemma {:induction false} AllEntriesSum(days: seq<Day>)
    ensures Sum(AllEntries(days)) == EntriesTotal(days)
    decreases |days|
  {
    if days != [] {
      AllEntriesSum(days[..|days| - 1]);
      SumConcat(AllEntries(days[..|days| - 1]), ListOrEmpty(days[|days| - 1].entries));
    }
  }
}
