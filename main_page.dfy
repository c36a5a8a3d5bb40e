/**
 * The main page: the running balance of the active ledger, the per-date
 * view of the personnel ledger, and the handlers that save a day's data
 * and delete an entry against the `days` collection.
 */
module MainPage {
  import opened Optional
  import opened Folds
  import opened Records
  import opened DayStore

  /** What one ledger's hooks give the page: the initial balance and the loaded days. */
  datatype LedgerView = LedgerView(initialBalance: real, days: seq<Day>)

  /** Both ledgers' hooks, created side by side whatever the tab. */
  datatype Hooks = Hooks(personnel: LedgerView, operational: LedgerView)

  /** `activeBalance` / `activeDays`: the hooks of the tab's own ledger. */
  function Active(tab: Ledger, h: Hooks): LedgerView {
    if tab == Personnel then h.personnel else h.operational
  }

  // ---------------------------------------------------------------- balance

  /**
   * One day's effect on the balance: on the operational tab its entries
   * less its withdrawals, on the personnel tab its entries less its
   * personnel cost.
   */
  function DayDelta(tab: Ledger, d: Day): (r: real)
    ensures tab == Operational ==> r + DayWithdrawals(d) == DayEntries(d)
    ensures tab == Personnel ==> r + d.personnel == DayEntries(d)
    ensures d.entries.None? && d.withdrawals.None? && d.personnel == 0.0 ==> r == 0.0
  {
    if tab == Operational then DayEntries(d) - DayWithdrawals(d)
    else DayEntries(d) - DayPersonnel(d)
  }

  function Delta(tab: Ledger): Day -> real {
    d => DayDelta(tab, d)
  }

  /** The balance the page shows: the initial balance plus every day's effect. */
  function BalanceOf(tab: Ledger, view: LedgerView): real {
    view.initialBalance + SumOver(view.days, Delta(tab))
  }

  /** `currentBalance`: one pass over the active ledger's days. */
  method CurrentBalance(tab: Ledger, h: Hooks) returns (balance: real)
    ensures balance == BalanceOf(tab, Active(tab, h))
    ensures tab == Personnel ==> balance == h.personnel.initialBalance + EntriesTotal(h.personnel.days) - SumOver(h.personnel.days, DayPersonnel)
    ensures tab == Operational ==> balance == h.operational.initialBalance + EntriesTotal(h.operational.days) - SumOver(h.operational.days, DayWithdrawals)
  {
    var view := if tab == Personnel then h.personnel else h.operational;
    balance := view.initialBalance;
    var i := 0;
    while i < |view.days|
      invariant 0 <= i <= |view.days|
      invariant balance == view.initialBalance + SumOver(view.days[..i], Delta(tab))
    {
      var day := view.days[i];
      var dayTotal := SumOrZero(day.entries);
      if tab == Operational {
        var withdrawalTotal := SumOrZero(day.withdrawals);
        balance := balance + (dayTotal - withdrawalTotal);
      } else {
        balance := balance - day.personnel;
        balance := balance + dayTotal;
      }
      SumOverStep(view.days, i, Delta(tab));
      i := i + 1;
    }
    assert view.days[..i] == view.days;
    PersonnelBalance(view.days);
    OperationalBalance(view.days);
  }

  /** Personnel tab: Σ entries − Σ personnel, a missing list or cost counting as 0. */
  lemma PersonnelBalance(days: seq<Day>)
    ensures SumOver(days, Delta(Personnel)) == EntriesTotal(days) - SumOver(days, DayPersonnel)
  {
    SumOverDifference(days, DayEntries, DayPersonnel, Delta(Personnel));
  }

  /** Operational tab: Σ entries − Σ withdrawals; the personnel cost plays no part. */
  lemma OperationalBalance(days: seq<Day>)
    ensures SumOver(days, Delta(Operational)) == EntriesTotal(days) - SumOver(days, DayWithdrawals)
  {
    SumOverDifference(days, DayEntries, DayWithdrawals, Delta(Operational));
  }

  /** The balance depends on which days are loaded, not on the order they arrive in. */
  lemma BalanceOrderFree(tab: Ledger, v: LedgerView, w: LedgerView)
    requires v.initialBalance == w.initialBalance && multiset(v.days) == multiset(w.days)
    ensures BalanceOf(tab, v) == BalanceOf(tab, w)
  {
    SumOverPermutation(v.days, w.days, Delta(tab));
  }

  /** The other ledger's hooks are never read: changing them leaves the balance as it is. */
  lemma BalanceReadsActiveOnly(tab: Ledger, h: Hooks, other: LedgerView)
    ensures tab == Personnel ==> BalanceOf(tab, Active(tab, h.(operational := other))) == BalanceOf(tab, Active(tab, h))
    ensures tab == Operational ==> BalanceOf(tab, Active(tab, h.(personnel := other))) == BalanceOf(tab, Active(tab, h))
  {
  }

  /**
   * Initial personnel balance 1000; 2024-03-01 with 500 from Ivanenko and a
   * personnel cost of 200; 2024-03-02 with 300 from Petrenko: the balance is 1600.
   */
  lemma PersonnelScenario(a: Day, b: Day)
    requires a.entries == Some([Entry(None, "Ivanenko", 500.0)]) && a.personnel == 200.0
    requires b.entries == Some([Entry(None, "Petrenko", 300.0)]) && b.personnel == 0.0
    ensures BalanceOf(Personnel, LedgerView(1000.0, [a, b])) == 1600.0
  {
    SumSingle(Entry(None, "Ivanenko", 500.0));
    SumSingle(Entry(None, "Petrenko", 300.0));
    assert [a, b] == [a] + [b];
    SumOverConcat([a], [b], Delta(Personnel));
    SumOverSingle(a, Delta(Personnel));
    SumOverSingle(b, Delta(Personnel));
  }

  /** Operational ledger from 0, one day with 1000 in and 400 withdrawn: the balance is 600. */
  lemma OperationalScenario(d: Day)
    requires d.entries == Some([Entry(None, "x", 1000.0)]) && d.withdrawals == Some([Entry(None, "y", 400.0)])
    ensures BalanceOf(Operational, LedgerView(0.0, [d])) == 600.0
  {
    SumSingle(Entry(None, "x", 1000.0));
    SumSingle(Entry(None, "y", 400.0));
    SumOverSingle(d, Delta(Operational));
  }

  // ------------------------------------------------------------ date view

  /** What the entries table shows: the entries and the personnel cost for the chosen date. */
  datatype DateView = DateView(entries: seq<Entry>, personnelAmount: real)

  /**
   * `filteredData`: always read from the personnel ledger; empty on the
   * operational tab.
   */
  function FilteredData(tab: Ledger, personnelDays: seq<Day>, selectedDate: string): (r: DateView)
    ensures tab == Operational ==> r == DateView([], 0.0)
    ensures tab == Personnel ==> forall e :: e in r.entries <==>
      exists d :: d in personnelDays && d.dateString == selectedDate && e in ListOrEmpty(d.entries)
    ensures tab == Personnel ==> r.entries == AllEntries(OnDate(personnelDays, selectedDate))
    ensures tab == Personnel ==> Sum(r.entries) == EntriesTotal(OnDate(personnelDays, selectedDate))
    ensures tab == Personnel ==> r.personnelAmount == SumOver(OnDate(personnelDays, selectedDate), DayPersonnel)
  {
    if tab != Personnel then DateView([], 0.0)
    else
      var daysForDate := OnDate(personnelDays, selectedDate);
      AllEntriesSum(daysForDate);
      DateView(AllEntries(daysForDate), SumOver(daysForDate, DayPersonnel))
  }

  /** The view of two batches of days is the first batch's view followed by the second's. */
  lemma FilteredDataConcat(a: seq<Day>, b: seq<Day>, date: string)
    ensures FilteredData(Personnel, a + b, date).entries == FilteredData(Personnel, a, date).entries + FilteredData(Personnel, b, date).entries
    ensures FilteredData(Personnel, a + b, date).personnelAmount == FilteredData(Personnel, a, date).personnelAmount + FilteredData(Personnel, b, date).personnelAmount
  {
    OnDateConcat(a, b, date);
    AllEntriesConcat(OnDate(a, date), OnDate(b, date));
    SumOverConcat(OnDate(a, date), OnDate(b, date), DayPersonnel);
  }

  lemma OnDateAppend(days: seq<Day>, d: Day, date: string)
    ensures OnDate(days + [d], date) == OnDate(days, date) + (if d.dateString == date then [d] else [])
  {
    assert (days + [d])[..|days|] == days;
  }

  lemma AllEntriesAppend(days: seq<Day>, d: Day)
    ensures AllEntries(days + [d]) == AllEntries(days) + ListOrEmpty(d.entries)
  {
    assert (days + [d])[..|days|] == days;
  }

  lemma {:induction false} OnDateConcat(a: seq<Day>, b: seq<Day>, date: string)
    ensures OnDate(a + b, date) == OnDate(a, date) + OnDate(b, date)
    decreases |b|
  {
    if b == [] {
      assert a + b == a;
    } else {
      var init, last := b[..|b| - 1], b[|b| - 1];
      assert a + b == (a + init) + [last] && b == init + [last];
      OnDateAppend(a + init, last, date);
      OnDateAppend(init, last, date);
      OnDateConcat(a, init, date);
      SeqAssoc(OnDate(a, date), OnDate(init, date), if last.dateString == date then [last] else []);
    }
  }

  lemma {:induction false} AllEntriesConcat(a: seq<Day>, b: seq<Day>)
    ensures AllEntries(a + b) == AllEntries(a) + AllEntries(b)
    decreases |b|
  {
    if b == [] {
      assert a + b == a;
    } else {
      var init, last := b[..|b| - 1], b[|b| - 1];
      assert a + b == (a + init) + [last] && b == init + [last];
      AllEntriesAppend(a + init, last);
      AllEntriesAppend(init, last);
      AllEntriesConcat(a, init);
      SeqAssoc(AllEntries(a), AllEntries(init), ListOrEmpty(last.entries));
    }
  }

  /** f on the days dated date, 0 on every other day. */
  function OnDateOnly(date: string, f: Day -> real): Day -> real {
    (d: Day) => if d.dateString == date then f(d) else 0.0
  }

  /** A sum over the days on one date is a sum over all the days that counts only that date. */
  lemma {:induction false} SumOnDate(days: seq<Day>, date: string, f: Day -> real)
    ensures SumOver(OnDate(days, date), f) == SumOver(days, OnDateOnly(date, f))
    decreases |days|
  {
    if days != [] {
      var init, last := days[..|days| - 1], days[|days| - 1];
      SumOnDate(init, date, f);
      var tail := if last.dateString == date then [last] else [];
      SumOverConcat(OnDate(init, date), tail, f);
      if tail != [] {
        SumOverSingle(last, f);
      }
    }
  }

  /**
   * The table's total and the personnel cost it shows, written as sums over
   * every personnel day with the other dates counting 0.
   */
  lemma FilteredDataOverAllDays(personnelDays: seq<Day>, date: string)
    ensures Sum(FilteredData(Personnel, personnelDays, date).entries) == SumOver(personnelDays, OnDateOnly(date, DayEntries))
    ensures FilteredData(Personnel, personnelDays, date).personnelAmount == SumOver(personnelDays, OnDateOnly(date, DayPersonnel))
  {
    SumOnDate(personnelDays, date, DayEntries);
    SumOnDate(personnelDays, date, DayPersonnel);
  }

  // ---------------------------------------------------------------- saving

  /** `days.find(d => d.dateString === date)`: the first day on that date. */
  function FirstOnDate(days: seq<Day>, date: string): (r: Option<nat>)
    ensures r.Some? ==> r.value < |days| && days[r.value].dateString == date
    ensures r.Some? ==> forall j :: 0 <= j < r.value ==> days[j].dateString != date
    ensures r.None? ==> forall j :: 0 <= j < |days| ==> days[j].dateString != date
  {
    if days == [] then None
    else if days[0].dateString == date then Some(0)
    else match FirstOnDate(days[1..], date)
      case None => None
      case Some(k) => Some(k + 1)
  }

  /** The payload written over an existing day: the new data, its entries after the day's own. */
  function Appended(existing: Day, data: DayData): DayData {
    data.(entries := ListOrEmpty(existing.entries) + data.entries)
  }

  /**
   * The ledger's days after a new day's data is saved: merged into the
   * first day on that date, or added as one new day.
   */
  function SaveInView(days: seq<Day>, nextId: DayId, t: Ledger, data: DayData): seq<Day> {
    match FirstOnDate(days, data.dateString)
    case Some(k) => days[k := Merge(days[k], Appended(days[k], data))]
    case None => days + [NewDay(nextId, t, data)]
  }

  /** The whole collection after a successful save of a new day's data on ledger t. */
  ghost function SaveNew(docs: seq<Day>, nextId: DayId, t: Ledger, data: DayData): seq<Day>
    requires UniqueIds(docs)
  {
    var days := Of(docs, t);
    match FirstOnDate(days, data.dateString)
    case Some(k) =>
      IndexOfMember(docs, days[k]);
      var i := IndexOf(docs, days[k].id).value;
      docs[i := Merge(docs[i], Appended(docs[i], data))]
    case None => docs + [NewDay(nextId, t, data)]
  }

  datatype SaveOutcome = Saved | UpdateFailed | SaveFailed

  /**
   * `handleSaveDay`: in edit mode the edited day is updated with the new
   * data; otherwise the data is merged into the first day of the ledger on
   * that date, or a new day is created.
   */
  method SaveDay(store: DayCollection, tab: Ledger, editing: Option<DayId>, data: DayData, writeOk: bool)
    returns (outcome: SaveOutcome)
    requires store.Valid()
    modifies store
    ensures store.Valid()
    ensures editing.Some? ==> (outcome == Saved <==> writeOk && IndexOf(old(store.docs), editing.value).Some?)
    ensures editing.Some? && outcome == Saved ==>
      var i := IndexOf(old(store.docs), editing.value).value;
      store.docs == old(store.docs)[i := Merge(old(store.docs)[i], data)]
    ensures editing.Some? && outcome != Saved ==> outcome == UpdateFailed && store.docs == old(store.docs)
    ensures editing.None? ==> (outcome == Saved <==> writeOk)
    ensures editing.None? && writeOk ==> store.docs == SaveNew(old(store.docs), old(store.nextId), tab, data)
    ensures editing.None? && !writeOk ==> outcome == SaveFailed && store.docs == old(store.docs)
  {
    if editing.Some? {
      var done := store.Update(editing.value, data, None, writeOk);
      return if done then Saved else UpdateFailed;
    }
    var days := Of(store.docs, tab);
    var found := FirstOnDate(days, data.dateString);
    if found.Some? {
      var existing := days[found.value];
      IndexOfMember(store.docs, existing);
      var done := store.Update(existing.id, Appended(existing, data), None, writeOk);
      outcome := if done then Saved else SaveFailed;
    } else {
      var id := store.Create(tab, data, writeOk);
      outcome := if id.Some? then Saved else SaveFailed;
    }
  }

  /** Of the list, one element in the ledger replaced by another in the ledger. */
  lemma OfUpdate(docs: seq<Day>, i: nat, x: Day, t: Ledger) returns (k: nat)
    requires i < |docs| && docs[i].ledger == t && x.ledger == t
    ensures k < |Of(docs, t)| && Of(docs, t)[k] == docs[i]
    ensures Of(docs[i := x], t) == Of(docs, t)[k := x]
  {
    var docs' := docs[i := x];
    assert docs'[..i] == docs[..i] && docs'[i + 1..] == docs[i + 1..];
    OfSplit(docs, i, t);
    OfSplit(docs', i, t);
    OfSingle(docs[i], t);
    OfSingle(x, t);
    var pre, post := Of(docs[..i], t), Of(docs[i + 1..], t);
    assert Of(docs, t) == pre + [docs[i]] + post;
    assert Of(docs', t) == pre + [x] + post;
    k := |pre|;
    assert (pre + [docs[i]] + post)[k] == docs[i];
    UpdateMiddle(pre, docs[i], post, x);
  }

  /** Of the list, one element outside the ledger replaced by another outside it. */
  lemma OfUpdateOther(docs: seq<Day>, i: nat, x: Day, u: Ledger)
    requires i < |docs| && docs[i].ledger != u && x.ledger != u
    ensures Of(docs[i := x], u) == Of(docs, u)
  {
    var docs' := docs[i := x];
    assert docs'[..i] == docs[..i] && docs'[i + 1..] == docs[i + 1..];
    OfSplit(docs, i, u);
    OfSplit(docs', i, u);
    OfSingle(docs[i], u);
    OfSingle(x, u);
  }

  /** Saving writes to the active ledger exactly the change SaveInView describes. */
  lemma SaveNewView(docs: seq<Day>, nextId: DayId, t: Ledger, data: DayData)
    requires UniqueIds(docs)
    ensures Of(SaveNew(docs, nextId, t, data), t) == SaveInView(Of(docs, t), nextId, t, data)
  {
    var days := Of(docs, t);
    match FirstOnDate(days, data.dateString)
    case Some(k) =>
      IndexOfMember(docs, days[k]);
      var i := IndexOf(docs, days[k].id).value;
      var k' := OfUpdate(docs, i, Merge(docs[i], Appended(docs[i], data)), t);
      OfUniqueIds(docs, t);
      assert k' == k;
    case None =>
      OfConcat(docs, [NewDay(nextId, t, data)], t);
      OfSingle(NewDay(nextId, t, data), t);
  }

  /** Saving on one ledger leaves the other ledger's days exactly as they were. */
  lemma SaveNewOtherLedger(docs: seq<Day>, nextId: DayId, t: Ledger, data: DayData, u: Ledger)
    requires UniqueIds(docs) && u != t
    ensures Of(SaveNew(docs, nextId, t, data), u) == Of(docs, u)
  {
    var days := Of(docs, t);
    match FirstOnDate(days, data.dateString)
    case Some(k) =>
      IndexOfMember(docs, days[k]);
      var i := IndexOf(docs, days[k].id).value;
      OfUpdateOther(docs, i, Merge(docs[i], Appended(docs[i], data)), u);
    case None =>
      OfConcat(docs, [NewDay(nextId, t, data)], u);
      OfSingle(NewDay(nextId, t, data), u);
  }

  /** No two days of the list share a date string. */
  ghost predicate UniqueDates(days: seq<Day>) {
    forall i, j :: 0 <= i < j < |days| ==> days[i].dateString != days[j].dateString
  }

  /** A save never creates a second day for a date the ledger already has. */
  lemma SaveInViewUniqueDates(days: seq<Day>, nextId: DayId, t: Ledger, data: DayData)
    requires UniqueDates(days)
    ensures UniqueDates(SaveInView(days, nextId, t, data))
    ensures |SaveInView(days, nextId, t, data)| == |days| + (if FirstOnDate(days, data.dateString).Some? then 0 else 1)
  {
  }

  /** After a save, the day's date carries the new entries' amounts on top of what it had. */
  lemma SaveInViewDateTotal(days: seq<Day>, nextId: DayId, t: Ledger, data: DayData)
    ensures EntriesTotal(OnDate(SaveInView(days, nextId, t, data), data.dateString))
         == EntriesTotal(OnDate(days, data.dateString)) + Sum(data.entries)
  {
    var date := data.dateString;
    SumOnDate(days, date, DayEntries);
    SumOnDate(SaveInView(days, nextId, t, data), date, DayEntries);
    match FirstOnDate(days, date)
    case Some(k) =>
      SumOverUpdate(days, k, Merge(days[k], Appended(days[k], data)), OnDateOnly(date, DayEntries));
      SumConcat(ListOrEmpty(days[k].entries), data.entries);
    case None =>
      SumOverConcat(days, [NewDay(nextId, t, data)], OnDateOnly(date, DayEntries));
      SumOverSingle(NewDay(nextId, t, data), OnDateOnly(date, DayEntries));
  }

  // -------------------------------------------------------------- deleting

  /** `entry.id || entry`: an entry without a (non-empty) id is passed as itself, which no id equals. */
  function DeleteTarget(e: Entry): (t: Option<string>)
    ensures t.Some? <==> e.id.Some? && e.id.value != ""
  {
    if e.id.Some? && e.id.value != "" then e.id else None
  }

  /** `e.id === target`. */
  predicate Matches(e: Entry, target: Option<string>) {
    target.Some? && e.id == target
  }

  /** `entries.find(e => e.id === target)` finds something. */
  predicate HasMatch(es: seq<Entry>, target: Option<string>) {
    exists e :: e in es && Matches(e, target)
  }

  /** `entries.filter(e => e.id !== target)`, in order. */
  function Unmatched(es: seq<Entry>, target: Option<string>): (r: seq<Entry>)
    ensures forall e :: e in r <==> e in es && !Matches(e, target)
    ensures |r| <= |es|
  {
    if es == [] then []
    else Unmatched(es[..|es| - 1], target) + (if Matches(es[|es| - 1], target) then [] else [es[|es| - 1]])
  }

  /** The entries the filter takes out, in order. */
  function Matched(es: seq<Entry>, target: Option<string>): (r: seq<Entry>)
    ensures forall e :: e in r <==> e in es && Matches(e, target)
  {
    if es == [] then []
    else Matched(es[..|es| - 1], target) + (if Matches(es[|es| - 1], target) then [es[|es| - 1]] else [])
  }

  /** What the filter keeps and what it takes out add up to the whole list. */
  lemma {:induction false} UnmatchedSum(es: seq<Entry>, target: Option<string>)
    ensures Sum(es) == Sum(Unmatched(es, target)) + Sum(Matched(es, target))
    decreases |es|
  {
    if es != [] {
      var init, last := es[..|es| - 1], es[|es| - 1];
      UnmatchedSum(init, target);
      SumSingle(last);
      assert Sum(es) == Sum(init) + last.amount;
      if Matches(last, target) {
        assert Unmatched(es, target) == Unmatched(init, target);
        assert Matched(es, target) == Matched(init, target) + [last];
        SumConcat(Matched(init, target), [last]);
      } else {
        assert Unmatched(es, target) == Unmatched(init, target) + [last];
        assert Matched(es, target) == Matched(init, target);
        SumConcat(Unmatched(init, target), [last]);
      }
    }
  }

  /** What the delete loop decides for the days of the selected date. */
  datatype DeletePlan =
    | NoMatch                              // no day holds the entry
    | Crash                                // a day without an entry list: `find` throws
    | RemoveDay(id: DayId)                 // nothing left and no personnel cost: delete the day
    | Shrink(id: DayId, rest: seq<Entry>)  // write the day back with the remaining entries

  /** What happens to a day holding the entry: removed when nothing is left and its personnel cost is 0. */
  function Decide(d: Day, target: Option<string>): (p: DeletePlan)
    requires d.entries.Some?
    ensures p.RemoveDay? || p.Shrink?
    ensures p.id == d.id
    ensures p.RemoveDay? <==> Unmatched(d.entries.value, target) == [] && d.personnel == 0.0
    ensures p.Shrink? ==> p.rest == Unmatched(d.entries.value, target)
  {
    var rest := Unmatched(d.entries.value, target);
    if rest == [] && d.personnel == 0.0 then RemoveDay(d.id) else Shrink(d.id, rest)
  }

  /** The first day (in order) holding the entry decides; a day without a list stops the scan. */
  function PlanDelete(days: seq<Day>, target: Option<string>): (p: DeletePlan)
    ensures days == [] ==> p.NoMatch?
    ensures p.RemoveDay? || p.Shrink? ==> exists i :: 0 <= i < |days| && days[i].id == p.id
  {
    if days == [] then NoMatch
    else if days[0].entries.None? then Crash
    else if HasMatch(days[0].entries.value, target) then Decide(days[0], target)
    else PlanDelete(days[1..], target)
  }

  /** The scan from position i looks at day i first. */
  lemma PlanDeleteStep(days: seq<Day>, i: nat, target: Option<string>)
    requires i < |days|
    ensures PlanDelete(days[i..], target) ==
      if days[i].entries.None? then Crash
      else if HasMatch(days[i].entries.value, target) then Decide(days[i], target)
      else PlanDelete(days[i + 1..], target)
  {
    assert days[i..][0] == days[i] && days[i..][1..] == days[i + 1..];
  }

  /** No day is touched exactly when every day has a list and none holds the entry. */
  lemma {:induction false} PlanDeleteNoMatch(days: seq<Day>, target: Option<string>)
    ensures PlanDelete(days, target) == NoMatch <==>
      forall j :: 0 <= j < |days| ==> days[j].entries.Some? && !HasMatch(days[j].entries.value, target)
    decreases |days|
  {
    if days != [] && days[0].entries.Some? && !HasMatch(days[0].entries.value, target) {
      PlanDeleteNoMatch(days[1..], target);
      assert forall j :: 1 <= j < |days| ==> days[j] == days[1..][j - 1];
    }
  }

  /**
   * A removal or a shrink acts on the first day holding the entry, every
   * earlier day having a list without it; the day is removed exactly when
   * nothing is left and its personnel cost is 0.
   */
  lemma {:induction false} PlanDeleteFinds(days: seq<Day>, target: Option<string>) returns (k: nat)
    requires PlanDelete(days, target).RemoveDay? || PlanDelete(days, target).Shrink?
    ensures k < |days| && days[k].id == PlanDelete(days, target).id
    ensures days[k].entries.Some? && HasMatch(days[k].entries.value, target)
    ensures forall j :: 0 <= j < k ==> days[j].entries.Some? && !HasMatch(days[j].entries.value, target)
    ensures PlanDelete(days, target).RemoveDay? <==>
      Unmatched(days[k].entries.value, target) == [] && days[k].personnel == 0.0
    ensures PlanDelete(days, target).Shrink? ==> PlanDelete(days, target).rest == Unmatched(days[k].entries.value, target)
    decreases |days|
  {
    if days[0].entries.Some? && HasMatch(days[0].entries.value, target) {
      k := 0;
    } else {
      var k' := PlanDeleteFinds(days[1..], target);
      k := k' + 1;
      assert forall j :: 1 <= j < |days| ==> days[j] == days[1..][j - 1];
    }
  }

  datatype DeleteOutcome = Cancelled | Deleted | DeleteFailed

  /**
   * The store and the reported outcome once a plan has been carried out.
   * Deleting the whole day goes through `deleteDay`, which asks again and
   * reports its own failure, so the handler reports success either way; a
   * failed update is reported as a failure.
   */
  ghost predicate DeleteEffect(plan: DeletePlan, before: seq<Day>, after: seq<Day>, outcome: DeleteOutcome,
                               confirmedAgain: bool, writeOk: bool)
  {
    match plan
    case NoMatch => outcome == Deleted && after == before
    case Crash => outcome == DeleteFailed && after == before
    case RemoveDay(id) =>
      outcome == Deleted && IndexOf(before, id).Some? &&
      after == (if confirmedAgain && writeOk then RemoveAt(before, IndexOf(before, id).value) else before)
    case Shrink(id, rest) =>
      IndexOf(before, id).Some? &&
      if writeOk then
        var i := IndexOf(before, id).value;
        outcome == Deleted && after == before[i := before[i].(entries := Some(rest))]
      else outcome == DeleteFailed && after == before
  }

  /** Carries out the decision for a day of the collection that holds the entry. */
  method ApplyDelete(store: DayCollection, day: Day, target: Option<string>, confirmedAgain: bool, writeOk: bool)
    returns (outcome: DeleteOutcome)
    requires store.Valid() && day in store.docs && day.entries.Some?
    modifies store
    ensures store.Valid()
    ensures DeleteEffect(Decide(day, target), old(store.docs), store.docs, outcome, confirmedAgain, writeOk)
  {
    var rest := Unmatched(day.entries.value, target);
    IndexOfMember(store.docs, day);
    if rest == [] && day.personnel == 0.0 {
      if confirmedAgain {
        var _ := store.Delete(day.id, writeOk);
      }
      return Deleted;
    }
    MergeSpread(day, rest);
    var done := store.Update(day.id, Spread(day).(entries := rest), None, writeOk);
    return if done then Deleted else DeleteFailed;
  }

  /**
   * `handleDeleteEntry`: after the confirmation, scans the personnel days
   * of the selected date and acts on the first one holding the entry.
   */
  method DeleteEntry(store: DayCollection, selectedDate: string, target: Option<string>,
                     confirmed: bool, confirmedAgain: bool, writeOk: bool)
    returns (outcome: DeleteOutcome)
    requires store.Valid()
    modifies store
    ensures store.Valid()
    ensures !confirmed ==> outcome == Cancelled && store.docs == old(store.docs)
    ensures confirmed ==> DeleteEffect(PlanDelete(OnDate(Of(old(store.docs), Personnel), selectedDate), target),
                                       old(store.docs), store.docs, outcome, confirmedAgain, writeOk)
  {
    if !confirmed {
      return Cancelled;
    }
    var daysForDate := OnDate(Of(store.docs, Personnel), selectedDate);
    assert daysForDate[0..] == daysForDate;
    var i := 0;
    while i < |daysForDate|
      invariant 0 <= i <= |daysForDate|
      invariant store.docs == old(store.docs) && store.Valid()
      invariant PlanDelete(daysForDate[i..], target) == PlanDelete(daysForDate, target)
    {
      var day := daysForDate[i];
      PlanDeleteStep(daysForDate, i, target);
      assert day in Of(store.docs, Personnel) by {
        assert day in daysForDate;
      }
      if day.entries.None? {
        return DeleteFailed;
      }
      if HasMatch(day.entries.value, target) {
        outcome := ApplyDelete(store, day, target, confirmedAgain, writeOk);
        return;
      }
      i := i + 1;
    }
    return Deleted;
  }
}
