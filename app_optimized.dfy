/**
 * The single-component version of the app: it holds both initial
 * balances, the active ledger's days (with timestamps rather than date
 * strings), the entry form, and computes the balance without withdrawals.
 */
module AppOptimized {
  import opened Optional
  import opened Folds
  import opened Records
  import opened Validation
  import opened Sorting
  import opened EntryForm
  import opened SettingsStore
  import MainPage

  /** A document of the `days` collection as this version reads it: the date is a timestamp, when there is one. */
  datatype StoredDay = StoredDay(id: DayId, ledger: Ledger, time: Option<int>, entries: Option<seq<Entry>>,
                                 withdrawals: Option<seq<Entry>>, personnel: Value)

  /** A day after loading: a timestamp, a list of entries and a sanitised personnel cost. */
  datatype LoadedDay = LoadedDay(id: DayId, ledger: Ledger, time: int, entries: seq<Entry>,
                                 withdrawals: Option<seq<Entry>>, personnel: real)

  /** The day a document loads as: a missing date is the load's own time, missing entries are none. */
  function Normalise(s: StoredDay, now: int): (d: LoadedDay)
    ensures d.id == s.id && d.ledger == s.ledger && d.withdrawals == s.withdrawals
    ensures d.entries == ListOrEmpty(s.entries)
    ensures d.time == (if s.time.Some? then s.time.value else now)
    ensures MinAmount <= d.personnel <= MaxAmount
    ensures Truthy(s.personnel) && ValidateNumber(s.personnel) ==> d.personnel == ParseValue(s.personnel).value
  {
    var time := if s.time.Some? then s.time.value else now;
    LoadedDay(s.id, s.ledger, time, ListOrEmpty(s.entries), s.withdrawals, SanitizeNumber(OrZero(s.personnel)))
  }

  /** `where("type", "==", t)` on the stored documents, normalised, in store order. */
  function LedgerDays(docs: seq<StoredDay>, t: Ledger, now: int): (r: seq<LoadedDay>)
    ensures |r| <= |docs|
    ensures forall d :: d in r ==> d.ledger == t && MinAmount <= d.personnel <= MaxAmount
    ensures forall s :: s in docs && s.ledger == t ==> Normalise(s, now) in r
  {
    if docs == [] then []
    else
      var init, last := docs[..|docs| - 1], docs[|docs| - 1];
      assert forall s :: s in docs ==> s in init || s == last by {
        assert docs == init + [last];
      }
      LedgerDays(init, t, now) + (if last.ledger == t then [Normalise(last, now)] else [])
  }

  /** Every loaded day is the normalisation of a document of the ledger: the load invents no day. */
  lemma {:induction false} LedgerDaysFromDocs(docs: seq<StoredDay>, t: Ledger, now: int)
    ensures forall d :: d in LedgerDays(docs, t, now) ==> exists s :: s in docs && s.ledger == t && d == Normalise(s, now)
    decreases |docs|
  {
    if docs != [] {
      var init, last := docs[..|docs| - 1], docs[|docs| - 1];
      LedgerDaysFromDocs(init, t, now);
      assert docs == init + [last];
      forall d | d in LedgerDays(docs, t, now)
        ensures exists s :: s in docs && s.ledger == t && d == Normalise(s, now)
      {
        if d in LedgerDays(init, t, now) {
          var s :| s in init && s.ledger == t && d == Normalise(s, now);
          assert s in docs;
        } else {
          assert last in docs;
        }
      }
    }
  }

  /** One more document adds its day at the end exactly when it is of the ledger. */
  lemma LedgerDaysAppend(docs: seq<StoredDay>, s: StoredDay, t: Ledger, now: int)
    ensures LedgerDays(docs + [s], t, now) == LedgerDays(docs, t, now) + (if s.ledger == t then [Normalise(s, now)] else [])
  {
    assert (docs + [s])[..|docs|] == docs;
  }

  /**
   * The load keeps store order: the days of two batches of documents are
   * the first batch's days followed by the second's.
   */
  lemma {:induction false} LedgerDaysConcat(a: seq<StoredDay>, b: seq<StoredDay>, t: Ledger, now: int)
    ensures LedgerDays(a + b, t, now) == LedgerDays(a, t, now) + LedgerDays(b, t, now)
    decreases |b|
  {
    if b == [] {
      assert a + b == a;
    } else {
      var init, last := b[..|b| - 1], b[|b| - 1];
      assert a + b == (a + init) + [last] && b == init + [last];
      LedgerDaysConcat(a, init, t, now);
      LedgerDaysAppend(a + init, last, t, now);
      LedgerDaysAppend(init, last, t, now);
      var x, y, z := LedgerDays(a, t, now), LedgerDays(init, t, now), if last.ledger == t then [Normalise(last, now)] else [];
      assert (x + y) + z == x + (y + z);
    }
  }

  /** The key of the newest-first order. */
  function ByTime(): LoadedDay -> real {
    (d: LoadedDay) => d.time as real
  }

  /** The balance movement of a day in this version: withdrawals are never counted. */
  function AppDelta(tab: Ledger, d: LoadedDay): real {
    if tab == Personnel then Sum(d.entries) - d.personnel else Sum(d.entries)
  }

  function Movement(tab: Ledger): LoadedDay -> real {
    (d: LoadedDay) => AppDelta(tab, d)
  }

  /** A loaded day as the page's model of a document, so the two balance rules can be compared. */
  function AsDay(d: LoadedDay): Day {
    Day(d.id, d.ledger, [], Some(d.entries), d.withdrawals, d.personnel, None)
  }

  function Withdrawn(): LoadedDay -> real {
    (d: LoadedDay) => SumOrZero(d.withdrawals)
  }

  /**
   * The two versions agree on the personnel ledger; on the operational
   * ledger this one is higher by exactly the days' withdrawals.
   */
  lemma BalanceRulesCompared(days: seq<LoadedDay>)
    ensures SumOver(days, Movement(Personnel)) == SumOver(days, (d: LoadedDay) => MainPage.DayDelta(Personnel, AsDay(d)))
    ensures SumOver(days, Movement(Operational))
         == SumOver(days, (d: LoadedDay) => MainPage.DayDelta(Operational, AsDay(d))) + SumOver(days, Withdrawn())
  {
    SumOverAgree(days, Movement(Personnel), (d: LoadedDay) => MainPage.DayDelta(Personnel, AsDay(d)));
    SumOverAdd(days, (d: LoadedDay) => MainPage.DayDelta(Operational, AsDay(d)), Withdrawn(), Movement(Operational));
  }

  /** The balance read from the settings documents in order: every document of the ledger overwrites it. */
  function LastBalance(docs: seq<SettingDoc>, t: Ledger, current: real): (r: real)
    ensures r == current || MinAmount <= r <= MaxAmount
    ensures (forall i :: 0 <= i < |docs| ==> docs[i].kind != Some(t)) ==> r == current
  {
    if docs == [] then current
    else
      var last := docs[|docs| - 1];
      if last.kind == Some(t) then SanitizeNumber(OrZero(last.initialBalance))
      else LastBalance(docs[..|docs| - 1], t, current)
  }

  /** One more document read: one of the ledger overwrites the balance, any other leaves it. */
  lemma LastBalanceStep(docs: seq<SettingDoc>, t: Ledger, current: real, i: nat)
    requires i < |docs|
    ensures LastBalance(docs[..i + 1], t, current) ==
      if docs[i].kind == Some(t) then SanitizeNumber(OrZero(docs[i].initialBalance)) else LastBalance(docs[..i], t, current)
  {
    assert docs[..i + 1][..i] == docs[..i];
  }

  /** The last document of a ledger decides its balance. */
  lemma {:induction false} LastMatchWins(docs: seq<SettingDoc>, t: Ledger, current: real, i: nat)
    requires i < |docs| && docs[i].kind == Some(t)
    requires forall j :: i < j < |docs| ==> docs[j].kind != Some(t)
    ensures LastBalance(docs, t, current) == SanitizeNumber(OrZero(docs[i].initialBalance))
    decreases |docs|
  {
    if i < |docs| - 1 {
      LastMatchWins(docs[..|docs| - 1], t, current, i);
    }
  }

  /**
   * With one document per ledger, as the find-or-create writes keep it,
   * reading the last match and reading the first (as the balance hooks do)
   * give the same balance.
   */
  lemma LastAndFirstAgree(docs: seq<SettingDoc>, t: Ledger, current: real)
    requires OnePerKind(docs)
    ensures FirstOfKind(docs, t).Some? ==> LastBalance(docs, t, current) == SanitizeNumber(FirstBalance(docs, t))
    ensures FirstOfKind(docs, t).None? ==> LastBalance(docs, t, current) == current
  {
    match FirstOfKind(docs, t)
    case Some(i) =>
      LastMatchWins(docs, t, current, i);
    case None =>
  }

  /** Two documents of a ledger: the last one wins here, where the hooks take the first. */
  lemma TwoDocumentsDisagree()
    ensures var docs := [SettingDoc(Some(Personnel), Number(100.0)), SettingDoc(Some(Personnel), Number(200.0))];
      LastBalance(docs, Personnel, 0.0) == 200.0 && FirstBalance(docs, Personnel) == Number(100.0)
  {
    var docs := [SettingDoc(Some(Personnel), Number(100.0)), SettingDoc(Some(Personnel), Number(200.0))];
    assert SanitizeNumber(Number(200.0)) == 200.0;
  }

  /** What `handleSaveDay` asks of the store, or why it asks nothing. */
  datatype DayWrite =
    | DateMissing
    | NoEntries
    | Updated(id: DayId, payload: AppDayData)
    | Created(payload: AppDayData)

  /** The fields `handleSaveDay` writes; the date is the text `new Date(...)` is built from. */
  datatype AppDayData = AppDayData(date: string, entries: seq<Entry>, personnel: real, ledger: Ledger)

  /** The personnel cost `handleSaveDay` stores: the sanitised input (blank is 0) on the personnel ledger, 0 on the operational one. */
  function DayPersonnel(tab: Ledger, newPersonnel: string): (p: real)
    ensures MinAmount <= p <= MaxAmount
    ensures tab == Operational ==> p == 0.0
    ensures tab == Personnel && ValidateNumber(Text(newPersonnel)) ==> p == ParseFloat(newPersonnel).value
  {
    if tab == Personnel then
      assert ValidateNumber(Text(newPersonnel)) ==> OrZero(Text(newPersonnel)) == Text(newPersonnel) by {
        if ValidateNumber(Text(newPersonnel)) {
          assert newPersonnel != [] by {
            assert ParseFloat([]) == None by {
              assert TrimStart([]) == [];
            }
          }
        }
      }
      SanitizeNumber(OrZero(Text(newPersonnel)))
    else 0.0
  }

  /**
   * `handleSaveDay` up to the write: a blank date or an empty list writes
   * nothing; an edited day is updated, otherwise one is created, with the
   * personnel cost `DayPersonnel` gives.
   */
  function PlanSave(tab: Ledger, newDate: string, newPersonnel: string, entries: seq<Entry>, editingDayId: Option<DayId>): (w: DayWrite)
    ensures w.DateMissing? <==> AllWhitespace(newDate)
    ensures w.NoEntries? <==> !AllWhitespace(newDate) && entries == []
    ensures w.Updated? <==> !AllWhitespace(newDate) && entries != [] && editingDayId.Some?
    ensures w.Updated? ==> w.id == editingDayId.value
    ensures w.Updated? || w.Created? ==>
      w.payload == AppDayData(newDate, entries, DayPersonnel(tab, newPersonnel), tab)
  {
    if !ValidateRequired(Text(newDate)) then DateMissing
    else if entries == [] then NoEntries
    else
      var payload := AppDayData(newDate, entries, DayPersonnel(tab, newPersonnel), tab);
      if editingDayId.Some? then Updated(editingDayId.value, payload) else Created(payload)
  }

  class App {
    var activeTab: Ledger
    var initialBalancePersonnel: real
    var initialBalanceOperational: real
    var editingBalance: bool
    var balanceInput: string
    var newDate: string
    var newPersonName: string
    var newAmount: string
    var newPersonnel: string
    var currentEntries: seq<Entry>
    var days: seq<LoadedDay>
    var showModal: bool
    var editingDayId: Option<DayId>

    constructor (tab: Ledger)
      ensures activeTab == tab && initialBalancePersonnel == 0.0 && initialBalanceOperational == 0.0
      ensures !editingBalance && balanceInput == [] && newDate == [] && newPersonName == [] && newAmount == []
      ensures newPersonnel == [] && currentEntries == [] && days == [] && !showModal && editingDayId.None?
    {
      activeTab := tab;
      initialBalancePersonnel, initialBalanceOperational := 0.0, 0.0;
      editingBalance, balanceInput := false, [];
      newDate, newPersonName, newAmount, newPersonnel := [], [], [], [];
      currentEntries, days := [], [];
      showModal, editingDayId := false, None;
    }

    /** `initialBalance`: the active ledger's. */
    function InitialBalance(): (b: real)
      reads this
      ensures activeTab == Personnel ==> b == initialBalancePersonnel
      ensures activeTab == Operational ==> b == initialBalanceOperational
    {
      if activeTab == Personnel then initialBalancePersonnel else initialBalanceOperational
    }

    /** `sortedDays`: the days, newest first. */
    function SortedDays(): (r: seq<LoadedDay>)
      reads this
      ensures SortedDesc(r, ByTime()) && multiset(r) == multiset(days)
    {
      SortDesc(days, ByTime())
    }

    /** The form fields `handleSaveBalance` and the loads leave alone. */
    ghost function Form(): (string, string, string, string, seq<Entry>, bool, Option<DayId>)
      reads this
    {
      (newDate, newPersonName, newAmount, newPersonnel, currentEntries, showModal, editingDayId)
    }

    /**
     * `currentBalance`: the active ledger's initial balance plus, over the
     * newest-first days, each day's entries less (on the personnel ledger)
     * its personnel cost. The order of the days does not matter.
     */
    method CurrentBalance() returns (balance: real)
      ensures balance == InitialBalance() + SumOver(SortedDays(), Movement(activeTab))
      ensures balance == InitialBalance() + SumOver(days, Movement(activeTab))
    {
      var sorted := SortedDays();
      balance := InitialBalance();
      for i := 0 to |sorted|
        invariant balance == InitialBalance() + SumOver(sorted[..i], Movement(activeTab))
      {
        SumOverStep(sorted, i, Movement(activeTab));
        var dayTotal := Sum(sorted[i].entries);
        if activeTab == Personnel {
          balance := balance + (dayTotal - sorted[i].personnel);
        } else {
          balance := balance + dayTotal;
        }
      }
      assert sorted[..|sorted|] == sorted;
      SumOverPermutation(sorted, days, Movement(activeTab));
    }

    /**
     * The settings part of `loadData`: every document of a ledger, in
     * order, overwrites that ledger's balance with its sanitised value; a
     * failed read changes nothing.
     */
    method LoadBalances(docs: seq<SettingDoc>, readOk: bool)
      modifies this
      ensures readOk ==> initialBalancePersonnel == LastBalance(docs, Personnel, old(initialBalancePersonnel))
      ensures readOk ==> initialBalanceOperational == LastBalance(docs, Operational, old(initialBalanceOperational))
      ensures !readOk ==> initialBalancePersonnel == old(initialBalancePersonnel) && initialBalanceOperational == old(initialBalanceOperational)
      ensures activeTab == old(activeTab) && days == old(days) && Form() == old(Form())
      ensures editingBalance == old(editingBalance) && balanceInput == old(balanceInput)
      ensures MinAmount <= initialBalancePersonnel <= MaxAmount || initialBalancePersonnel == old(initialBalancePersonnel)
    {
      if !readOk {
        return;
      }
      for i := 0 to |docs|
        invariant initialBalancePersonnel == LastBalance(docs[..i], Personnel, old(initialBalancePersonnel))
        invariant initialBalanceOperational == LastBalance(docs[..i], Operational, old(initialBalanceOperational))
        invariant activeTab == old(activeTab) && days == old(days) && Form() == old(Form())
        invariant editingBalance == old(editingBalance) && balanceInput == old(balanceInput)
      {
        LastBalanceStep(docs, Personnel, old(initialBalancePersonnel), i);
        LastBalanceStep(docs, Operational, old(initialBalanceOperational), i);
        if docs[i].kind == Some(Personnel) {
          initialBalancePersonnel := SanitizeNumber(OrZero(docs[i].initialBalance));
        } else if docs[i].kind == Some(Operational) {
          initialBalanceOperational := SanitizeNumber(OrZero(docs[i].initialBalance));
        }
      }
      assert docs[..|docs|] == docs;
    }

    /**
     * The days part of `loadData`: the active ledger's documents,
     * normalised and ordered newest first; a failed read leaves no days.
     */
    method LoadDays(docs: seq<StoredDay>, readOk: bool, now: int)
      modifies this
      ensures readOk ==> days == SortDesc(LedgerDays(docs, activeTab, now), ByTime())
      ensures !readOk ==> days == []
      ensures forall d :: d in days ==> d.ledger == activeTab
      ensures SortedDays() == days
      ensures activeTab == old(activeTab) && Form() == old(Form())
      ensures initialBalancePersonnel == old(initialBalancePersonnel) && initialBalanceOperational == old(initialBalanceOperational)
      ensures editingBalance == old(editingBalance) && balanceInput == old(balanceInput)
    {
      if readOk {
        var loaded := LedgerDays(docs, activeTab, now);
        days := SortDesc(loaded, ByTime());
        assert forall d :: d in days ==> d in multiset(loaded);
      } else {
        days := [];
      }
      SortDescSorted(days, ByTime());
    }

    /**
     * `handleSaveBalance`: an invalid input is refused; otherwise the
     * sanitised amount is written by find-or-create for the active ledger
     * and, once written, becomes that ledger's balance and the edit closes.
     */
    method SaveBalance(store: SettingsCollection?, writeOk: bool) returns (ok: bool)
      modifies this, store
      ensures ok <==> ValidateNumber(Text(old(balanceInput))) && store != null && writeOk
      ensures ok ==> store.docs == PutDocs(old(store.docs), activeTab, SanitizeNumber(Text(old(balanceInput))))
      ensures ok ==> InitialBalance() == SanitizeNumber(Text(old(balanceInput))) && !editingBalance && balanceInput == []
      ensures ok && activeTab == Personnel ==> initialBalanceOperational == old(initialBalanceOperational)
      ensures ok && activeTab == Operational ==> initialBalancePersonnel == old(initialBalancePersonnel)
      ensures !ok ==> unchanged(this)
      ensures !ok && store != null ==> store.docs == old(store.docs)
      ensures unchanged(this`activeTab, this`days, this`newDate, this`newPersonName, this`newAmount)
      ensures unchanged(this`newPersonnel, this`currentEntries, this`showModal, this`editingDayId)
    {
      if !ValidateNumber(Text(balanceInput)) {
        return false;
      }
      var newBalance := SanitizeNumber(Text(balanceInput));
      if store == null {
        return false;
      }
      var done := store.Put(activeTab, newBalance, writeOk);
      if !done {
        return false;
      }
      SetBalance(newBalance);
      ok := true;
    }

    /** A written balance becomes the active ledger's, and the edit closes. */
    method SetBalance(amount: real)
      modifies this
      ensures InitialBalance() == amount && !editingBalance && balanceInput == []
      ensures activeTab == Personnel ==> initialBalanceOperational == old(initialBalanceOperational)
      ensures activeTab == Operational ==> initialBalancePersonnel == old(initialBalancePersonnel)
      ensures unchanged(this`activeTab, this`days, this`newDate, this`newPersonName, this`newAmount)
      ensures unchanged(this`newPersonnel, this`currentEntries, this`showModal, this`editingDayId)
    {
      if activeTab == Personnel {
        initialBalancePersonnel := amount;
      } else {
        initialBalanceOperational := amount;
      }
      editingBalance, balanceInput := false, [];
    }

    /** `handleAddEntry`: a checked entry is appended and the name and amount are cleared; otherwise nothing changes. */
    method AddEntry() returns (check: AddCheck)
      modifies this
      ensures check == CheckEntry(old(newPersonName), old(newAmount))
      ensures check.Accepted? ==> currentEntries == old(currentEntries) + [check.entry] && newPersonName == [] && newAmount == []
      ensures check.Accepted? ==> Sum(currentEntries) == old(Sum(currentEntries)) + check.entry.amount
      ensures !check.Accepted? ==> unchanged(this)
      ensures unchanged(this`newDate, this`newPersonnel, this`showModal, this`editingDayId, this`activeTab, this`days)
      ensures unchanged(this`initialBalancePersonnel, this`initialBalanceOperational, this`editingBalance, this`balanceInput)
    {
      check := CheckEntry(newPersonName, newAmount);
      if !check.Accepted? {
        return;
      }
      AppendEntry(check.entry);
    }

    /** The accepted entry is appended, and the name and amount fields are cleared. */
    method AppendEntry(e: Entry)
      modifies this
      ensures currentEntries == old(currentEntries) + [e] && newPersonName == [] && newAmount == []
      ensures Sum(currentEntries) == old(Sum(currentEntries)) + e.amount
      ensures unchanged(this`newDate, this`newPersonnel, this`showModal, this`editingDayId, this`activeTab, this`days)
      ensures unchanged(this`initialBalancePersonnel, this`initialBalanceOperational, this`editingBalance, this`balanceInput)
    {
      SumAppend(currentEntries, e);
      currentEntries := currentEntries + [e];
      newPersonName := [];
      newAmount := [];
    }

    /** `handleRemoveEntry`: drops the entry at that position, if there is one. */
    method RemoveEntry(index: int)
      modifies this
      ensures currentEntries == WithoutIndex(old(currentEntries), index)
      ensures Sum(currentEntries) == old(Sum(currentEntries)) - (if 0 <= index < |old(currentEntries)| then old(currentEntries)[index].amount else 0.0)
      ensures newDate == old(newDate) && newPersonName == old(newPersonName) && newAmount == old(newAmount)
      ensures newPersonnel == old(newPersonnel) && showModal == old(showModal) && editingDayId == old(editingDayId)
      ensures activeTab == old(activeTab) && days == old(days) && initialBalancePersonnel == old(initialBalancePersonnel) && initialBalanceOperational == old(initialBalanceOperational)
      ensures editingBalance == old(editingBalance) && balanceInput == old(balanceInput)
    {
      WithoutIndexSum(currentEntries, index);
      currentEntries := WithoutIndex(currentEntries, index);
    }

    /**
     * `handleSaveDay`: the planned write is issued; only when it succeeds
     * is the form reset and the dialog closed. A refused or failed save
     * leaves everything as it was.
     */
    method SaveDay(writeOk: bool) returns (w: DayWrite, written: bool)
      modifies this
      ensures w == PlanSave(activeTab, old(newDate), old(newPersonnel), old(currentEntries), old(editingDayId))
      ensures written <==> (w.Updated? || w.Created?) && writeOk
      ensures written ==> newDate == [] && newPersonnel == [] && currentEntries == [] && editingDayId.None? && !showModal
      ensures !written ==> unchanged(this)
      ensures unchanged(this`newPersonName, this`newAmount, this`activeTab, this`days)
      ensures unchanged(this`initialBalancePersonnel, this`initialBalanceOperational, this`editingBalance, this`balanceInput)
    {
      w := PlanSave(activeTab, newDate, newPersonnel, currentEntries, editingDayId);
      written := (w.Updated? || w.Created?) && writeOk;
      if !written {
        return;
      }
      ResetForm();
    }

    /** The reset after a successful save: the day form is emptied and the dialog closed. */
    method ResetForm()
      modifies this
      ensures newDate == [] && newPersonnel == [] && currentEntries == [] && editingDayId.None? && !showModal
      ensures unchanged(this`newPersonName, this`newAmount, this`activeTab, this`days)
      ensures unchanged(this`initialBalancePersonnel, this`initialBalanceOperational, this`editingBalance, this`balanceInput)
    {
      newDate, newPersonnel, currentEntries, editingDayId, showModal := [], [], [], None, false;
    }
  }
}
