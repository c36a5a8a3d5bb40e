/**
 * The day editor: a form holding the date, the name and amount being typed,
 * and the deposit and withdrawal lists being built; its summary; and the
 * payload its save button hands to the page.
 */
module AddDayModal {
  import opened Optional
  import opened Folds
  import opened Records
  import opened Validation
  import opened EntryForm
  import MainPage

  /** The editor's inner tab: which list an added entry goes to on the operational ledger. */
  datatype ModalTab = Deposits | Withdrawals

  /** `operationType`: a deposit ("income") or a personnel cost ("personnel"). */
  datatype OperationType = Income | PersonnelCost

  /** What pressing "save" yields: a warning, or the `dayData` handed to `onSave`. */
  datatype SaveCheck = AmountMissing | AmountInvalid | NoEntries | Payload(data: DayData)

  /** The entries of a day being edited, or none when adding. */
  function EditedEntries(editingDay: Option<Day>): seq<Entry> {
    if editingDay.Some? then ListOrEmpty(editingDay.value.entries) else []
  }

  function EditedWithdrawals(editingDay: Option<Day>): seq<Entry> {
    if editingDay.Some? then ListOrEmpty(editingDay.value.withdrawals) else []
  }

  /**
   * `handleSave`. On the personnel ledger a deposit ("income") is a single
   * amount typed for the doctor, which must be present and valid. Otherwise
   * the lists must not be empty (on the operational ledger one of the two
   * suffices); a personnel cost moves the entries' total into `personnel`,
   * and the operational ledger carries its withdrawals.
   */
  function SavePayload(tab: Ledger, op: OperationType, doctorName: string, newDate: string, newAmount: string,
                       entries: seq<Entry>, withdrawals: seq<Entry>): (r: SaveCheck)
    ensures r.Payload? ==> r.data.dateString == newDate && r.data.personnelEntries.None?
    ensures tab == Personnel && op == Income ==>
      (r.AmountMissing? <==> !ValidateRequired(Text(newAmount))) &&
      (r.AmountInvalid? <==> ValidateRequired(Text(newAmount)) && !ValidateNumber(Text(newAmount))) &&
      (r.Payload? <==> ValidateRequired(Text(newAmount)) && ValidateNumber(Text(newAmount)))
    ensures tab == Personnel && op == Income && r.Payload? ==>
      r.data.entries == [Entry(None, doctorName, ParseFloat(newAmount).value)] &&
      r.data.personnel == 0.0 && r.data.withdrawals.None? && MinAmount <= ParseFloat(newAmount).value <= MaxAmount
    ensures !(tab == Personnel && op == Income) ==>
      (r.NoEntries? <==> entries == [] && (tab == Personnel || withdrawals == [])) && (r.Payload? || r.NoEntries?)
    ensures tab == Personnel && op == PersonnelCost && r.Payload? ==>
      r.data.entries == [] && r.data.personnel == Sum(entries) && r.data.withdrawals.None?
    ensures tab == Operational && r.Payload? ==>
      r.data.entries == entries && r.data.withdrawals == Some(withdrawals) && r.data.personnel == 0.0
  {
    if op == Income && tab == Personnel then
      if !ValidateRequired(Text(newAmount)) then AmountMissing
      else if !ValidateNumber(Text(newAmount)) then AmountInvalid
      else
        ValidIffSanitizeKeeps(Text(newAmount));
        assert ParseValue(Text(newAmount)) == ParseFloat(newAmount);
        Payload(DayData(newDate, [Entry(None, doctorName, SanitizeNumber(Text(newAmount)))], 0.0, None, None))
    else if (if tab == Personnel then entries == [] else entries == [] && withdrawals == []) then NoEntries
    else
      var base := DayData(newDate, entries, 0.0, None, None);
      var costed := if tab == Personnel && op == PersonnelCost then base.(personnel := Sum(entries), entries := []) else base;
      Payload(if tab == Operational then costed.(withdrawals := Some(withdrawals)) else costed)
  }

  /**
   * The effect on the balance of the day a saved payload creates: a deposit
   * adds the typed amount, a personnel cost takes off the entries' total,
   * and an operational day moves the balance by the editor's summary balance.
   */
  lemma NewDayDelta(tab: Ledger, op: OperationType, doctorName: string, newDate: string, newAmount: string,
                    entries: seq<Entry>, withdrawals: seq<Entry>, id: DayId)
    requires SavePayload(tab, op, doctorName, newDate, newAmount, entries, withdrawals).Payload?
    ensures var data := SavePayload(tab, op, doctorName, newDate, newAmount, entries, withdrawals).data;
      MainPage.DayDelta(tab, NewDay(id, tab, data)) ==
        if tab == Operational then Sum(entries) - Sum(withdrawals)
        else if op == Income then ParseFloat(newAmount).value
        else -Sum(entries)
  {
    var data := SavePayload(tab, op, doctorName, newDate, newAmount, entries, withdrawals).data;
    if tab == Personnel && op == Income {
      SumSingle(data.entries[0]);
    }
    assert Sum([]) == 0.0;
  }

  /**
   * How the page's save moves the ledger's balance. On a new date the
   * created day adds the payload's own effect. On a date that already has a
   * day the entries are appended to it, but the payload's personnel cost
   * (personnel ledger) or withdrawals (operational ledger) replace the
   * day's own, so the balance also gains back what was replaced.
   */
  lemma SavedDayDelta(tab: Ledger, op: OperationType, doctorName: string, newDate: string, newAmount: string,
                      entries: seq<Entry>, withdrawals: seq<Entry>, days: seq<Day>, initial: real, id: DayId)
    requires SavePayload(tab, op, doctorName, newDate, newAmount, entries, withdrawals).Payload?
    ensures var data := SavePayload(tab, op, doctorName, newDate, newAmount, entries, withdrawals).data;
      var delta := if tab == Operational then Sum(entries) - Sum(withdrawals)
                   else if op == Income then ParseFloat(newAmount).value
                   else -Sum(entries);
      var replaced := match MainPage.FirstOnDate(days, newDate)
                      case None => 0.0
                      case Some(k) => if tab == Personnel then DayPersonnel(days[k]) else DayWithdrawals(days[k]);
      var before := MainPage.LedgerView(initial, days);
      var after := MainPage.LedgerView(initial, MainPage.SaveInView(days, id, tab, data));
      MainPage.BalanceOf(tab, after) - MainPage.BalanceOf(tab, before) == delta + replaced
  {
    var data := SavePayload(tab, op, doctorName, newDate, newAmount, entries, withdrawals).data;
    NewDayDelta(tab, op, doctorName, newDate, newAmount, entries, withdrawals, id);
    match MainPage.FirstOnDate(days, newDate)
    case None =>
      var created := NewDay(id, tab, data);
      SumOverConcat(days, [created], MainPage.Delta(tab));
      SumOverSingle(created, MainPage.Delta(tab));
    case Some(k) =>
      var merged := Merge(days[k], MainPage.Appended(days[k], data));
      SumOverUpdate(days, k, merged, MainPage.Delta(tab));
      SumConcat(ListOrEmpty(days[k].entries), data.entries);
  }

  /**
   * A deposit of 100 saved on a date whose personnel day holds only a cost
   * of 200: the merged day's cost becomes 0, so the balance rises by 300.
   */
  lemma DepositOverCostDay(doctorName: string, date: string, existingId: DayId, id: DayId, initial: real)
    ensures SavePayload(Personnel, Income, doctorName, date, "100", [], []).Payload?
    ensures var existing := Day(existingId, Personnel, date, Some([]), None, 200.0, None);
      var data := SavePayload(Personnel, Income, doctorName, date, "100", [], []).data;
      var after := MainPage.SaveInView([existing], id, Personnel, data);
      after[0].personnel == 0.0 &&
      MainPage.BalanceOf(Personnel, MainPage.LedgerView(initial, after))
        == MainPage.BalanceOf(Personnel, MainPage.LedgerView(initial, [existing])) + 300.0
  {
    HundredIsValid();
    assert ValidateRequired(Text("100"));
    SavedDayDelta(Personnel, Income, doctorName, date, "100", [], [], [Day(existingId, Personnel, date, Some([]), None, 200.0, None)], initial, id);
  }

  /** On the operational ledger the operation type makes no difference to the payload. */
  lemma OperationTypeIgnoredOnOperational(doctorName: string, newDate: string, newAmount: string,
                                          entries: seq<Entry>, withdrawals: seq<Entry>)
    ensures SavePayload(Operational, Income, doctorName, newDate, newAmount, entries, withdrawals)
         == SavePayload(Operational, PersonnelCost, doctorName, newDate, newAmount, entries, withdrawals)
  {
  }

  class AddDayForm {
    var newDate: string
    var newPersonName: string
    var newAmount: string
    var currentEntries: seq<Entry>
    var currentWithdrawals: seq<Entry>
    var modalTab: ModalTab

    /** The initial state: the edited day's date, else the selected date, else today. */
    constructor (editingDay: Option<Day>, selectedDate: string, today: string)
      ensures newDate == FirstNonEmpty(FirstNonEmpty(if editingDay.Some? then editingDay.value.dateString else [], selectedDate), today)
      ensures newPersonName == [] && newAmount == [] && modalTab == Deposits
      ensures currentEntries == EditedEntries(editingDay) && currentWithdrawals == EditedWithdrawals(editingDay)
    {
      newDate := FirstNonEmpty(FirstNonEmpty(if editingDay.Some? then editingDay.value.dateString else [], selectedDate), today);
      newPersonName := [];
      newAmount := [];
      currentEntries := EditedEntries(editingDay);
      currentWithdrawals := EditedWithdrawals(editingDay);
      modalTab := Deposits;
    }

    /** The summary panel: deposits less withdrawals. */
    function ModalBalance(): (b: real)
      reads this
      ensures b + Sum(currentWithdrawals) == Sum(currentEntries)
      ensures currentWithdrawals == [] ==> b == Sum(currentEntries)
    {
      Sum(currentEntries) - Sum(currentWithdrawals)
    }

    /**
     * `handleAddEntry`: a valid entry goes to the withdrawals when the
     * operational ledger's withdrawal tab is open and to the deposits
     * otherwise, and the name and amount fields are cleared.
     */
    method AddEntry(activeTab: Ledger) returns (check: AddCheck)
      modifies this
      ensures check == CheckEntry(old(newPersonName), old(newAmount))
      ensures newDate == old(newDate) && modalTab == old(modalTab)
      ensures !check.Accepted? ==> unchanged(this)
      ensures check.Accepted? ==> newPersonName == [] && newAmount == []
      ensures check.Accepted? && activeTab == Operational && modalTab == Withdrawals ==>
        currentWithdrawals == old(currentWithdrawals) + [check.entry] && currentEntries == old(currentEntries) &&
        ModalBalance() == old(ModalBalance()) - check.entry.amount
      ensures check.Accepted? && !(activeTab == Operational && modalTab == Withdrawals) ==>
        currentEntries == old(currentEntries) + [check.entry] && currentWithdrawals == old(currentWithdrawals) &&
        ModalBalance() == old(ModalBalance()) + check.entry.amount
    {
      check := CheckEntry(newPersonName, newAmount);
      if !check.Accepted? {
        return;
      }
      Append(check.entry, activeTab == Operational && modalTab == Withdrawals);
    }

    /** The accepted entry goes to one of the two lists, and the name and amount fields are cleared. */
    method Append(e: Entry, toWithdrawals: bool)
      modifies this
      ensures newPersonName == [] && newAmount == [] && newDate == old(newDate) && modalTab == old(modalTab)
      ensures toWithdrawals ==>
        currentWithdrawals == old(currentWithdrawals) + [e] && currentEntries == old(currentEntries) &&
        ModalBalance() == old(ModalBalance()) - e.amount
      ensures !toWithdrawals ==>
        currentEntries == old(currentEntries) + [e] && currentWithdrawals == old(currentWithdrawals) &&
        ModalBalance() == old(ModalBalance()) + e.amount
    {
      if toWithdrawals {
        SumAppend(currentWithdrawals, e);
        currentWithdrawals := currentWithdrawals + [e];
      } else {
        SumAppend(currentEntries, e);
        currentEntries := currentEntries + [e];
      }
      newPersonName := [];
      newAmount := [];
    }

    /** `handleRemoveEntry`: drops the deposit at that position, if there is one. */
    method RemoveEntry(index: int)
      modifies this
      ensures currentEntries == WithoutIndex(old(currentEntries), index)
      ensures currentWithdrawals == old(currentWithdrawals) && newDate == old(newDate)
      ensures newPersonName == old(newPersonName) && newAmount == old(newAmount) && modalTab == old(modalTab)
      ensures ModalBalance() == old(ModalBalance()) - (if 0 <= index < |old(currentEntries)| then old(currentEntries)[index].amount else 0.0)
    {
      WithoutIndexSum(currentEntries, index);
      currentEntries := WithoutIndex(currentEntries, index);
    }

    /** `handleRemoveWithdrawal`: drops the withdrawal at that position, if there is one. */
    method RemoveWithdrawal(index: int)
      modifies this
      ensures currentWithdrawals == WithoutIndex(old(currentWithdrawals), index)
      ensures currentEntries == old(currentEntries) && newDate == old(newDate)
      ensures newPersonName == old(newPersonName) && newAmount == old(newAmount) && modalTab == old(modalTab)
      ensures ModalBalance() == old(ModalBalance()) + (if 0 <= index < |old(currentWithdrawals)| then old(currentWithdrawals)[index].amount else 0.0)
    {
      WithoutIndexSum(currentWithdrawals, index);
      currentWithdrawals := WithoutIndex(currentWithdrawals, index);
    }

    /**
     * `handleSave`: the payload handed to `onSave`, or the warning shown;
     * the form itself is left as it is. An operational day it creates moves
     * the balance by exactly the summary balance the editor showed.
     */
    method Save(activeTab: Ledger, op: OperationType, doctorName: string, id: DayId) returns (r: SaveCheck)
      ensures r == SavePayload(activeTab, op, doctorName, newDate, newAmount, currentEntries, currentWithdrawals)
      ensures activeTab == Operational && r.Payload? ==>
        MainPage.DayDelta(Operational, NewDay(id, Operational, r.data)) == ModalBalance()
    {
      if op == Income && activeTab == Personnel {
        if !ValidateRequired(Text(newAmount)) {
          return AmountMissing;
        }
        if !ValidateNumber(Text(newAmount)) {
          return AmountInvalid;
        }
        var amount := SanitizeNumber(Text(newAmount));
        r := Payload(DayData(newDate, [Entry(None, doctorName, amount)], 0.0, None, None));
      } else {
        if (if activeTab == Personnel then currentEntries == [] else currentEntries == [] && currentWithdrawals == []) {
          return NoEntries;
        }
        var dayData := DayData(newDate, currentEntries, 0.0, None, None);
        if activeTab == Personnel && op == PersonnelCost {
          dayData := dayData.(personnel := Sum(currentEntries));
          dayData := dayData.(entries := []);
        }
        if activeTab == Operational {
          dayData := dayData.(withdrawals := Some(currentWithdrawals));
        }
        r := Payload(dayData);
      }
      if activeTab == Operational {
        NewDayDelta(activeTab, op, doctorName, newDate, newAmount, currentEntries, currentWithdrawals, id);
      }
    }

    /** `handleClose`: every field back to its empty state, the date to today. */
    method Close(today: string)
      modifies this
      ensures newDate == today && newPersonName == [] && newAmount == []
      ensures currentEntries == [] && currentWithdrawals == [] && modalTab == Deposits
      ensures ModalBalance() == 0.0
    {
      newDate := today;
      newPersonName := [];
      newAmount := [];
      currentEntries := [];
      currentWithdrawals := [];
      modalTab := Deposits;
    }

    /**
     * The effect that follows the edited day and the selected date: an
     * edited day's date (or today) and lists, else the selected date (or
     * today) and empty lists. The typed name and amount are kept.
     */
    method Sync(editingDay: Option<Day>, selectedDate: string, today: string)
      modifies this
      ensures newDate == FirstNonEmpty(if editingDay.Some? then editingDay.value.dateString else selectedDate, today)
      ensures currentEntries == EditedEntries(editingDay) && currentWithdrawals == EditedWithdrawals(editingDay)
      ensures newPersonName == old(newPersonName) && newAmount == old(newAmount) && modalTab == old(modalTab)
      ensures editingDay.Some? ==> ModalBalance() == MainPage.DayDelta(Operational, editingDay.value)
    {
      if editingDay.Some? {
        newDate := FirstNonEmpty(editingDay.value.dateString, today);
      } else {
        newDate := FirstNonEmpty(selectedDate, today);
      }
      currentEntries := EditedEntries(editingDay);
      currentWithdrawals := EditedWithdrawals(editingDay);
    }
  }
}
