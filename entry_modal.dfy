/**
 * The single-entry dialog: a date, a name and an amount, filled from the
 * entry being edited, whose save hands one entry (and, when editing, the
 * entry's and its day's ids) to the page.
 */
module EntryModal {
  import opened Optional
  import opened Records
  import opened Validation

  /** The entry being edited, as handed in: its ids, name, amount and, possibly, its date. */
  datatype EditingEntry = EditingEntry(id: Option<string>, dayId: DayId, name: string, amount: real, date: Option<string>)

  /** The ids `entryData` carries when an entry is edited. */
  datatype EntryRef = EntryRef(id: Option<string>, dayId: DayId)

  /** The `entryData` handed to `onSave`; the date is the picked date as `YYYY-MM-DD`. */
  datatype EntryData = EntryData(name: string, amount: real, date: string, edited: Option<EntryRef>)

  datatype EntryCheck = NameMissing | AmountMissing | AmountInvalid | Saved(data: EntryData)

  /** `amount ? String(amount) : ""`: the amount field of an edited entry; a zero amount shows as empty. */
  function EditText(x: real): (s: string)
    ensures s == [] <==> x == 0.0
  {
    if x != 0.0 then NumberText(x) else []
  }

  /**
   * `handleSave`. A new entry needs a name unless a doctor's name stands
   * in for it; every entry needs a present, valid amount. The name is
   * trimmed (and, for a new entry, falls back to the doctor's name), the
   * amount sanitised, and the ids are carried exactly when editing.
   */
  function EntryPayload(editing: Option<EditingEntry>, doctorName: string, date: string, personName: string, amount: string): (r: EntryCheck)
    ensures r.NameMissing? <==> editing.None? && AllWhitespace(personName) && doctorName == []
    ensures !r.NameMissing? ==>
      (r.AmountMissing? <==> !ValidateRequired(Text(amount))) &&
      (r.Saved? <==> ValidateRequired(Text(amount)) && ValidateNumber(Text(amount)))
    ensures r.Saved? ==> ParseFloat(amount) == Some(r.data.amount) && MinAmount <= r.data.amount <= MaxAmount
    ensures r.Saved? ==> r.data.date == date
    ensures r.Saved? ==> (r.data.edited.Some? <==> editing.Some?)
    ensures r.Saved? && editing.Some? ==> r.data.edited == Some(EntryRef(editing.value.id, editing.value.dayId)) && r.data.name == Trim(personName)
    ensures r.Saved? && editing.None? ==> r.data.name != [] && (r.data.name == Trim(personName) || r.data.name == doctorName)
    ensures r.Saved? && editing.None? && !AllWhitespace(personName) ==> r.data.name == Trim(personName)
  {
    TrimEmptyIffBlank(personName);
    if editing.None? && !ValidateRequired(Text(personName)) && doctorName == [] then NameMissing
    else if !ValidateRequired(Text(amount)) then AmountMissing
    else if !ValidateNumber(Text(amount)) then AmountInvalid
    else
      ValidIffSanitizeKeeps(Text(amount));
      assert ParseValue(Text(amount)) == ParseFloat(amount);
      var name := if editing.Some? then Trim(personName) else if Trim(personName) != [] then Trim(personName) else doctorName;
      var edited := if editing.Some? then Some(EntryRef(editing.value.id, editing.value.dayId)) else None;
      Saved(EntryData(name, SanitizeNumber(Text(amount)), date, edited))
  }

  /**
   * Opening an entry and saving it untouched keeps its amount when that is
   * a whole number within the bounds, its ids, and its trimmed name.
   */
  lemma UntouchedEditKeepsEntry(e: EditingEntry, doctorName: string, date: string)
    requires e.amount == e.amount.Floor as real && 0.0 < e.amount <= MaxAmount
    ensures EntryPayload(Some(e), doctorName, date, e.name, EditText(e.amount))
         == Saved(EntryData(Trim(e.name), e.amount, date, Some(EntryRef(e.id, e.dayId))))
  {
    EditTextRoundTrip(e.amount);
    assert !AllWhitespace(EditText(e.amount));
  }

  /** An edited entry whose amount is 0 opens with an empty amount, which saving then refuses. */
  lemma ZeroAmountEditRefused(e: EditingEntry, doctorName: string, date: string)
    requires e.amount == 0.0
    ensures EntryPayload(Some(e), doctorName, date, e.name, EditText(e.amount)) == AmountMissing
  {
    assert AllWhitespace(EditText(e.amount));
  }

  class EntryDialog {
    var date: string
    var personName: string
    var amount: string

    constructor (today: string)
      ensures date == today && personName == [] && amount == []
    {
      date := today;
      personName := [];
      amount := [];
    }

    /**
     * The effect that fills the form: an edited entry's name, amount text
     * and (when it has one) date; otherwise today and empty fields.
     */
    method Sync(editing: Option<EditingEntry>, today: string)
      modifies this
      ensures editing.Some? ==> personName == editing.value.name && amount == EditText(editing.value.amount)
      ensures editing.Some? ==> date == (if editing.value.date.Some? then editing.value.date.value else old(date))
      ensures editing.None? ==> date == today && personName == [] && amount == []
    {
      if editing.Some? {
        personName := editing.value.name;
        amount := EditText(editing.value.amount);
        if editing.value.date.Some? {
          date := editing.value.date.value;
        }
      } else {
        date := today;
        personName := [];
        amount := [];
      }
    }

    /** `handleClose`: back to today and empty fields. */
    method Close(today: string)
      modifies this
      ensures date == today && personName == [] && amount == []
    {
      date := today;
      personName := [];
      amount := [];
    }

    /** `handleSave`: a saved entry is followed by `handleClose`; a warning leaves the form as it is. */
    method Save(editing: Option<EditingEntry>, doctorName: string, today: string) returns (r: EntryCheck)
      modifies this
      ensures r == EntryPayload(editing, doctorName, old(date), old(personName), old(amount))
      ensures r.Saved? ==> date == today && personName == [] && amount == []
      ensures !r.Saved? ==> date == old(date) && personName == old(personName) && amount == old(amount)
    {
      if editing.None? && !ValidateRequired(Text(personName)) && doctorName == [] {
        return NameMissing;
      }
      if !ValidateRequired(Text(amount)) {
        return AmountMissing;
      }
      if !ValidateNumber(Text(amount)) {
        return AmountInvalid;
      }
      var sanitized := SanitizeNumber(Text(amount));
      var name := if editing.Some? then Trim(personName) else FirstNonEmpty(Trim(personName), doctorName);
      var edited := if editing.Some? then Some(EntryRef(editing.value.id, editing.value.dayId)) else None;
      r := Saved(EntryData(name, sanitized, date, edited));
      Close(today);
    }
  }
}
