/**
 * The personnel-cost dialog: one amount field whose save hands a cost-only
 * day for the selected date to the page.
 */
module PersonnelModal {
  import opened Optional
  import opened Records
  import opened Validation
  import MainPage

  /** What pressing "save" yields: one of three warnings, or the payload handed to `onSave`. */
  datatype CostCheck = AmountMissing | AmountInvalid | NotPositive | Cost(data: DayData)

  /**
   * The guard chain of `handleSave`: the amount must be present, valid and,
   * once sanitised, above zero; the payload is a day without entries whose
   * `personnel` is that amount.
   */
  function CostPayload(amountText: string, selectedDate: string): (r: CostCheck)
    ensures r.AmountMissing? <==> !ValidateRequired(Text(amountText))
    ensures r.AmountInvalid? <==> ValidateRequired(Text(amountText)) && !ValidateNumber(Text(amountText))
    ensures r.Cost? <==> ValidateRequired(Text(amountText)) && ValidateNumber(Text(amountText)) && ParseFloat(amountText).value > 0.0
    ensures r.Cost? ==> r.data.dateString == selectedDate && r.data.entries == [] && r.data.personnel == ParseFloat(amountText).value
    ensures r.Cost? ==> 0.0 < r.data.personnel <= MaxAmount && r.data.withdrawals.None? && r.data.personnelEntries.None?
  {
    if !ValidateRequired(Text(amountText)) then AmountMissing
    else if !ValidateNumber(Text(amountText)) then AmountInvalid
    else
      var amount := SanitizeNumber(Text(amountText));
      ValidIffSanitizeKeeps(Text(amountText));
      assert ParseValue(Text(amountText)) == ParseFloat(amountText);
      if amount <= 0.0 then NotPositive
      else Cost(DayData(selectedDate, [], amount, None, None))
  }

  /**
   * A saved cost becomes a new personnel day (`handleSavePersonnel` always
   * creates one) that lowers the personnel balance by exactly its amount.
   */
  lemma CostLowersBalance(amountText: string, selectedDate: string, id: DayId)
    requires CostPayload(amountText, selectedDate).Cost?
    ensures var data := CostPayload(amountText, selectedDate).data;
      MainPage.DayDelta(Personnel, NewDay(id, Personnel, data)) == -data.personnel < 0.0
  {
    assert Sum([]) == 0.0;
  }

  class PersonnelForm {
    var personnelAmount: string

    constructor ()
      ensures personnelAmount == []
    {
      personnelAmount := [];
    }

    /** `handleSave`: on a payload the field is cleared; a warning leaves it as typed. */
    method Save(selectedDate: string) returns (r: CostCheck)
      modifies this
      ensures r == CostPayload(old(personnelAmount), selectedDate)
      ensures r.Cost? ==> personnelAmount == []
      ensures !r.Cost? ==> personnelAmount == old(personnelAmount)
    {
      if !ValidateRequired(Text(personnelAmount)) {
        return AmountMissing;
      }
      if !ValidateNumber(Text(personnelAmount)) {
        return AmountInvalid;
      }
      var amount := SanitizeNumber(Text(personnelAmount));
      if amount <= 0.0 {
        return NotPositive;
      }
      r := Cost(DayData(selectedDate, [], amount, None, None));
      personnelAmount := [];
    }

    /** `handleClose`: the field is cleared. */
    method Close()
      modifies this
      ensures personnelAmount == []
    {
      personnelAmount := [];
    }
  }
}
