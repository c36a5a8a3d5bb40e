/**
 * The name-and-amount entry form shared by the day editors: the checks an
 * "add" button runs before appending an entry, and removal by position.
 */
module EntryForm {
  import opened Optional
  import opened Records
  import opened Validation

  /** What pressing "add" yields: a warning, or the entry to append. */
  datatype AddCheck = MissingField | InvalidAmount | Accepted(entry: Entry)

  /**
   * Both fields are required; the amount must then validate as a number.
   * The entry carries the trimmed name and the sanitised amount, and no id.
   */
  function CheckEntry(name: string, amount: string): (r: AddCheck)
    ensures r.MissingField? <==> !ValidateRequired(Text(name)) || !ValidateRequired(Text(amount))
    ensures r.InvalidAmount? <==> ValidateRequired(Text(name)) && ValidateRequired(Text(amount)) && !ValidateNumber(Text(amount))
    ensures r.Accepted? ==> r.entry.id.None? && r.entry.name == Trim(name) && r.entry.name != []
    ensures r.Accepted? ==> ParseFloat(amount) == Some(r.entry.amount) && MinAmount <= r.entry.amount <= MaxAmount
  {
    if !ValidateRequired(Text(name)) || !ValidateRequired(Text(amount)) then MissingField
    else if !ValidateNumber(Text(amount)) then InvalidAmount
    else
      TrimEmptyIffBlank(name);
      ValidIffSanitizeKeeps(Text(amount));
      assert ParseValue(Text(amount)) == ParseFloat(amount);
      Accepted(Entry(None, Trim(name), SanitizeNumber(Text(amount))))
  }

  /** `list.filter((_, i) => i !== index)`: an index outside the list removes nothing. */
  function WithoutIndex(xs: seq<Entry>, index: int): (r: seq<Entry>)
    ensures 0 <= index < |xs| ==> r == xs[..index] + xs[index + 1..]
    ensures !(0 <= index < |xs|) ==> r == xs
  {
    if xs == [] then []
    else
      var init, last := xs[..|xs| - 1], xs[|xs| - 1];
      var r := WithoutIndex(init, index) + (if index == |xs| - 1 then [] else [last]);
      assert xs == init + [last];
      if 0 <= index < |xs| - 1 then
        assert init[..index] == xs[..index] && init[index + 1..] + [last] == xs[index + 1..];
        r
      else r
  }

  /** Removing the entry at a position lowers the list's total by that entry's amount. */
  lemma WithoutIndexSum(xs: seq<Entry>, index: int)
    ensures 0 <= index < |xs| ==> Sum(WithoutIndex(xs, index)) == Sum(xs) - xs[index].amount
    ensures !(0 <= index < |xs|) ==> Sum(WithoutIndex(xs, index)) == Sum(xs)
  {
    if 0 <= index < |xs| {
      SumRemoveAt(xs, index);
    }
  }
}
