/**
 * The card of one day: the total it shows and how that total is labelled.
 */
module DayCard {
  import opened Folds
  import opened Records
  import MainPage

  /**
   * `finalTotal`: deposits less withdrawals on the operational tab, the
   * deposits alone on any other; an absent list adds nothing.
   */
  function FinalTotal(tab: Ledger, d: Day): (r: real)
    ensures tab != Operational ==> r == DayEntries(d)
    ensures d.entries.None? && (tab != Operational || d.withdrawals.None?) ==> r == 0.0
  {
    if tab == Operational then DayEntries(d) - DayWithdrawals(d) else DayEntries(d)
  }

  /** The colour class of the total. */
  datatype Sign = Positive | Negative

  /** The class and the prefix written before the amount. */
  datatype TotalLabel = TotalLabel(sign: Sign, prefix: string)

  function Label(total: real): (l: TotalLabel)
    ensures l.sign == Positive <==> total >= 0.0
    ensures l.prefix == "+" <==> l.sign == Positive
    ensures l.prefix == "" <==> l.sign == Negative
  {
    if total >= 0.0 then TotalLabel(Positive, "+") else TotalLabel(Negative, "")
  }

  /**
   * An operational card shows exactly that day's effect on the balance; a
   * personnel card shows the deposits only, so its effect on the balance
   * is the card's total less the personnel cost.
   */
  lemma CardAndBalance(d: Day)
    ensures FinalTotal(Operational, d) == MainPage.DayDelta(Operational, d)
    ensures FinalTotal(Personnel, d) - d.personnel == MainPage.DayDelta(Personnel, d)
    ensures FinalTotal(Personnel, d) == DayEntries(d)
  {
  }

  /** The operational cards add up to the movement of the operational balance. */
  lemma OperationalCardsSum(days: seq<Day>, initialBalance: real)
    ensures initialBalance + SumOver(days, d => FinalTotal(Operational, d))
         == MainPage.BalanceOf(Operational, MainPage.LedgerView(initialBalance, days))
  {
    SumOverAgree(days, d => FinalTotal(Operational, d), MainPage.Delta(Operational));
  }
}
