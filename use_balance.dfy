/**
 * The balance hook of one ledger: its initial balance as loaded, and the
 * edit box through which it is changed and written back.
 */
module UseBalance {
  import opened Records
  import opened Validation
  import opened SettingsStore

  class BalanceHook {
    const ledger: Ledger
    var initialBalance: Value
    var editingBalance: bool
    var balanceInput: string

    /** The balance held is always a number or a text, so it can be written out. */
    ghost predicate Valid()
      reads this
    {
      initialBalance.Number? || initialBalance.Text?
    }

    constructor (t: Ledger)
      ensures Valid() && ledger == t
      ensures initialBalance == Number(0.0) && !editingBalance && balanceInput == []
    {
      ledger := t;
      initialBalance := Number(0.0);
      editingBalance := false;
      balanceInput := [];
    }

    /**
     * `loadBalance`: without a store nothing happens; a failed read sets 0;
     * otherwise the first document of this ledger gives the balance.
     */
    method Load(store: SettingsCollection?, readOk: bool)
      requires Valid()
      modifies this
      ensures Valid()
      ensures store == null ==> initialBalance == old(initialBalance)
      ensures store != null && !readOk ==> initialBalance == Number(0.0)
      ensures store != null && readOk ==> initialBalance == FirstBalance(store.docs, ledger)
      ensures editingBalance == old(editingBalance) && balanceInput == old(balanceInput)
    {
      if store == null {
        return;
      }
      if !readOk {
        initialBalance := Number(0.0);
        return;
      }
      var at := FirstOfKind(store.docs, ledger);
      if at.Some? {
        initialBalance := OrZero(store.docs[at.value].initialBalance);
      } else {
        initialBalance := Number(0.0);
      }
    }

    /**
     * `saveBalance`: an invalid input is refused before the store is
     * touched; otherwise the sanitised amount is written by find-or-create
     * and, once that succeeds, becomes the balance and the edit box closes.
     * A missing store or a failed write leaves the hook as it was.
     */
    method Save(store: SettingsCollection?, writeOk: bool) returns (ok: bool)
      requires Valid()
      modifies this, store
      ensures Valid()
      ensures ok <==> ValidateNumber(Text(old(balanceInput))) && store != null && writeOk
      ensures ok ==> initialBalance == Number(SanitizeNumber(Text(old(balanceInput)))) && !editingBalance && balanceInput == []
      ensures ok ==> store.docs == PutDocs(old(store.docs), ledger, SanitizeNumber(Text(old(balanceInput))))
      ensures !ok ==> initialBalance == old(initialBalance) && editingBalance == old(editingBalance) && balanceInput == old(balanceInput)
      ensures !ok && store != null ==> store.docs == old(store.docs)
    {
      if !ValidateNumber(Text(balanceInput)) {
        return false;
      }
      var amount := SanitizeNumber(Text(balanceInput));
      if store == null {
        return false;
      }
      var done := store.Put(ledger, amount, writeOk);
      if !done {
        return false;
      }
      initialBalance := Number(amount);
      editingBalance := false;
      balanceInput := [];
      ok := true;
    }

    /** `cancelEdit`: the edit box closes and is emptied; the balance stays. */
    method CancelEdit()
      modifies this
      ensures !editingBalance && balanceInput == [] && initialBalance == old(initialBalance)
    {
      editingBalance := false;
      balanceInput := [];
    }

    /** `startEdit`: the edit box opens holding the balance's text. */
    method StartEdit()
      requires Valid()
      modifies this
      ensures Valid()
      ensures editingBalance && balanceInput == ValueText(old(initialBalance)) && initialBalance == old(initialBalance)
    {
      editingBalance := true;
      balanceInput := ValueText(initialBalance);
    }
  }

  /**
   * Opening the edit box and saving it untouched stores the same balance,
   * for any whole-number balance within the bounds.
   */
  lemma EditUntouchedRoundTrip(x: real)
    requires x == x.Floor as real && MinAmount <= x <= MaxAmount
    ensures ValidateNumber(Text(ValueText(Number(x))))
    ensures Number(SanitizeNumber(Text(ValueText(Number(x))))) == Number(x)
  {
    EditTextRoundTrip(x);
  }

  /** A balance saved by the hook is the one the next load reads, for this ledger, and the other ledger's is kept. */
  lemma SaveThenLoad(docs: seq<SettingDoc>, t: Ledger, input: string)
    requires ValidateNumber(Text(input))
    ensures FirstBalance(PutDocs(docs, t, SanitizeNumber(Text(input))), t) == Number(SanitizeNumber(Text(input)))
    ensures forall u: Ledger :: u != t ==> FirstBalance(PutDocs(docs, t, SanitizeNumber(Text(input))), u) == FirstBalance(docs, u)
  {
    var amount := SanitizeNumber(Text(input));
    PutThenLoad(docs, t, amount, t);
    forall u: Ledger | u != t
      ensures FirstBalance(PutDocs(docs, t, amount), u) == FirstBalance(docs, u)
    {
      PutThenLoad(docs, t, amount, u);
    }
  }
}
