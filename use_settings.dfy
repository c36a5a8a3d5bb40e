/**
 * The settings hook: both ledgers' initial balances, loaded together and
 * saved together, with the `loading` and `saving` flags around them.
 */
module UseSettings {
  import opened Records
  import opened Validation
  import opened SettingsStore

  /** What `saveSettings` ends in; only `SavedBoth` returns true. */
  datatype SettingsSave = PersonnelInvalid | OperationalInvalid | SaveError | SavedBoth

  /**
   * The collection after a save whose personnel write succeeded or not and
   * whose operational write (attempted only after a successful personnel
   * write) succeeded or not.
   */
  function SavedDocs(docs: seq<SettingDoc>, personnelAmount: real, operationalAmount: real,
                     personnelWriteOk: bool, operationalWriteOk: bool): seq<SettingDoc> {
    if !personnelWriteOk then docs
    else
      var afterPersonnel := PutDocs(docs, Personnel, personnelAmount);
      if !operationalWriteOk then afterPersonnel else PutDocs(afterPersonnel, Operational, operationalAmount)
  }

  /**
   * After a complete save the next load reads both amounts back; after a
   * save whose operational write failed the store holds the new personnel
   * balance beside the old operational one.
   */
  lemma SavedDocsLoad(docs: seq<SettingDoc>, pa: real, oa: real, pOk: bool, oOk: bool)
    ensures pOk && oOk ==> FirstBalance(SavedDocs(docs, pa, oa, pOk, oOk), Personnel) == Number(pa)
    ensures pOk && oOk ==> FirstBalance(SavedDocs(docs, pa, oa, pOk, oOk), Operational) == Number(oa)
    ensures pOk && !oOk ==> FirstBalance(SavedDocs(docs, pa, oa, pOk, oOk), Personnel) == Number(pa)
    ensures pOk && !oOk ==> FirstBalance(SavedDocs(docs, pa, oa, pOk, oOk), Operational) == FirstBalance(docs, Operational)
    ensures !pOk ==> SavedDocs(docs, pa, oa, pOk, oOk) == docs
  {
    var mid := PutDocs(docs, Personnel, pa);
    PutThenLoad(docs, Personnel, pa, Operational);
    PutThenLoad(mid, Operational, oa, Personnel);
  }

  class SettingsHook {
    var personnelInitialBalance: Value
    var operationalInitialBalance: Value
    var loading: bool
    var saving: bool

    /** Both balances are numbers or texts, so the settings page can write them out. */
    ghost predicate Valid()
      reads this
    {
      (personnelInitialBalance.Number? || personnelInitialBalance.Text?) &&
      (operationalInitialBalance.Number? || operationalInitialBalance.Text?)
    }

    constructor ()
      ensures Valid() && loading && !saving
      ensures personnelInitialBalance == Number(0.0) && operationalInitialBalance == Number(0.0)
    {
      personnelInitialBalance := Number(0.0);
      operationalInitialBalance := Number(0.0);
      loading := true;
      saving := false;
    }

    /**
     * `loadSettings`: personnel is read first, then operational; a ledger
     * without a document keeps its balance, and a failed read stops the
     * load, keeping what was already set. Loading ends false on every path.
     */
    method Load(store: SettingsCollection?, personnelReadOk: bool, operationalReadOk: bool)
      requires Valid()
      modifies this
      ensures Valid() && !loading && saving == old(saving)
      ensures store != null && personnelReadOk && FirstOfKind(store.docs, Personnel).Some?
        ==> personnelInitialBalance == FirstBalance(store.docs, Personnel)
      ensures !(store != null && personnelReadOk && FirstOfKind(store.docs, Personnel).Some?)
        ==> personnelInitialBalance == old(personnelInitialBalance)
      ensures store != null && personnelReadOk && operationalReadOk && FirstOfKind(store.docs, Operational).Some?
        ==> operationalInitialBalance == FirstBalance(store.docs, Operational)
      ensures !(store != null && personnelReadOk && operationalReadOk && FirstOfKind(store.docs, Operational).Some?)
        ==> operationalInitialBalance == old(operationalInitialBalance)
    {
      if store == null {
        loading := false;
        return;
      }
      loading := true;
      if personnelReadOk {
        var p := FirstOfKind(store.docs, Personnel);
        if p.Some? {
          personnelInitialBalance := OrZero(store.docs[p.value].initialBalance);
        }
        if operationalReadOk {
          var o := FirstOfKind(store.docs, Operational);
          if o.Some? {
            operationalInitialBalance := OrZero(store.docs[o.value].initialBalance);
          }
        }
      }
      loading := false;
    }

    /**
     * `saveSettings`: the personnel value is checked first, then the
     * operational one, and neither failure touches anything. Then both are
     * written, personnel first, each by find-or-create; only when both
     * writes succeed do the local balances change. `saving` is false
     * afterwards on every path past validation.
     */
    method Save(store: SettingsCollection?, personnelValue: string, operationalValue: string,
                personnelWriteOk: bool, operationalWriteOk: bool) returns (r: SettingsSave)
      requires Valid()
      modifies this, store
      ensures Valid() && loading == old(loading)
      ensures r == PersonnelInvalid <==> !ValidateNumber(Text(personnelValue))
      ensures r == OperationalInvalid <==> ValidateNumber(Text(personnelValue)) && !ValidateNumber(Text(operationalValue))
      ensures r == SavedBoth <==>
        ValidateNumber(Text(personnelValue)) && ValidateNumber(Text(operationalValue)) &&
        store != null && personnelWriteOk && operationalWriteOk
      ensures r.PersonnelInvalid? || r.OperationalInvalid? ==> unchanged(this) && (store != null ==> unchanged(store))
      ensures !(r.PersonnelInvalid? || r.OperationalInvalid?) ==> !saving
      ensures r == SavedBoth ==>
        personnelInitialBalance == Number(SanitizeNumber(Text(personnelValue))) &&
        operationalInitialBalance == Number(SanitizeNumber(Text(operationalValue)))
      ensures r != SavedBoth ==>
        personnelInitialBalance == old(personnelInitialBalance) && operationalInitialBalance == old(operationalInitialBalance)
      ensures r.SaveError? && store != null ==>
        store.docs == SavedDocs(old(store.docs), SanitizeNumber(Text(personnelValue)), SanitizeNumber(Text(operationalValue)), personnelWriteOk, operationalWriteOk)
      ensures r.SavedBoth? ==>
        store.docs == SavedDocs(old(store.docs), SanitizeNumber(Text(personnelValue)), SanitizeNumber(Text(operationalValue)), true, true)
    {
      if !ValidateNumber(Text(personnelValue)) {
        return PersonnelInvalid;
      }
      if !ValidateNumber(Text(operationalValue)) {
        return OperationalInvalid;
      }
      var personnelAmount := SanitizeNumber(Text(personnelValue));
      var operationalAmount := SanitizeNumber(Text(operationalValue));
      saving := true;
      if store == null {
        saving := false;
        return SaveError;
      }
      var done := store.Put(Personnel, personnelAmount, personnelWriteOk);
      if !done {
        saving := false;
        return SaveError;
      }
      done := store.Put(Operational, operationalAmount, operationalWriteOk);
      if !done {
        saving := false;
        return SaveError;
      }
      Commit(personnelAmount, operationalAmount);
      r := SavedBoth;
    }

    /** Both writes done: the local balances take the saved amounts and saving ends. */
    method Commit(personnelAmount: real, operationalAmount: real)
      modifies this
      ensures Valid() && !saving && loading == old(loading)
      ensures personnelInitialBalance == Number(personnelAmount) && operationalInitialBalance == Number(operationalAmount)
    {
      personnelInitialBalance := Number(personnelAmount);
      operationalInitialBalance := Number(operationalAmount);
      saving := false;
    }
  }
}
