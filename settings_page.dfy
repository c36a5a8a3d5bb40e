/**
 * The settings page: two text boxes for the ledgers' initial balances,
 * filled from the settings hook once it has loaded, each accepting only
 * keystrokes that keep it a numeric draft.
 */
module SettingsPage {
  import opened Validation

  /** The text after an optional leading minus. */
  function Unsigned(s: string): (t: string)
    ensures |t| <= |s| && (t == s || t == s[1..])
  {
    if s != [] && s[0] == '-' then s[1..] else s
  }

  /** `\d*\.?\d*` matched in full: the digit run is followed by nothing, or by a point and digits. */
  predicate DigitsPointDigits(t: string) {
    var u := t[DigitRun(t)..];
    u == [] || (u[0] == '.' && AllDigits(u[1..]))
  }

  /**
   * `/^-?\d*\.?\d*$/`: an optional minus, digits, an optional point, digits.
   * The four parts use disjoint characters, so reading them greedily from
   * the left finds the match whenever there is one.
   */
  predicate NumericDraft(s: string) {
    DigitsPointDigits(Unsigned(s))
  }

  /** Only digits and '.', with at most one '.'. */
  ghost predicate BodyChars(t: string) {
    (forall i :: 0 <= i < |t| ==> IsDigit(t[i]) || t[i] == '.') &&
    (forall i, j :: 0 <= i < j < |t| && t[i] == '.' ==> t[j] != '.')
  }

  /**
   * The same language described character by character: only digits, '-'
   * and '.', a '-' only in front, and at most one '.'.
   */
  ghost predicate DraftChars(s: string) {
    (forall i :: 0 <= i < |s| ==> IsDigit(s[i]) || s[i] == '-' || s[i] == '.') &&
    (forall i :: 0 < i < |s| ==> s[i] != '-') &&
    (forall i, j :: 0 <= i < j < |s| && s[i] == '.' ==> s[j] != '.')
  }

  lemma SignSplit(s: string)
    ensures DraftChars(s) <==> BodyChars(Unsigned(s))
  {
    var t := Unsigned(s);
    if t != s {
      assert forall i :: 0 <= i < |t| ==> t[i] == s[i + 1];
      if BodyChars(t) {
        forall i, j | 0 <= i < j < |s| && s[i] == '.'
          ensures s[j] != '.'
        {
          assert i > 0 && t[i - 1] == '.' && s[j] == t[j - 1];
        }
      }
    }
  }

  lemma DigitsPointDigitsForward(t: string)
    requires DigitsPointDigits(t)
    ensures BodyChars(t)
  {
    var n := DigitRun(t);
    var u := t[n..];
    assert forall i :: 0 <= i < n ==> t[..n][i] == t[i];
    if u != [] {
      assert forall i :: n < i < |t| ==> t[i] == u[1..][i - n - 1];
      assert t[n] == '.';
    }
  }

  lemma DigitsPointDigitsBackward(t: string)
    requires BodyChars(t)
    ensures DigitsPointDigits(t)
  {
    var n := DigitRun(t);
    var u := t[n..];
    if u != [] {
      assert t[n] == u[0] == '.';
      assert forall i :: 0 <= i < |u[1..]| ==> u[1..][i] == t[n + 1 + i];
    }
  }

  /** A keystroke value is accepted exactly when it is a numeric draft character by character. */
  lemma NumericDraftIff(s: string)
    ensures NumericDraft(s) <==> DraftChars(s)
  {
    SignSplit(s);
    if NumericDraft(s) {
      DigitsPointDigitsForward(Unsigned(s));
    }
    if DraftChars(s) {
      DigitsPointDigitsBackward(Unsigned(s));
    }
  }

  /** The digit run of digits followed by a non-digit stops at the non-digit. */
  lemma {:induction false} DigitRunPrefix(a: string, b: string)
    requires AllDigits(a) && (b == [] || !IsDigit(b[0]))
    ensures DigitRun(a + b) == |a|
    decreases |a|
  {
    if a != [] {
      assert (a + b)[1..] == a[1..] + b;
      DigitRunPrefix(a[1..], b);
    }
  }

  /** Every number's text is a numeric draft: the boxes accept what the page fills in. */
  lemma NumberTextIsDraft(x: real)
    ensures NumericDraft(NumberText(x))
  {
    var y := if x < 0.0 then -x else x;
    var n := y.Floor;
    var tail := if y == n as real then [] else ['.'] + FractionText(y - n as real, 17);
    assert UnsignedText(y) == NatText(n) + tail;
    DigitRunPrefix(NatText(n), tail);
    assert UnsignedText(y)[|NatText(n)|..] == tail;
    if tail != [] {
      assert tail[1..] == FractionText(y - n as real, 17);
    }
    if x < 0.0 {
      assert NumberText(x)[1..] == UnsignedText(y);
    }
  }

  class SettingsForm {
    var personnelInput: string
    var operationalInput: string

    constructor ()
      ensures personnelInput == [] && operationalInput == []
    {
      personnelInput := [];
      operationalInput := [];
    }

    /** The effect that fills the boxes with the balances' text once loading has finished. */
    method Fill(loading: bool, personnelBalance: Value, operationalBalance: Value)
      requires personnelBalance.Number? || personnelBalance.Text?
      requires operationalBalance.Number? || operationalBalance.Text?
      modifies this
      ensures !loading ==> personnelInput == ValueText(personnelBalance) && operationalInput == ValueText(operationalBalance)
      ensures loading ==> personnelInput == old(personnelInput) && operationalInput == old(operationalInput)
    {
      if !loading {
        personnelInput := ValueText(personnelBalance);
        operationalInput := ValueText(operationalBalance);
      }
    }

    /** `handlePersonnelChange`: an accepted value replaces the personnel box; a rejected one is dropped. */
    method ChangePersonnel(value: string)
      modifies this
      ensures personnelInput == (if value == [] || NumericDraft(value) then value else old(personnelInput))
      ensures operationalInput == old(operationalInput)
      ensures personnelInput == old(personnelInput) || DraftChars(personnelInput)
    {
      NumericDraftIff(value);
      if value == [] || NumericDraft(value) {
        personnelInput := value;
      }
    }

    /** `handleOperationalChange`: the same filter, on the operational box only. */
    method ChangeOperational(value: string)
      modifies this
      ensures operationalInput == (if value == [] || NumericDraft(value) then value else old(operationalInput))
      ensures personnelInput == old(personnelInput)
      ensures operationalInput == old(operationalInput) || DraftChars(operationalInput)
    {
      NumericDraftIff(value);
      if value == [] || NumericDraft(value) {
        operationalInput := value;
      }
    }
  }
}
