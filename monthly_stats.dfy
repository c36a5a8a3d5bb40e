/**
 * Monthly statistics of one ledger: the days of the selected month, their
 * income, expenses and net result, and the month navigation.
 */
module MonthlyStats {
  import opened Optional
  import opened Folds
  import opened Records
  import opened Validation
  import MainPage

  // ------------------------------------------------------------------ dates

  /** A calendar date as written in a date string; the month runs 1..12. */
  datatype CalendarDate = CalendarDate(year: nat, month: nat, day: nat)

  /** `new Date("YYYY-MM-DD")` read back field by field; any other text is an invalid date. */
  function ParseDate(s: string): (r: Option<CalendarDate>)
    ensures r.Some? ==> 1 <= r.value.month <= 12 && 1 <= r.value.day <= 31
    ensures r.Some? ==> |s| == 10 && s[4] == '-' && s[7] == '-'
  {
    if |s| == 10 && s[4] == '-' && s[7] == '-' && AllDigits(s[..4]) && AllDigits(s[5..7]) && AllDigits(s[8..]) then
      var y, m, d := DigitsValue(s[..4]), DigitsValue(s[5..7]), DigitsValue(s[8..]);
      if 1 <= m <= 12 && 1 <= d <= 31 then Some(CalendarDate(y, m, d)) else None
    else None
  }

  /** n written with exactly two digits. */
  function TwoDigits(n: nat): (s: string)
    requires n < 100
    ensures |s| == 2 && AllDigits(s) && DigitsValue(s) == n
  {
    var s := [DigitChar(n / 10), DigitChar(n % 10)];
    assert s[..1] == [DigitChar(n / 10)] && s[..1][..0] == [];
    assert DigitsValue(s[..1]) == n / 10;
    s
  }

  /** n written with exactly four digits. */
  function FourDigits(n: nat): (s: string)
    requires n < 10000
    ensures |s| == 4 && AllDigits(s) && DigitsValue(s) == n
  {
    var hi, lo := TwoDigits(n / 100), TwoDigits(n % 100);
    DigitsAppend2(hi, lo);
    hi + lo
  }

  lemma DigitsAppend2(hi: string, lo: string)
    requires |hi| == 2 && |lo| == 2 && AllDigits(hi) && AllDigits(lo)
    ensures AllDigits(hi + lo) && DigitsValue(hi + lo) == 100 * DigitsValue(hi) + DigitsValue(lo)
  {
    var s := hi + lo;
    assert s[..3][..2] == hi && s[..3][2] == lo[0] && s[3] == lo[1];
    assert lo[..1] == [lo[0]] && lo[..1][..0] == [];
    assert DigitsValue(lo[..1]) == DigitValue(lo[0]);
    assert DigitsValue(s) == 10 * DigitsValue(s[..3]) + DigitValue(lo[1]);
    assert DigitsValue(s[..3]) == 10 * DigitsValue(hi) + DigitValue(lo[0]);
    assert DigitsValue(lo) == 10 * DigitValue(lo[0]) + DigitValue(lo[1]);
  }

  /** The date string a day is written with. */
  function DateText(c: CalendarDate): string
    requires c.year < 10000 && c.month < 100 && c.day < 100
  {
    FourDigits(c.year) + "-" + TwoDigits(c.month) + "-" + TwoDigits(c.day)
  }

  /** Every valid date string written by the app reads back as its date. */
  lemma ParseDateText(c: CalendarDate)
    requires c.year < 10000 && 1 <= c.month <= 12 && 1 <= c.day <= 31
    ensures ParseDate(DateText(c)) == Some(c)
  {
    var s := DateText(c);
    assert s[..4] == FourDigits(c.year);
    assert s[5..7] == TwoDigits(c.month);
    assert s[8..] == TwoDigits(c.day);
  }

  // ----------------------------------------------------------------- months

  type MonthIndex = m: int | 0 <= m < 12

  /** `selectedMonth` as (getFullYear(), getMonth()): the month counts from 0. */
  datatype Month = Month(year: int, month: MonthIndex)

  /** Months counted from year 0, so that consecutive months differ by one. */
  function Ordinal(m: Month): int {
    m.year * 12 + m.month
  }

  lemma OrdinalInjective(a: Month, b: Month)
    ensures Ordinal(a) == Ordinal(b) <==> a == b
  {
  }

  /** `goToNextMonth`: one month on, December rolling over to January of the next year. */
  function Next(m: Month): (r: Month)
    ensures Ordinal(r) == Ordinal(m) + 1
  {
    if m.month == 11 then Month(m.year + 1, 0) else Month(m.year, m.month + 1)
  }

  /** `goToPreviousMonth`: one month back, January rolling back to December of the year before. */
  function Previous(m: Month): (r: Month)
    ensures Ordinal(r) == Ordinal(m) - 1
  {
    if m.month == 0 then Month(m.year - 1, 11) else Month(m.year, m.month - 1)
  }

  lemma NavigationInverse(m: Month)
    ensures Previous(Next(m)) == m && Next(Previous(m)) == m
  {
    OrdinalInjective(Previous(Next(m)), m);
    OrdinalInjective(Next(Previous(m)), m);
  }

  /** `isCurrentMonth`: the selected month and year are today's. */
  function IsCurrentMonth(selected: Month, today: Month): (b: bool)
    ensures b <==> Ordinal(selected) == Ordinal(today)
  {
    OrdinalInjective(selected, today);
    selected.month == today.month && selected.year == today.year
  }

  // ------------------------------------------------------------------ stats

  /** The day's date string falls in the selected month; a day with an invalid date falls in none. */
  function InMonth(d: Day, sel: Month): (b: bool)
    ensures b ==> ParseDate(d.dateString).Some? && sel.year >= 0
    ensures b ==> |d.dateString| == 10 && d.dateString[4] == '-' && d.dateString[7] == '-'
  {
    var c := ParseDate(d.dateString);
    c.Some? && c.value.year == sel.year && c.value.month - 1 == sel.month
  }

  /** A day with a valid date falls in exactly one month; any other day in none. */
  lemma DayInOneMonth(d: Day, a: Month, b: Month)
    ensures InMonth(d, a) && InMonth(d, b) ==> a == b
    ensures ParseDate(d.dateString).Some? ==>
      InMonth(d, Month(ParseDate(d.dateString).value.year, ParseDate(d.dateString).value.month - 1))
    ensures ParseDate(d.dateString).None? ==> !InMonth(d, a)
  {
  }

  /** `monthDays`: the days of the selected month, in order. */
  function MonthDays(days: seq<Day>, sel: Month): (r: seq<Day>)
    ensures forall d :: d in r <==> d in days && InMonth(d, sel)
    ensures |r| <= |days|
  {
    if days == [] then []
    else MonthDays(days[..|days| - 1], sel) + (if InMonth(days[|days| - 1], sel) then [days[|days| - 1]] else [])
  }

  datatype MonthStats = MonthStats(totalIncome: real, totalExpenses: real, netProfit: real, daysCount: nat)

  /**
   * `monthStats`: income is the entries of the month's days; expenses are
   * their `personnelEntries` on the personnel ledger and their withdrawals
   * otherwise. The scalar `personnel` cost is not an expense here.
   */
  function ComputeStats(days: seq<Day>, t: Ledger, sel: Month): (s: MonthStats)
    ensures s.netProfit == s.totalIncome - s.totalExpenses
    ensures s.daysCount == |MonthDays(days, sel)|
    ensures s.totalIncome == EntriesTotal(MonthDays(days, sel))
    ensures s.totalExpenses == if t == Personnel then SumOver(MonthDays(days, sel), DayPersonnelEntries)
                               else SumOver(MonthDays(days, sel), DayWithdrawals)
  {
    var monthDays := MonthDays(days, sel);
    var income := EntriesTotal(monthDays);
    var expenses := if t == Personnel then SumOver(monthDays, DayPersonnelEntries) else SumOver(monthDays, DayWithdrawals);
    MonthStats(income, expenses, income - expenses, |monthDays|)
  }

  /** f on the days of the selected month, 0 on every other day. */
  function InMonthOnly(sel: Month, f: Day -> real): Day -> real {
    (d: Day) => if InMonth(d, sel) then f(d) else 0.0
  }

  /** A sum over the month's days is a sum over all the days that counts only that month. */
  lemma {:induction false} SumInMonth(days: seq<Day>, sel: Month, f: Day -> real)
    ensures SumOver(MonthDays(days, sel), f) == SumOver(days, InMonthOnly(sel, f))
    decreases |days|
  {
    if days != [] {
      var init, last := days[..|days| - 1], days[|days| - 1];
      SumInMonth(init, sel, f);
      var tail := if InMonth(last, sel) then [last] else [];
      SumOverConcat(MonthDays(init, sel), tail, f);
      if tail != [] {
        SumOverSingle(last, f);
      }
    }
  }

  /**
   * The month's income is every day's entry total counted only inside the
   * month; its expenses are the personnel-cost entries (personnel ledger) or
   * the withdrawals (operational ledger) counted the same way.
   */
  lemma MonthTotalsOverAllDays(days: seq<Day>, t: Ledger, sel: Month)
    ensures ComputeStats(days, t, sel).totalIncome == SumOver(days, InMonthOnly(sel, DayEntries))
    ensures t == Personnel ==> ComputeStats(days, t, sel).totalExpenses == SumOver(days, InMonthOnly(sel, DayPersonnelEntries))
    ensures t == Operational ==> ComputeStats(days, t, sel).totalExpenses == SumOver(days, InMonthOnly(sel, DayWithdrawals))
  {
    SumInMonth(days, sel, DayEntries);
    SumInMonth(days, sel, DayPersonnelEntries);
    SumInMonth(days, sel, DayWithdrawals);
  }

  /** On the operational ledger the month's net result is the month's share of the balance movement. */
  lemma OperationalNetIsBalanceMovement(days: seq<Day>, sel: Month)
    ensures ComputeStats(days, Operational, sel).netProfit == SumOver(MonthDays(days, sel), MainPage.Delta(Operational))
  {
    MainPage.OperationalBalance(MonthDays(days, sel));
  }

  /** The days with their scalar personnel cost cleared. */
  function ClearCosts(days: seq<Day>): (r: seq<Day>)
    ensures |r| == |days|
  {
    if days == [] then [] else ClearCosts(days[..|days| - 1]) + [days[|days| - 1].(personnel := 0.0)]
  }

  lemma {:induction false} MonthDaysClearCosts(days: seq<Day>, sel: Month)
    ensures MonthDays(ClearCosts(days), sel) == ClearCosts(MonthDays(days, sel))
    decreases |days|
  {
    if days != [] {
      var init, last := days[..|days| - 1], days[|days| - 1];
      MonthDaysClearCosts(init, sel);
      var cleared := ClearCosts(days);
      assert cleared[..|cleared| - 1] == ClearCosts(init);
      assert cleared[|cleared| - 1] == last.(personnel := 0.0);
      assert InMonth(last.(personnel := 0.0), sel) == InMonth(last, sel);
      if InMonth(last, sel) {
        var md := MonthDays(init, sel) + [last];
        assert md[..|md| - 1] == MonthDays(init, sel);
        assert ClearCosts(md) == ClearCosts(MonthDays(init, sel)) + [last.(personnel := 0.0)];
        assert MonthDays(days, sel) == md;
        assert MonthDays(cleared, sel) == MonthDays(ClearCosts(init), sel) + [last.(personnel := 0.0)];
      } else {
        var a, b := MonthDays(ClearCosts(init), sel), MonthDays(init, sel);
        assert MonthDays(cleared, sel) == a + [] == a;
        assert MonthDays(days, sel) == b + [] == b;
      }
    }
  }

  lemma {:induction false} SumClearCosts(days: seq<Day>, f: Day -> real)
    requires forall d: Day :: f(d.(personnel := 0.0)) == f(d)
    ensures SumOver(ClearCosts(days), f) == SumOver(days, f)
    decreases |days|
  {
    if days != [] {
      SumClearCosts(days[..|days| - 1], f);
      var cleared := ClearCosts(days);
      assert cleared[..|cleared| - 1] == ClearCosts(days[..|days| - 1]);
    }
  }

  /** The scalar personnel cost never changes the monthly statistics, on either ledger. */
  lemma CostsIgnored(days: seq<Day>, t: Ledger, sel: Month)
    ensures ComputeStats(ClearCosts(days), t, sel) == ComputeStats(days, t, sel)
  {
    MonthDaysClearCosts(days, sel);
    var md := MonthDays(days, sel);
    SumClearCosts(md, DayEntries);
    SumClearCosts(md, DayPersonnelEntries);
    SumClearCosts(md, DayWithdrawals);
  }

  /** With no days in the month every figure is 0. */
  lemma EmptyMonth(days: seq<Day>, t: Ledger, sel: Month)
    requires forall d :: d in days ==> !InMonth(d, sel)
    ensures ComputeStats(days, t, sel) == MonthStats(0.0, 0.0, 0.0, 0)
  {
    var md := MonthDays(days, sel);
    assert forall i :: 0 <= i < |md| ==> md[i] in md;
  }
}
