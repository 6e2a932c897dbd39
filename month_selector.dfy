/**
 * The month selector of the dashboard (src/components/dashboard/MonthSelector.tsx):
 * previous and next copy the selected date and move the copy with `setMonth`, and the
 * next button is disabled while the current month is shown.
 */
module MonthSelectors {
  import opened Finance
  import opened FinanceStore

  /**
   * `Date.prototype.setMonth(m)` on a valid date: the month may lie outside 0..11 and
   * carries into the year; a day past the end of the target month runs on into the
   * month after it.
   */
  function SetMonthJs(d: Date, m: int): (r: Date)
    requires ValidDate(d)
    ensures ValidDate(r)
    ensures d.day <= DaysInMonth(d.year + m / 12, m % 12) ==> r == Date(d.year + m / 12, m % 12, d.day)
    ensures d.day > DaysInMonth(d.year + m / 12, m % 12) ==>
      MonthIndex(r) == d.year * 12 + m + 1 && r.day == d.day - DaysInMonth(d.year + m / 12, m % 12)
  {
    var year, month := d.year + m / 12, m % 12;
    var length := DaysInMonth(year, month);
    if d.day <= length then Date(year, month, d.day)
    else if month == 11 then Date(year + 1, 0, d.day - length)
    else Date(year, month + 1, d.day - length)
  }

  /** `goToPreviousMonth` as written: the day of month is kept. */
  function PreviousAsWritten(d: Date): Date
    requires ValidDate(d)
  {
    SetMonthJs(d, d.month - 1)
  }

  /** `goToNextMonth` as written. */
  function NextAsWritten(d: Date): Date
    requires ValidDate(d)
  {
    SetMonthJs(d, d.month + 1)
  }

  /**
   * Keeping the day breaks the buttons at the end of a month: "previous" from 31 March
   * stays in March (3 March), and "next" from 31 January skips February (3 March).
   */
  lemma KeptDayOverflows()
    ensures PreviousAsWritten(Date(2025, 2, 31)) == Date(2025, 2, 3)
    ensures MonthIndex(PreviousAsWritten(Date(2025, 2, 31))) == MonthIndex(Date(2025, 2, 31))
    ensures NextAsWritten(Date(2025, 0, 31)) == Date(2025, 2, 3)
    ensures MonthIndex(NextAsWritten(Date(2025, 0, 31))) == MonthIndex(Date(2025, 0, 31)) + 2
  {
    assert !IsLeapYear(2025);
  }

  /** On days every month has, the buttons as written do move by one month. */
  lemma AsWrittenMovesWhenDayFits(d: Date)
    requires ValidDate(d) && d.day <= 28
    ensures MonthIndex(PreviousAsWritten(d)) == MonthIndex(d) - 1
    ensures MonthIndex(NextAsWritten(d)) == MonthIndex(d) + 1
  {
  }

  /** `goToPreviousMonth` with the copy moved to the 1st before `setMonth`. */
  function Previous(d: Date): Date
    requires ValidDate(d)
  {
    SetMonthJs(d.(day := 1), d.month - 1)
  }

  /** `goToNextMonth` with the copy moved to the 1st before `setMonth`. */
  function Next(d: Date): Date
    requires ValidDate(d)
  {
    SetMonthJs(d.(day := 1), d.month + 1)
  }

  /**
   * Previous and next land on the 1st of the month just before and just after, rolling
   * the year over between December and January.
   */
  lemma PreviousNextMoveOneMonth(d: Date)
    requires ValidDate(d)
    ensures MonthIndex(Previous(d)) == MonthIndex(d) - 1 && Previous(d).day == 1
    ensures MonthIndex(Next(d)) == MonthIndex(d) + 1 && Next(d).day == 1
    ensures d.month == 0 ==> Previous(d).year == d.year - 1 && Previous(d).month == 11
    ensures d.month == 11 ==> Next(d).year == d.year + 1 && Next(d).month == 0
    ensures 0 < d.month ==> Previous(d).year == d.year
    ensures d.month < 11 ==> Next(d).year == d.year
  {
  }

  /** Next undoes previous and previous undoes next, up to the day of month. */
  lemma NextUndoesPrevious(d: Date)
    requires ValidDate(d)
    ensures MonthIndex(Next(Previous(d))) == MonthIndex(d)
    ensures MonthIndex(Previous(Next(d))) == MonthIndex(d)
  {
    PreviousNextMoveOneMonth(d);
    PreviousNextMoveOneMonth(Previous(d));
    PreviousNextMoveOneMonth(Next(d));
  }

  /** `isCurrentMonth`'s test: same month of the same year, whatever the days. */
  predicate SameMonth(a: Date, b: Date) {
    a.month == b.month && a.year == b.year
  }

  /** On valid dates the test is equality of month indices. */
  lemma SameMonthIsSameIndex(a: Date, b: Date)
    requires ValidDate(a) && ValidDate(b)
    ensures SameMonth(a, b) <==> MonthIndex(a) == MonthIndex(b)
  {
  }

  /** A JavaScript `Date` object, as far as its calendar day goes. */
  class JsDate {
    var year: int
    var month: int
    var day: int

    /** `new Date(d)`: a copy. */
    constructor (d: Date)
      ensures Value() == d
    {
      year, month, day := d.year, d.month, d.day;
    }

    function Value(): Date
      reads this
    {
      Date(year, month, day)
    }

    /** `setDate(n)`, for a day the month has. */
    method SetDate(n: int)
      requires 0 <= month < 12 && 1 <= n <= DaysInMonth(year, month)
      modifies this
      ensures Value() == old(Value()).(day := n)
    {
      day := n;
    }

    /** `setMonth(m)`. */
    method SetMonth(m: int)
      requires ValidDate(Value())
      modifies this
      ensures Value() == SetMonthJs(old(Value()), m)
    {
      var r := SetMonthJs(Value(), m);
      year, month, day := r.year, r.month, r.day;
    }
  }

  /** The selector, acting on the store's selected month through `onMonthChange`. */
  class MonthSelector {
    const store: Store

    constructor (store: Store)
      ensures this.store == store
    {
      this.store := store;
    }

    /** `isCurrentMonth()` against the clock's `now`. */
    predicate IsCurrentMonth(now: Date)
      reads this, store
    {
      SameMonth(store.selectedMonth, now)
    }

    /** The next button's `disabled`. */
    predicate NextDisabled(now: Date)
      reads this, store
    {
      IsCurrentMonth(now)
    }

    /** `goToPreviousMonth`, with the day moved to the 1st first. */
    method GoToPreviousMonth()
      requires ValidDate(store.selectedMonth)
      modifies store
      ensures store.selectedMonth == Previous(old(store.selectedMonth))
      ensures MonthIndex(store.selectedMonth) == MonthIndex(old(store.selectedMonth)) - 1
      ensures store.transactions == old(store.transactions) && store.categories == old(store.categories)
      ensures store.paymentMethods == old(store.paymentMethods)
    {
      var newDate := new JsDate(store.selectedMonth);
      newDate.SetDate(1);
      newDate.SetMonth(newDate.month - 1);
      PreviousNextMoveOneMonth(store.selectedMonth);
      store.SetSelectedMonth(newDate.Value());
    }

    /** `goToNextMonth`, with the day moved to the 1st first. */
    method GoToNextMonth()
      requires ValidDate(store.selectedMonth)
      modifies store
      ensures store.selectedMonth == Next(old(store.selectedMonth))
      ensures MonthIndex(store.selectedMonth) == MonthIndex(old(store.selectedMonth)) + 1
      ensures store.transactions == old(store.transactions) && store.categories == old(store.categories)
      ensures store.paymentMethods == old(store.paymentMethods)
    {
      var newDate := new JsDate(store.selectedMonth);
      newDate.SetDate(1);
      newDate.SetMonth(newDate.month + 1);
      PreviousNextMoveOneMonth(store.selectedMonth);
      store.SetSelectedMonth(newDate.Value());
    }

    /** `goToCurrentMonth`: the selection becomes `now`, which disables the next button. */
    method GoToCurrentMonth(now: Date)
      modifies store
      ensures store.selectedMonth == now
      ensures NextDisabled(now)
      ensures store.transactions == old(store.transactions) && store.categories == old(store.categories)
      ensures store.paymentMethods == old(store.paymentMethods)
    {
      store.SetSelectedMonth(now);
    }
  }

  /** From any month up to the current one, pressing next enough times reaches it and disables the button. */
  lemma {:induction false} NextReachesCurrent(d: Date, now: Date, k: nat)
    requires ValidDate(d) && ValidDate(now) && MonthIndex(now) == MonthIndex(d) + k
    ensures MonthIndex(Iterate(d, k)) == MonthIndex(now)
    ensures SameMonth(Iterate(d, k), now)
    decreases k
  {
    if k > 0 {
      PreviousNextMoveOneMonth(d);
      NextReachesCurrent(Next(d), now, k - 1);
    } else {
      SameMonthIsSameIndex(d, now);
    }
  }

  /** The selection after pressing next `k` times. */
  function Iterate(d: Date, k: nat): (r: Date)
    requires ValidDate(d)
    ensures ValidDate(r)
    decreases k
  {
    if k == 0 then d else Iterate(Next(d), k - 1)
  }
}
