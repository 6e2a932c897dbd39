/**
 * The entities of the finance tracker (src/types/finance.ts) as values, plus the
 * calendar facts the model needs about them.  The source's field `type` is spelled
 * `kind` here, because `type` is a Dafny keyword.
 */
module Finance {
  import opened Options

  datatype TransactionType = Income | Expense
  datatype ExpenseType = Fixed | Variable
  datatype PaymentMethodType = CreditCard | Cash | BankAccount

  datatype Category = Category(
    id: string,
    name: string,
    icon: string,
    expenseType: Option<ExpenseType>,
    kind: TransactionType)

  datatype PaymentMethod = PaymentMethod(
    id: string,
    name: string,
    kind: PaymentMethodType,
    limit: Option<real>,
    closingDay: Option<int>,
    dueDay: Option<int>)

  /** One receipt line; `totalPrice` is meant to be max(0, quantity * unitPrice - discount). */
  datatype TransactionItem = TransactionItem(
    id: string,
    name: string,
    quantity: real,
    unitPrice: real,
    discount: Option<real>,
    totalPrice: real,
    categoryId: Option<string>)

  /** A calendar day as the source reads it back: full year, month 0..11 (`getMonth`), day 1..31. */
  datatype Date = Date(year: int, month: int, day: int)

  datatype Transaction = Transaction(
    id: string,
    description: string,
    amount: real,
    kind: TransactionType,
    date: Date,
    categoryId: string,
    paymentMethodId: string,
    notes: Option<string>,
    items: Option<seq<TransactionItem>>)

  datatype MonthlyBalance = MonthlyBalance(income: real, expenses: real, balance: real)

  datatype CategoryExpense = CategoryExpense(
    categoryId: string,
    categoryName: string,
    categoryIcon: string,
    amount: real,
    percentage: real,
    color: string)

  /** A list of chart colours; the chart cycles through it, so it is never empty. */
  type Palette = s: seq<string> | |s| > 0 witness [""]

  /** The chart palette of src/data/initialData.ts. */
  const ChartColors: Palette := [
    "hsl(173, 58%, 39%)", "hsl(199, 89%, 48%)", "hsl(262, 83%, 58%)", "hsl(38, 92%, 50%)",
    "hsl(0, 72%, 51%)", "hsl(152, 69%, 40%)", "hsl(326, 78%, 48%)", "hsl(20, 90%, 48%)",
    "hsl(47, 96%, 53%)", "hsl(221, 83%, 53%)"]

  function IdOfTransaction(t: Transaction): string { t.id }

  function IdOfCategory(c: Category): string { c.id }

  function IdOfMethod(m: PaymentMethod): string { m.id }

  /** The test of `categories.find(c => c.id === id)`. */
  function CategoryWithId(id: string): Category -> bool {
    (c: Category) => c.id == id
  }

  /** The test of `paymentMethods.find(m => m.id === id)`. */
  function MethodWithId(id: string): PaymentMethod -> bool {
    (m: PaymentMethod) => m.id == id
  }

  // ------------------------------------------------------------- calendar

  predicate IsLeapYear(year: int) {
    (year % 4 == 0 && year % 100 != 0) || year % 400 == 0
  }

  /** Length of month `month` (0..11) of the Gregorian calendar. */
  function DaysInMonth(year: int, month: int): (n: int)
    requires 0 <= month < 12
    ensures 28 <= n <= 31
    ensures n == 31 <==> month in {0, 2, 4, 6, 7, 9, 11}
    ensures month == 1 ==> (n == 29 <==> IsLeapYear(year))
  {
    if month == 1 then (if IsLeapYear(year) then 29 else 28)
    else if month in {3, 5, 8, 10} then 30
    else 31
  }

  predicate ValidDate(d: Date) {
    0 <= d.month < 12 && 1 <= d.day <= DaysInMonth(d.year, d.month)
  }

  /** Months since year 0: consecutive calendar months have consecutive indices. */
  function MonthIndex(d: Date): int {
    d.year * 12 + d.month
  }

  /** A number that orders valid dates like their timestamps (`getTime`) order their days. */
  function DateKey(d: Date): real {
    (MonthIndex(d) * 32 + d.day) as real
  }

  /** Lexicographic (year, month, day) order on dates. */
  predicate Before(a: Date, b: Date) {
    a.year < b.year || (a.year == b.year && (a.month < b.month || (a.month == b.month && a.day < b.day)))
  }

  /** On valid dates, comparing keys is comparing days on the calendar. */
  lemma DateKeyOrder(a: Date, b: Date)
    requires ValidDate(a) && ValidDate(b)
    ensures DateKey(a) < DateKey(b) <==> Before(a, b)
    ensures DateKey(a) == DateKey(b) <==> a == b
  {
    var ka, kb := MonthIndex(a) * 32 + a.day, MonthIndex(b) * 32 + b.day;
    if a.year < b.year {
      assert MonthIndex(a) + 1 <= MonthIndex(b);
    } else if a.year > b.year {
      assert MonthIndex(b) + 1 <= MonthIndex(a);
    }
  }
}
