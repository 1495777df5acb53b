/**
 * The expense page (ExpenseManagement.tsx): the expenses of the selected
 * month, their total, their display order, the category choices and the
 * entry form's state.
 */
module ExpenseManagement {
  import opened Domain
  import opened Aggregation
  import opened DateUtils
  import opened Sorting
  import opened FormEntry

  /** `expenses.filter(expense => expense.date?.startsWith(selectedMonth))`. */
  function ShownExpenses(expenses: seq<Expense>, selectedMonth: string): (shown: seq<Expense>)
    ensures forall x :: multiset(shown)[x] == if InMonth(x.date, selectedMonth) then multiset(expenses)[x] else 0
  {
    forall x ensures multiset(ExpensesOfMonth(expenses, selectedMonth))[x]
                     == if InMonth(x.date, selectedMonth) then multiset(expenses)[x] else 0 {
      ExpensesOfMonthExactly(expenses, selectedMonth, x);
    }
    ExpensesOfMonth(expenses, selectedMonth)
  }

  /** The total above the list: the amounts of the shown expenses, a missing amount counting 0. */
  function PageTotal(expenses: seq<Expense>, selectedMonth: string): (total: int)
    ensures total == MonthExpenseSum(expenses, selectedMonth)
  {
    MonthExpenseTotal(expenses, selectedMonth);
    TotalExpense(ShownExpenses(expenses, selectedMonth))
  }

  /** The options of the category select (ExpenseManagement.tsx:164-168). */
  const CategoryChoices: seq<string> := ["pakan", "perawatan", "peralatan", "gaji", "lainnya"]

  /**
   * The choices are exactly the report's five buckets, so an expense whose
   * category was picked from them lands in a bucket, and when every expense
   * of the month was, the buckets add up to the month's total.
   */
  lemma ChoicesAreReportBuckets(expenses: seq<Expense>, month: string)
    ensures forall c :: c in CategoryChoices <==> c in ExpenseByCategory(expenses).Keys
    ensures (forall k :: 0 <= k < |ShownExpenses(expenses, month)| ==>
               IsCategory(ShownExpenses(expenses, month)[k].category))
            ==> BucketTotal(BuildReport(month, [], expenses).expenseByCategory) == PageTotal(expenses, month)
  {
    assert CategoryChoices == Categories;
    var shown := ShownExpenses(expenses, month);
    if forall k :: 0 <= k < |shown| ==> IsCategory(shown[k].category) {
      BucketsCoverTotal(shown);
    }
  }

  /** The page shows the same expenses and the same total as the server's monthly report. */
  lemma PageAgreesWithReport(incomes: seq<Income>, expenses: seq<Expense>, month: string)
    ensures ShownExpenses(expenses, month) == BuildReport(month, incomes, expenses).expenses
    ensures PageTotal(expenses, month) == BuildReport(month, incomes, expenses).totalExpense
  {
  }

  function ExpenseDate(e: Expense): string {
    e.date.GetOr("")
  }

  /** `shown.sort((a, b) => new Date(b.date) - new Date(a.date))`: newest first. */
  method DisplayOrder(shown: seq<Expense>) returns (rows: seq<Expense>)
    ensures multiset(rows) == multiset(shown)
    ensures Descending(rows, ExpenseDate)
  {
    var a := new Expense[|shown|](k requires 0 <= k < |shown| => shown[k]);
    assert a[..] == shown;
    SortDescending(a, ExpenseDate);
    rows := a[..];
  }

  /** The add-expense form. */
  class ExpenseForm {
    var date: string
    var category: string
    var amount: Entry
    var quantity: Entry
    var unitPrice: Entry
    var description: string

    /**
     * The total shows quantity times unit price, as the label under it promises
     * ("Otomatis dihitung dari Jumlah × Harga Satuan"). The total input is
     * read-only, so every change the user can make keeps this.
     */
    ghost predicate AmountTracks()
      reads this
    {
      amount == AutoAmount(quantity, unitPrice)
    }

    /** A blank form dated today in WIB (ExpenseManagement.tsx:33-40). */
    constructor (now: int)
      requires FourDigitYear(ShiftToWib(now))
      ensures date == CurrentDateWib(now) && category == "" && description == ""
      ensures amount == Blank && quantity == Blank && unitPrice == Blank
      ensures AmountTracks()
    {
      date := CurrentDateWib(now);
      category := "";
      amount := Blank;
      quantity := Blank;
      unitPrice := Blank;
      description := "";
    }

    /** Choosing another month dates the form on the first of that month and changes nothing else. */
    method SelectMonth(month: string)
      modifies this
      ensures date == month + "-01"
      ensures category == old(category) && description == old(description)
      ensures amount == old(amount) && quantity == old(quantity) && unitPrice == old(unitPrice)
      ensures old(AmountTracks()) ==> AmountTracks()
    {
      date := month + "-01";
    }

    /** Typing a quantity recomputes the total. */
    method SetQuantity(q: Entry)
      modifies this
      ensures quantity == q && amount == AutoAmount(q, old(unitPrice)) && AmountTracks()
      ensures date == old(date) && category == old(category) && description == old(description)
      ensures unitPrice == old(unitPrice)
    {
      quantity := q;
      amount := AutoAmount(quantity, unitPrice);
    }

    /** Typing a unit price recomputes the total. */
    method SetUnitPrice(p: Entry)
      modifies this
      ensures unitPrice == p && amount == AutoAmount(old(quantity), p) && AmountTracks()
      ensures date == old(date) && category == old(category) && description == old(description)
      ensures quantity == old(quantity)
    {
      unitPrice := p;
      amount := AutoAmount(quantity, unitPrice);
    }

    /** Resetting after a save: a blank form dated today in WIB (ExpenseManagement.tsx:74-81). */
    method Reset(now: int)
      requires FourDigitYear(ShiftToWib(now))
      modifies this
      ensures date == CurrentDateWib(now) && category == "" && description == ""
      ensures amount == Blank && quantity == Blank && unitPrice == Blank
      ensures AmountTracks()
    {
      date := CurrentDateWib(now);
      category := "";
      amount := Blank;
      quantity := Blank;
      unitPrice := Blank;
      description := "";
    }
  }

  /**
   * Opening the page: the form starts dated today, and the `[selectedMonth]`
   * effect then runs after the first render with the current WIB month, so
   * the date the user first sees is the first of this month (ExpenseManagement.tsx:31-50).
   */
  method OpenForm(now: int) returns (form: ExpenseForm)
    requires FourDigitYear(ShiftToWib(now))
    ensures fresh(form)
    ensures form.date == CurrentMonthWib(now) + "-01"
    ensures form.category == "" && form.description == ""
    ensures form.amount == Blank && form.quantity == Blank && form.unitPrice == Blank
    ensures form.AmountTracks()
  {
    form := new ExpenseForm(now);
    form.SelectMonth(CurrentMonthWib(now));
  }
}
