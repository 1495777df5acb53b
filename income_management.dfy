/**
 * The income page (IncomeManagement.tsx): the incomes of the selected month,
 * their total, their display order, and the entry form's state.
 */
module IncomeManagement {
  import opened Domain
  import opened Aggregation
  import opened DateUtils
  import opened Sorting
  import opened FormEntry

  /** `incomes.filter(income => income.date?.startsWith(selectedMonth))`. */
  function ShownIncomes(incomes: seq<Income>, selectedMonth: string): (shown: seq<Income>)
    ensures forall x :: multiset(shown)[x] == if InMonth(x.date, selectedMonth) then multiset(incomes)[x] else 0
  {
    forall x ensures multiset(IncomesOfMonth(incomes, selectedMonth))[x]
                     == if InMonth(x.date, selectedMonth) then multiset(incomes)[x] else 0 {
      IncomesOfMonthExactly(incomes, selectedMonth, x);
    }
    IncomesOfMonth(incomes, selectedMonth)
  }

  /** The total above the list: the amounts of the shown incomes, a missing amount counting 0. */
  function PageTotal(incomes: seq<Income>, selectedMonth: string): (total: int)
    ensures total == MonthIncomeSum(incomes, selectedMonth)
  {
    MonthIncomeTotal(incomes, selectedMonth);
    TotalIncome(ShownIncomes(incomes, selectedMonth))
  }

  /** The page shows the same incomes and the same total as the server's monthly report. */
  lemma PageAgreesWithReport(incomes: seq<Income>, expenses: seq<Expense>, month: string)
    ensures ShownIncomes(incomes, month) == BuildReport(month, incomes, expenses).incomes
    ensures PageTotal(incomes, month) == BuildReport(month, incomes, expenses).totalIncome
  {
  }

  function IncomeDate(i: Income): string {
    i.date.GetOr("")
  }

  /** `shown.sort((a, b) => new Date(b.date) - new Date(a.date))`: newest first. */
  method DisplayOrder(shown: seq<Income>) returns (rows: seq<Income>)
    ensures multiset(rows) == multiset(shown)
    ensures Descending(rows, IncomeDate)
  {
    var a := new Income[|shown|](k requires 0 <= k < |shown| => shown[k]);
    assert a[..] == shown;
    SortDescending(a, IncomeDate);
    rows := a[..];
  }

  /** The add-income form; `livestockType` is the form's `type` field. */
  class IncomeForm {
    var date: string
    var livestockType: string
    var amount: Entry
    var quantity: Entry
    var unitPrice: Entry
    var description: string

    /**
     * The total shows quantity times unit price, as the label under it promises
     * ("Otomatis dihitung dari Jumlah × Harga Satuan"). The total input is
     * read-only, so every change the user can make keeps this.
     */
    ghost predicate AmountTracks()
      reads this
    {
      amount == AutoAmount(quantity, unitPrice)
    }

    /** A blank form dated today in WIB (IncomeManagement.tsx:41-48). */
    constructor (now: int)
      requires FourDigitYear(ShiftToWib(now))
      ensures date == CurrentDateWib(now) && livestockType == "" && description == ""
      ensures amount == Blank && quantity == Blank && unitPrice == Blank
      ensures AmountTracks()
    {
      date := CurrentDateWib(now);
      livestockType := "";
      amount := Blank;
      quantity := Blank;
      unitPrice := Blank;
      description := "";
    }

    /** Choosing another month dates the form on the first of that month and changes nothing else. */
    method SelectMonth(month: string)
      modifies this
      ensures date == month + "-01"
      ensures livestockType == old(livestockType) && description == old(description)
      ensures amount == old(amount) && quantity == old(quantity) && unitPrice == old(unitPrice)
      ensures old(AmountTracks()) ==> AmountTracks()
    {
      date := month + "-01";
    }

    /** Typing a quantity recomputes the total. */
    method SetQuantity(q: Entry)
      modifies this
      ensures quantity == q && amount == AutoAmount(q, old(unitPrice)) && AmountTracks()
      ensures date == old(date) && livestockType == old(livestockType) && description == old(description)
      ensures unitPrice == old(unitPrice)
    {
      quantity := q;
      amount := AutoAmount(quantity, unitPrice);
    }

    /** Typing a unit price recomputes the total. */
    method SetUnitPrice(p: Entry)
      modifies this
      ensures unitPrice == p && amount == AutoAmount(old(quantity), p) && AmountTracks()
      ensures date == old(date) && livestockType == old(livestockType) && description == old(description)
      ensures quantity == old(quantity)
    {
      unitPrice := p;
      amount := AutoAmount(quantity, unitPrice);
    }

    /** Resetting after a save: a blank form dated today in WIB (IncomeManagement.tsx:106-113). */
    method Reset(now: int)
      requires FourDigitYear(ShiftToWib(now))
      modifies this
      ensures date == CurrentDateWib(now) && livestockType == "" && description == ""
      ensures amount == Blank && quantity == Blank && unitPrice == Blank
      ensures AmountTracks()
    {
      date := CurrentDateWib(now);
      livestockType := "";
      amount := Blank;
      quantity := Blank;
      unitPrice := Blank;
      description := "";
    }
  }

  /**
   * Opening the page: the form starts dated today, and the `[selectedMonth]`
   * effect then runs after the first render with the current WIB month, so
   * the date the user first sees is the first of this month (IncomeManagement.tsx:39-72).
   */
  method OpenForm(now: int) returns (form: IncomeForm)
    requires FourDigitYear(ShiftToWib(now))
    ensures fresh(form)
    ensures form.date == CurrentMonthWib(now) + "-01"
    ensures form.livestockType == "" && form.description == ""
    ensures form.amount == Blank && form.quantity == Blank && form.unitPrice == Blank
    ensures form.AmountTracks()
  {
    form := new IncomeForm(now);
    form.SelectMonth(CurrentMonthWib(now));
  }
}
