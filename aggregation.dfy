/**
 * The arithmetic of the server's monthly report and profit-sharing handlers
 * (index.tsx), written as the filter / reduce / map expressions the source
 * uses. The client pages reuse the same selections and totals.
 *
 * The callbacks the source passes to `filter` and `reduce` are named
 * functions that return a closure (`IncomeInMonth(month)`, `TypeTerm(t)`, ...), so
 * that the same callback is one and the same term in every contract.
 */
module Aggregation {
  import opened Domain

  // ---------------------------------------------------------------------
  // Generic filter and sums (Array.prototype.filter / reduce)
  // ---------------------------------------------------------------------

  /** `xs.filter(keep)`. */
  function Filter<T>(xs: seq<T>, keep: T -> bool): (r: seq<T>)
    ensures |r| <= |xs|
    ensures forall k :: 0 <= k < |r| ==> keep(r[k])
  {
    if xs == [] then []
    else (if keep(xs[0]) then [xs[0]] else []) + Filter(xs[1..], keep)
  }

  /** The filter keeps exactly the elements `keep` accepts, each as often as it occurs. */
  lemma {:induction false} FilterCount<T>(xs: seq<T>, keep: T -> bool, x: T)
    ensures multiset(Filter(xs, keep))[x] == if keep(x) then multiset(xs)[x] else 0
  {
    if xs != [] {
      FilterCount(xs[1..], keep, x);
      assert xs == [xs[0]] + xs[1..];
    }
  }

  lemma {:induction false} FilterAppend<T>(xs: seq<T>, ys: seq<T>, keep: T -> bool)
    ensures Filter(xs + ys, keep) == Filter(xs, keep) + Filter(ys, keep)
  {
    if xs == [] {
      assert xs + ys == ys;
    } else {
      assert (xs + ys)[1..] == xs[1..] + ys;
      FilterAppend(xs[1..], ys, keep);
    }
  }

  /** A filter that keeps every element is the identity. */
  lemma {:induction false} FilterKeepsAll<T>(xs: seq<T>, keep: T -> bool)
    requires forall k :: 0 <= k < |xs| ==> keep(xs[k])
    ensures Filter(xs, keep) == xs
  {
    if xs != [] {
      FilterKeepsAll(xs[1..], keep);
    }
  }

  /** Filters whose tests agree on every element keep the same elements. */
  lemma {:induction false} FilterSame<T>(xs: seq<T>, keep: T -> bool, keep': T -> bool)
    requires forall k :: 0 <= k < |xs| ==> keep(xs[k]) == keep'(xs[k])
    ensures Filter(xs, keep) == Filter(xs, keep')
  {
    if xs != [] {
      FilterSame(xs[1..], keep, keep');
    }
  }

  /** `xs.reduce((sum, x) => sum + f(x), 0)` over integers. */
  function SumBy<T>(xs: seq<T>, f: T -> int): int {
    if xs == [] then 0 else f(xs[0]) + SumBy(xs[1..], f)
  }

  /** `xs.reduce((sum, x) => sum + f(x), 0)` over reals. */
  function RealSumBy<T>(xs: seq<T>, f: T -> real): real {
    if xs == [] then 0.0 else f(xs[0]) + RealSumBy(xs[1..], f)
  }

  lemma {:induction false} SumByAppend<T>(xs: seq<T>, ys: seq<T>, f: T -> int)
    ensures SumBy(xs + ys, f) == SumBy(xs, f) + SumBy(ys, f)
  {
    if xs == [] {
      assert xs + ys == ys;
    } else {
      assert (xs + ys)[1..] == xs[1..] + ys;
      SumByAppend(xs[1..], ys, f);
    }
  }

  /** A sum does not depend on the order of its terms. */
  lemma {:induction false} SumByPermutation<T>(xs: seq<T>, ys: seq<T>, f: T -> int)
    requires multiset(xs) == multiset(ys)
    ensures SumBy(xs, f) == SumBy(ys, f)
  {
    if xs == [] {
      assert |multiset(ys)| == 0;
    } else {
      assert xs == [xs[0]] + xs[1..];
      assert xs[0] in multiset(ys);
      var j :| 0 <= j < |ys| && ys[j] == xs[0];
      var rest := RemoveAt(ys, j, f);
      var before, after := multiset(xs[1..]), multiset(rest);
      assert before + multiset{xs[0]} == after + multiset{xs[0]} by {
        assert multiset(xs) == before + multiset{xs[0]};
      }
      forall e ensures before[e] == after[e] {
        assert (before + multiset{xs[0]})[e] == (after + multiset{xs[0]})[e];
      }
      assert before == after;
      SumByPermutation(xs[1..], rest, f);
    }
  }

  /** `ys` without its element at `j`: the rest of its terms and of its sum. */
  function RemoveAt<T>(ys: seq<T>, j: int, f: T -> int): (rest: seq<T>)
    requires 0 <= j < |ys|
    ensures multiset(ys) == multiset(rest) + multiset{ys[j]}
    ensures SumBy(ys, f) == f(ys[j]) + SumBy(rest, f)
  {
    assert ys == ys[..j] + ([ys[j]] + ys[j + 1..]);
    SumByAppend(ys[..j], [ys[j]] + ys[j + 1..], f);
    SumByAppend(ys[..j], ys[j + 1..], f);
    assert ([ys[j]] + ys[j + 1..])[1..] == ys[j + 1..];
    ys[..j] + ys[j + 1..]
  }

  lemma {:induction false} RealSumByAppend<T>(xs: seq<T>, ys: seq<T>, f: T -> real)
    ensures RealSumBy(xs + ys, f) == RealSumBy(xs, f) + RealSumBy(ys, f)
  {
    if xs == [] {
      assert xs + ys == ys;
    } else {
      assert (xs + ys)[1..] == xs[1..] + ys;
      RealSumByAppend(xs[1..], ys, f);
    }
  }

  /** `f` restricted to the elements `keep` accepts, 0 elsewhere. */
  function Masked<T>(keep: T -> bool, f: T -> int): T -> int {
    x => if keep(x) then f(x) else 0
  }

  function RealMasked<T>(keep: T -> bool, f: T -> real): T -> real {
    x => if keep(x) then f(x) else 0.0
  }

  /** Summing the kept elements is summing every element with the rejected ones counted as 0. */
  lemma {:induction false} SumByFilter<T>(xs: seq<T>, keep: T -> bool, f: T -> int)
    ensures SumBy(Filter(xs, keep), f) == SumBy(xs, Masked(keep, f))
  {
    if xs != [] {
      SumByFilter(xs[1..], keep, f);
      SumByAppend(if keep(xs[0]) then [xs[0]] else [], Filter(xs[1..], keep), f);
    }
  }

  lemma {:induction false} RealSumByFilter<T>(xs: seq<T>, keep: T -> bool, f: T -> real)
    ensures RealSumBy(Filter(xs, keep), f) == RealSumBy(xs, RealMasked(keep, f))
  {
    if xs != [] {
      RealSumByFilter(xs[1..], keep, f);
      RealSumByAppend(if keep(xs[0]) then [xs[0]] else [], Filter(xs[1..], keep), f);
    }
  }

  // ---------------------------------------------------------------------
  // Month selection and totals (index.tsx:472-477, 543-549)
  // ---------------------------------------------------------------------

  /** `date?.startsWith(month)`: a record without a date never belongs to a month. */
  predicate InMonth(date: Option<string>, month: string) {
    date.Some? && StartsWith(date.value, month)
  }

  function IncomeAmount(i: Income): int { AmountOf(i.amount) }

  function ExpenseAmount(e: Expense): int { AmountOf(e.amount) }

  function IncomeInMonth(month: string): Income -> bool {
    (i: Income) => InMonth(i.date, month)
  }

  function ExpenseInMonth(month: string): Expense -> bool {
    (e: Expense) => InMonth(e.date, month)
  }

  function IncomesOfMonth(incomes: seq<Income>, month: string): seq<Income> {
    Filter(incomes, IncomeInMonth(month))
  }

  function ExpensesOfMonth(expenses: seq<Expense>, month: string): seq<Expense> {
    Filter(expenses, ExpenseInMonth(month))
  }

  function TotalIncome(incomes: seq<Income>): int { SumBy(incomes, IncomeAmount) }

  function TotalExpense(expenses: seq<Expense>): int { SumBy(expenses, ExpenseAmount) }

  /** The month's incomes are exactly the incomes dated in that month, each as often as stored. */
  lemma IncomesOfMonthExactly(incomes: seq<Income>, month: string, x: Income)
    ensures multiset(IncomesOfMonth(incomes, month))[x] == if InMonth(x.date, month) then multiset(incomes)[x] else 0
    ensures x in IncomesOfMonth(incomes, month) <==> x in incomes && InMonth(x.date, month)
  {
    FilterCount(incomes, IncomeInMonth(month), x);
  }

  /** The month's expenses are exactly the expenses dated in that month, each as often as stored. */
  lemma ExpensesOfMonthExactly(expenses: seq<Expense>, month: string, x: Expense)
    ensures multiset(ExpensesOfMonth(expenses, month))[x] == if InMonth(x.date, month) then multiset(expenses)[x] else 0
    ensures x in ExpensesOfMonth(expenses, month) <==> x in expenses && InMonth(x.date, month)
  {
    FilterCount(expenses, ExpenseInMonth(month), x);
  }

  /** Reference definition: each income's amount if it is dated in `month`, else 0, summed. */
  function MonthIncomeSum(incomes: seq<Income>, month: string): int {
    if incomes == [] then 0
    else (if InMonth(incomes[0].date, month) then AmountOf(incomes[0].amount) else 0)
         + MonthIncomeSum(incomes[1..], month)
  }

  function MonthExpenseSum(expenses: seq<Expense>, month: string): int {
    if expenses == [] then 0
    else (if InMonth(expenses[0].date, month) then AmountOf(expenses[0].amount) else 0)
         + MonthExpenseSum(expenses[1..], month)
  }

  /** Filtering by month and then summing equals summing the month's amounts directly. */
  lemma {:induction false} MonthIncomeTotal(incomes: seq<Income>, month: string)
    ensures TotalIncome(IncomesOfMonth(incomes, month)) == MonthIncomeSum(incomes, month)
  {
    SumByFilter(incomes, IncomeInMonth(month), IncomeAmount);
    MaskedIncomeSum(incomes, month);
  }

  lemma {:induction false} MaskedIncomeSum(incomes: seq<Income>, month: string)
    ensures SumBy(incomes, Masked(IncomeInMonth(month), IncomeAmount)) == MonthIncomeSum(incomes, month)
  {
    if incomes != [] {
      MaskedIncomeSum(incomes[1..], month);
    }
  }

  lemma {:induction false} MonthExpenseTotal(expenses: seq<Expense>, month: string)
    ensures TotalExpense(ExpensesOfMonth(expenses, month)) == MonthExpenseSum(expenses, month)
  {
    SumByFilter(expenses, ExpenseInMonth(month), ExpenseAmount);
    MaskedExpenseSum(expenses, month);
  }

  lemma {:induction false} MaskedExpenseSum(expenses: seq<Expense>, month: string)
    ensures SumBy(expenses, Masked(ExpenseInMonth(month), ExpenseAmount)) == MonthExpenseSum(expenses, month)
  {
    if expenses != [] {
      MaskedExpenseSum(expenses[1..], month);
    }
  }

  // ---------------------------------------------------------------------
  // Income by livestock type (index.tsx:552-558)
  // ---------------------------------------------------------------------

  /** `if (type)`: only a present, non-empty type opens a bucket. */
  predicate HasType(i: Income) {
    i.livestockType.Some? && i.livestockType.value != ""
  }

  /** The amount an income adds to the bucket of type `t`. */
  function TypeTerm(t: string): Income -> int {
    (i: Income) => if i.livestockType == Some(t) then IncomeAmount(i) else 0
  }

  /** The sum of the amounts of the incomes of type `t`. */
  function TypeSum(incomes: seq<Income>, t: string): int {
    SumBy(incomes, TypeTerm(t))
  }

  /** The non-empty types that occur among the incomes. */
  function Types(incomes: seq<Income>): (types: set<string>)
    ensures forall t :: t in types ==> t != ""
  {
    if incomes == [] then {}
    else (if HasType(incomes[0]) then {incomes[0].livestockType.value} else {}) + Types(incomes[1..])
  }

  /** A type has a bucket exactly when some income carries it and it is not empty. */
  lemma {:induction false} TypesExactly(incomes: seq<Income>, t: string)
    ensures t in Types(incomes) <==> t != "" && exists k :: 0 <= k < |incomes| && incomes[k].livestockType == Some(t)
  {
    if incomes != [] {
      TypesExactly(incomes[1..], t);
      if exists k :: 0 <= k < |incomes| && incomes[k].livestockType == Some(t) {
        var k :| 0 <= k < |incomes| && incomes[k].livestockType == Some(t);
        if k > 0 { assert incomes[1..][k - 1] == incomes[k]; }
      }
      if exists k :: 0 <= k < |incomes[1..]| && incomes[1..][k].livestockType == Some(t) {
        var k :| 0 <= k < |incomes[1..]| && incomes[1..][k].livestockType == Some(t);
        assert incomes[k + 1] == incomes[1..][k];
      }
    }
  }

  /**
   * The dictionary the report's forEach builds, defined by what it holds: one
   * key per non-empty type that occurs, mapped to that type's sum.
   */
  function TypeTotals(incomes: seq<Income>): (byType: map<string, int>)
    ensures byType.Keys == Types(incomes)
    ensures forall t :: t in byType ==> byType[t] == TypeSum(incomes, t)
  {
    map t | t in Types(incomes) :: TypeSum(incomes, t)
  }

  /** A type that no income carries sums to 0. */
  lemma {:induction false} TypeSumAbsent(incomes: seq<Income>, t: string)
    requires t !in Types(incomes) && t != ""
    ensures TypeSum(incomes, t) == 0
  {
    if incomes != [] {
      TypeSumAbsent(incomes[1..], t);
    }
  }

  lemma {:induction false} TypesSnoc(incomes: seq<Income>, x: Income)
    ensures Types(incomes + [x]) == Types(incomes) + (if HasType(x) then {x.livestockType.value} else {})
  {
    if incomes == [] {
      assert incomes + [x] == [x];
    } else {
      assert (incomes + [x])[1..] == incomes[1..] + [x];
      TypesSnoc(incomes[1..], x);
    }
  }

  /** Appending an income with a type adds its amount to that type's entry, opening it at 0. */
  lemma {:induction false} TypeTotalsSnoc(incomes: seq<Income>, x: Income)
    requires HasType(x)
    ensures var t := x.livestockType.value;
            var before := TypeTotals(incomes);
            TypeTotals(incomes + [x]) == before[t := (if t in before then before[t] else 0) + IncomeAmount(x)]
  {
    var before, after := TypeTotals(incomes), TypeTotals(incomes + [x]);
    var u := x.livestockType.value;
    var expected := before[u := (if u in before then before[u] else 0) + IncomeAmount(x)];
    TypesSnoc(incomes, x);
    assert after.Keys == expected.Keys;
    forall t | t in after ensures after[t] == expected[t] {
      TypeSumSnoc(incomes, x, t);
      if t == u && u !in before {
        TypeSumAbsent(incomes, u);
      }
    }
  }

  /** Appending an income without a type leaves the dictionary as it was. */
  lemma {:induction false} UntypedSnoc(incomes: seq<Income>, x: Income)
    requires !HasType(x)
    ensures TypeTotals(incomes + [x]) == TypeTotals(incomes)
  {
    var before, after := TypeTotals(incomes), TypeTotals(incomes + [x]);
    TypesSnoc(incomes, x);
    assert after.Keys == before.Keys;
    forall t | t in after ensures after[t] == before[t] {
      TypeSumSnoc(incomes, x, t);
    }
  }

  lemma {:induction false} TypeSumSnoc(incomes: seq<Income>, x: Income, t: string)
    ensures TypeSum(incomes + [x], t) == TypeSum(incomes, t) + (if x.livestockType == Some(t) then IncomeAmount(x) else 0)
  {
    SumByAppend(incomes, [x], TypeTerm(t));
  }

  /** An income without a type counts toward the total but falls in no type bucket. */
  lemma UntypedIncomeInNoBucket(incomes: seq<Income>, x: Income)
    requires !HasType(x)
    ensures TypeTotals(incomes + [x]) == TypeTotals(incomes)
    ensures TotalIncome(incomes + [x]) == TotalIncome(incomes) + AmountOf(x.amount)
  {
    UntypedSnoc(incomes, x);
    SumByAppend(incomes, [x], IncomeAmount);
  }

  /**
   * The report's forEach loop: for each income with a type, add its amount
   * (missing = 0) to that type's entry, starting the entry at 0.
   */
  method IncomeByType(incomes: seq<Income>) returns (byType: map<string, int>)
    ensures byType == TypeTotals(incomes)
  {
    byType := map[];
    var i := 0;
    while i < |incomes|
      invariant 0 <= i <= |incomes|
      invariant byType == TypeTotals(incomes[..i])
    {
      var income := incomes[i];
      assert incomes[..i + 1] == incomes[..i] + [income];
      if income.livestockType.Some? && income.livestockType.value != "" {
        TypeTotalsSnoc(incomes[..i], income);
        var t := income.livestockType.value;
        var current := if t in byType then byType[t] else 0;
        byType := byType[t := current + AmountOf(income.amount)];
      } else {
        UntypedSnoc(incomes[..i], income);
      }
      i := i + 1;
    }
    assert incomes[..i] == incomes;
  }

  // ---------------------------------------------------------------------
  // Expenses by category (index.tsx:561-567)
  // ---------------------------------------------------------------------

  /** The five fixed expense categories, in the order the report lists them. */
  const Categories: seq<string> := ["pakan", "perawatan", "peralatan", "gaji", "lainnya"]

  predicate IsCategory(c: Option<string>) {
    c.Some? && c.value in Categories
  }

  function HasCategory(c: string): Expense -> bool {
    (e: Expense) => e.category == Some(c)
  }

  /** `expenses.filter(e => e.category === c).reduce(...)`. */
  function CategorySum(expenses: seq<Expense>, c: string): int {
    TotalExpense(Filter(expenses, HasCategory(c)))
  }

  /** The report's `expenseByCategory`: always exactly the five category keys. */
  function ExpenseByCategory(expenses: seq<Expense>): (buckets: map<string, int>)
    ensures buckets.Keys == set c | c in Categories
    ensures forall c :: c in buckets ==> buckets[c] == CategorySum(expenses, c)
  {
    map c | c in Categories :: CategorySum(expenses, c)
  }

  function BucketTotal(buckets: map<string, int>): int
    requires forall c :: c in Categories ==> c in buckets
  {
    buckets["pakan"] + buckets["perawatan"] + buckets["peralatan"] + buckets["gaji"] + buckets["lainnya"]
  }

  function FiveSums(expenses: seq<Expense>): int {
    CategorySum(expenses, "pakan") + CategorySum(expenses, "perawatan") + CategorySum(expenses, "peralatan")
    + CategorySum(expenses, "gaji") + CategorySum(expenses, "lainnya")
  }

  lemma {:induction false} FiveSumsCoverTotal(expenses: seq<Expense>)
    requires forall k :: 0 <= k < |expenses| ==> IsCategory(expenses[k].category)
    ensures FiveSums(expenses) == TotalExpense(expenses)
  {
    if expenses != [] {
      var e := expenses[0];
      assert IsCategory(e.category);
      FiveSumsCoverTotal(expenses[1..]);
      forall c | c in Categories
        ensures CategorySum(expenses, c)
                == (if e.category == Some(c) then ExpenseAmount(e) else 0) + CategorySum(expenses[1..], c)
      {
        assert Filter(expenses, HasCategory(c))
               == (if HasCategory(c)(e) then [e] else []) + Filter(expenses[1..], HasCategory(c));
        SumByAppend(if HasCategory(c)(e) then [e] else [], Filter(expenses[1..], HasCategory(c)), ExpenseAmount);
      }
    }
  }

  /** When every expense uses one of the five categories, the buckets add up to the total expense. */
  lemma BucketsCoverTotal(expenses: seq<Expense>)
    requires forall k :: 0 <= k < |expenses| ==> IsCategory(expenses[k].category)
    ensures BucketTotal(ExpenseByCategory(expenses)) == TotalExpense(expenses)
  {
    FiveSumsCoverTotal(expenses);
  }

  /** An expense with any other category is counted only in the total. */
  lemma OtherCategoryOnlyInTotal(expenses: seq<Expense>, x: Expense)
    requires !IsCategory(x.category)
    ensures ExpenseByCategory(expenses + [x]) == ExpenseByCategory(expenses)
    ensures TotalExpense(expenses + [x]) == TotalExpense(expenses) + AmountOf(x.amount)
  {
    forall c | c in Categories
      ensures CategorySum(expenses + [x], c) == CategorySum(expenses, c)
    {
      FilterAppend(expenses, [x], HasCategory(c));
      assert Filter([x], HasCategory(c)) == [];
      assert Filter(expenses + [x], HasCategory(c)) == Filter(expenses, HasCategory(c));
    }
    SumByAppend(expenses, [x], ExpenseAmount);
  }

  // ---------------------------------------------------------------------
  // The monthly report (index.tsx:533-578)
  // ---------------------------------------------------------------------

  datatype MonthlyReport = MonthlyReport(
    month: string,
    totalIncome: int,
    totalExpense: int,
    profit: int,
    incomeByType: map<string, int>,
    expenseByCategory: map<string, int>,
    incomes: seq<Income>,
    expenses: seq<Expense>)

  /** The report body for `month` over the scanned incomes and expenses. */
  function BuildReport(month: string, incomes: seq<Income>, expenses: seq<Expense>): (r: MonthlyReport)
    ensures r.month == month
    ensures r.totalIncome == MonthIncomeSum(incomes, month)
    ensures r.totalExpense == MonthExpenseSum(expenses, month)
    ensures r.profit == r.totalIncome - r.totalExpense
    ensures r.incomes == IncomesOfMonth(incomes, month) && r.expenses == ExpensesOfMonth(expenses, month)
    ensures r.incomeByType == TypeTotals(r.incomes)
    ensures r.expenseByCategory == ExpenseByCategory(r.expenses)
  {
    var monthIncomes := IncomesOfMonth(incomes, month);
    var monthExpenses := ExpensesOfMonth(expenses, month);
    var totalIncome := TotalIncome(monthIncomes);
    var totalExpense := TotalExpense(monthExpenses);
    MonthIncomeTotal(incomes, month);
    MonthExpenseTotal(expenses, month);
    MonthlyReport(month, totalIncome, totalExpense, totalIncome - totalExpense,
                  TypeTotals(monthIncomes), ExpenseByCategory(monthExpenses),
                  monthIncomes, monthExpenses)
  }

  // ---------------------------------------------------------------------
  // Profit sharing (index.tsx:472-497)
  // ---------------------------------------------------------------------

  /** `p.percentage || 0`. */
  function PercentageOf(p: Partner): real { p.percentage.GetOr(0.0) }

  /** The sum of the partners' percentages, a missing percentage counting as 0 (ProfitSharing.tsx:104). */
  function PercentageTotal(partners: seq<Partner>): real {
    RealSumBy(partners, PercentageOf)
  }

  /** `(profit * partner.percentage) / 100`; NaN (a missing percentage) is `None`. */
  function ShareOf(profit: int, p: Partner): Share {
    Share(p.id, p.name, p.percentage,
          if p.percentage.Some? then Some(profit as real * p.percentage.value / 100.0) else None)
  }

  /** `partners.map(...)`: one share per partner, in partner order. */
  function Shares(profit: int, partners: seq<Partner>): (shares: seq<Share>)
    ensures |shares| == |partners|
    ensures forall k :: 0 <= k < |partners| ==>
              shares[k].partnerId == partners[k].id && shares[k].partnerName == partners[k].name
              && shares[k].percentage == partners[k].percentage
              && (partners[k].percentage.Some? <==> shares[k].amount.Some?)
              && (partners[k].percentage.Some? ==>
                    shares[k].amount.value == profit as real * partners[k].percentage.value / 100.0)
  {
    if partners == [] then []
    else [ShareOf(profit, partners[0])] + Shares(profit, partners[1..])
  }

  function ShareAmount(s: Share): real { s.amount.GetOr(0.0) }

  function ShareTotal(shares: seq<Share>): real { RealSumBy(shares, ShareAmount) }

  /** The shares add up to the profit scaled by the total percentage. */
  lemma {:induction false} SharesScale(profit: int, partners: seq<Partner>)
    requires forall k :: 0 <= k < |partners| ==> partners[k].percentage.Some?
    ensures ShareTotal(Shares(profit, partners)) == profit as real * PercentageTotal(partners) / 100.0
  {
    if partners != [] {
      SharesScale(profit, partners[1..]);
      var p := partners[0].percentage.value;
      var rest := PercentageTotal(partners[1..]);
      assert ShareTotal(Shares(profit, partners))
             == profit as real * p / 100.0 + ShareTotal(Shares(profit, partners[1..]));
      assert profit as real * p / 100.0 + profit as real * rest / 100.0 == profit as real * (p + rest) / 100.0;
    }
  }

  /** When the percentages add up to 100, the shares add up to the profit. */
  lemma SharesSumToProfit(profit: int, partners: seq<Partner>)
    requires forall k :: 0 <= k < |partners| ==> partners[k].percentage.Some?
    requires PercentageTotal(partners) == 100.0
    ensures ShareTotal(Shares(profit, partners)) == profit as real
  {
    SharesScale(profit, partners);
  }

  /** The record stored under `profitsharing:<month>`. */
  function ProfitSharingOf(month: string, incomes: seq<Income>, expenses: seq<Expense>,
                           partners: seq<Partner>, calculatedAt: string): (ps: ProfitSharing)
    ensures ps.id == "profitsharing:" + month && ps.month == month && ps.calculatedAt == calculatedAt
    ensures ps.totalIncome == MonthIncomeSum(incomes, month)
    ensures ps.totalExpense == MonthExpenseSum(expenses, month)
    ensures ps.profit == ps.totalIncome - ps.totalExpense
    ensures ps.shares == Shares(ps.profit, partners)
  {
    var report := BuildReport(month, incomes, expenses);
    ProfitSharing("profitsharing:" + month, month, report.totalIncome, report.totalExpense, report.profit,
                  Shares(report.profit, partners), calculatedAt)
  }
}
