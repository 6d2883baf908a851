/**
 * The monthly report: in-month income and expense totals, the total of
 * active subscriptions, the net, the per-category breakdown, the largest
 * expense and the average spending per day.
 */
module Reports {
  import opened Wrappers
  import opened Calendar
  import opened Entities
  import opened Tools
  import opened Lists
  import opened Queries

  /** One line of the breakdown: a category's in-month total and its share of all in-month expenses. */
  datatype CategoryShare = CategoryShare(category: Category, total: real, percent: real)

  datatype MonthlyReport = MonthlyReport(
    incomeTotal: real,
    expenseTotal: real,
    subscriptionTotal: real,
    net: real,
    breakdown: seq<CategoryShare>,
    largest: Option<Expense>,
    averagePerDay: real)

  /** Sum of MonthlyPrice over the active subscriptions; start dates play no part. */
  function ActiveTotal(v: seq<SubscriptionData>): (r: real)
    ensures (forall i :: 0 <= i < |v| ==> v[i].monthlyPrice > 0.0) ==>
              0.0 <= r && (r == 0.0 <==> forall i :: 0 <= i < |v| ==> !v[i].isActive)
  {
    if v == [] then 0.0
    else (if v[0].isActive then v[0].monthlyPrice else 0.0) + ActiveTotal(v[1..])
  }

  /** The report's subscription total over the subscriptions as they are now. */
  function ActiveSubscriptionTotal(subs: seq<Subscription>): (r: real)
    reads subs
    ensures (forall i :: 0 <= i < |subs| ==> subs[i].Valid()) ==>
              0.0 <= r && (r == 0.0 <==> forall i :: 0 <= i < |subs| ==> !subs[i].isActive)
  {
    ActiveTotal(Views(subs))
  }

  lemma {:induction false} ActiveTotalAppend(a: seq<SubscriptionData>, b: seq<SubscriptionData>)
    ensures ActiveTotal(a + b) == ActiveTotal(a) + ActiveTotal(b)
  {
    if a == [] {
      assert a + b == b;
    } else {
      assert (a + b)[0] == a[0];
      assert (a + b)[1..] == a[1..] + b;
      ActiveTotalAppend(a[1..], b);
    }
  }

  /** Toggling one subscription moves the active total by exactly its price. */
  lemma ToggleAtTotal(v: seq<SubscriptionData>, idx: int)
    requires 0 <= idx < |v|
    ensures ActiveTotal(ToggleAt(v, idx)) ==
            ActiveTotal(v) + (if v[idx].isActive then -v[idx].monthlyPrice else v[idx].monthlyPrice)
  {
    var r := ToggleAt(v, idx);
    ActiveTotalSplit(v, idx);
    ActiveTotalSplit(r, idx);
    assert r[..idx] == v[..idx];
    assert r[idx + 1..] == v[idx + 1..];
    assert [v[idx]][1..] == [] && [r[idx]][1..] == [];
  }

  /** The active total of a list is that of the entries before `idx`, plus entry `idx`, plus the rest. */
  lemma ActiveTotalSplit(v: seq<SubscriptionData>, idx: int)
    requires 0 <= idx < |v|
    ensures ActiveTotal(v) == ActiveTotal(v[..idx]) + ActiveTotal([v[idx]]) + ActiveTotal(v[idx + 1..])
  {
    assert v == v[..idx] + v[idx..];
    assert v[idx..] == [v[idx]] + v[idx + 1..];
    ActiveTotalAppend(v[..idx], v[idx..]);
    ActiveTotalAppend([v[idx]], v[idx + 1..]);
  }

  /**
   * The first expense of OrderByDescending(e => e.Amount), if any: it has the
   * largest amount, and no earlier expense in the list has that amount.
   */
  function LargestExpense(s: seq<Expense>): (r: Option<Expense>)
    ensures r.Some? <==> s != []
    ensures r.Some? ==> forall j :: 0 <= j < |s| ==> s[j].amount <= r.value.amount
    ensures r.Some? ==> exists k :: 0 <= k < |s| && s[k] == r.value &&
                                    forall j :: 0 <= j < k ==> s[j].amount < r.value.amount
  {
    if s == [] then None
    else
      SortDescHead(s, ExpenseAmount);
      Some(SortDesc(s, ExpenseAmount)[0])
  }

  function Share(s: seq<Expense>, c: Category, whole: real): CategoryShare
  {
    CategoryShare(c, CategoryTotal(s, c), Percent(CategoryTotal(s, c), whole))
  }

  /** One share per category, in declaration order. */
  function Breakdown(s: seq<Expense>, whole: real): (r: seq<CategoryShare>)
    ensures |r| == |AllCategories|
    ensures forall i :: 0 <= i < |r| ==> r[i] == Share(s, AllCategories[i], whole)
    ensures forall i :: 0 <= i < |r| ==> r[i].category == AllCategories[i]
  {
    seq(|AllCategories|, i requires 0 <= i < |AllCategories| => Share(s, AllCategories[i], whole))
  }

  /** SafeDivide(total, DaysInMonth(year, month)): the month's total spread evenly over its days. */
  function AveragePerDay(total: real, year: int, month: int): (r: real)
    requires 1 <= month <= 12
    ensures r * DaysInMonth(year, month) as real == total
    ensures 0.0 <= total ==> 0.0 <= r <= total
  {
    var days := DaysInMonth(year, month) as real;
    var r := SafeDivide(total, days);
    assert r * days == total;
    r
  }

  lemma MonthHasExpense(expenses: seq<Expense>, year: int, month: int)
    ensures ExpensesInMonth(expenses, year, month) != [] <==> exists e :: e in expenses && InMonth(e.date, year, month)
  {
    var s := ExpensesInMonth(expenses, year, month);
    if s != [] {
      assert s[0] in s;
    }
  }

  /** The report for a month given as a year and a month number. */
  function Report(incomes: seq<Income>, expenses: seq<Expense>, subs: seq<Subscription>, year: int, month: int): (r: MonthlyReport)
    reads subs
    requires 1 <= year <= 9999 && 1 <= month <= 12
    ensures r.incomeTotal == IncomeTotal(IncomesInMonth(incomes, year, month))
    ensures r.expenseTotal == ExpenseTotal(ExpensesInMonth(expenses, year, month))
    ensures r.net == r.incomeTotal - r.expenseTotal - r.subscriptionTotal
    ensures r.subscriptionTotal == ActiveSubscriptionTotal(subs)
    ensures r.averagePerDay == AveragePerDay(r.expenseTotal, year, month)
    ensures |r.breakdown| == |AllCategories|
    ensures forall i :: 0 <= i < |r.breakdown| ==> r.breakdown[i].category == AllCategories[i]
    ensures r.breakdown == Breakdown(ExpensesInMonth(expenses, year, month), r.expenseTotal)
    ensures r.largest == LargestExpense(ExpensesInMonth(expenses, year, month))
    ensures r.largest.Some? <==> exists e :: e in expenses && InMonth(e.date, year, month)
  {
    var inMonth := ExpensesInMonth(expenses, year, month);
    var inSum := IncomeTotal(IncomesInMonth(incomes, year, month));
    var exSum := ExpenseTotal(inMonth);
    var subsSum := ActiveSubscriptionTotal(subs);
    MonthHasExpense(expenses, year, month);
    MonthlyReport(inSum, exSum, subsSum, inSum - exSum - subsSum,
                  Breakdown(inMonth, exSum), LargestExpense(inMonth), AveragePerDay(exSum, year, month))
  }

  /**
   * Recording an income dated in the report's month raises the income total
   * and the net by its amount; one dated in another month changes nothing.
   */
  lemma AddedIncomeCounts(incomes: seq<Income>, expenses: seq<Expense>, subs: seq<Subscription>,
                          i: Income, year: int, month: int)
    requires 1 <= year <= 9999 && 1 <= month <= 12
    ensures var before := Report(incomes, expenses, subs, year, month);
            var after := Report(incomes + [i], expenses, subs, year, month);
            if InMonth(i.date, year, month) then
              after.incomeTotal == before.incomeTotal + i.amount && after.net == before.net + i.amount &&
              after.expenseTotal == before.expenseTotal
            else after == before
  {
    IncomesInMonthAppend(incomes, [i], year, month);
    var added := IncomesInMonth([i], year, month);
    assert added == if InMonth(i.date, year, month) then [i] else [];
    IncomeTotalAppend(IncomesInMonth(incomes, year, month), added);
    SumSingleton(i, IncomeAmount);
  }

  /**
   * Recording an expense dated in the report's month raises the expense
   * total by its amount and lowers the net by it; the income and
   * subscription totals stay. One dated in another month changes nothing.
   */
  lemma AddedExpenseCounts(incomes: seq<Income>, expenses: seq<Expense>, subs: seq<Subscription>,
                           e: Expense, year: int, month: int)
    requires 1 <= year <= 9999 && 1 <= month <= 12
    ensures var before := Report(incomes, expenses, subs, year, month);
            var after := Report(incomes, expenses + [e], subs, year, month);
            if InMonth(e.date, year, month) then
              after.expenseTotal == before.expenseTotal + e.amount && after.net == before.net - e.amount &&
              after.incomeTotal == before.incomeTotal && after.subscriptionTotal == before.subscriptionTotal
            else after == before
  {
    var s := ExpensesInMonth(expenses, year, month);
    ExpenseAppendedInMonth(expenses, e, year, month);
    if InMonth(e.date, year, month) {
      ExpenseTotalAppend(s, [e]);
      SumSingleton(e, ExpenseAmount);
    } else {
      assert ExpensesInMonth(expenses + [e], year, month) == s;
    }
  }

  lemma ExpenseAppendedInMonth(expenses: seq<Expense>, e: Expense, year: int, month: int)
    ensures ExpensesInMonth(expenses + [e], year, month) ==
            ExpensesInMonth(expenses, year, month) + (if InMonth(e.date, year, month) then [e] else [])
  {
    ExpensesInMonthAppend(expenses, [e], year, month);
    assert ExpensesInMonth([e], year, month) == if InMonth(e.date, year, month) then [e] else [];
    if !InMonth(e.date, year, month) {
      assert ExpensesInMonth(expenses, year, month) + [] == ExpensesInMonth(expenses, year, month);
    }
  }

  /** The five category totals of the breakdown add up to the month's expense total. */
  lemma BreakdownTotals(incomes: seq<Income>, expenses: seq<Expense>, subs: seq<Subscription>, year: int, month: int)
    requires 1 <= year <= 9999 && 1 <= month <= 12
    ensures var b := Report(incomes, expenses, subs, year, month).breakdown;
            b[0].total + b[1].total + b[2].total + b[3].total + b[4].total ==
            Report(incomes, expenses, subs, year, month).expenseTotal
  {
    CategoriesPartition(ExpensesInMonth(expenses, year, month));
  }

  /** Shares of a whole that add up to it have percentages that add up to 100. */
  lemma PercentagesOfPartition(t0: real, t1: real, t2: real, t3: real, t4: real, whole: real)
    requires 0.0 < whole && t0 + t1 + t2 + t3 + t4 == whole
    ensures Percent(t0, whole) + Percent(t1, whole) + Percent(t2, whole) +
            Percent(t3, whole) + Percent(t4, whole) == 100.0
  {
    assert t0 / whole + t1 / whole + t2 / whole + t3 / whole + t4 / whole == (t0 + t1 + t2 + t3 + t4) / whole;
  }

  /**
   * The category percentages lie between 0 and 100; they add up to 100 when
   * the month has expenses and are all 0 when it has none.
   */
  lemma BreakdownPercentages(incomes: seq<Income>, expenses: seq<Expense>, subs: seq<Subscription>, year: int, month: int)
    requires 1 <= year <= 9999 && 1 <= month <= 12
    ensures var r := Report(incomes, expenses, subs, year, month);
            forall i :: 0 <= i < |r.breakdown| ==> 0.0 <= r.breakdown[i].percent <= 100.0
    ensures var r := Report(incomes, expenses, subs, year, month);
            r.expenseTotal == 0.0 ==> forall i :: 0 <= i < |r.breakdown| ==> r.breakdown[i].percent == 0.0
    ensures var r := Report(incomes, expenses, subs, year, month);
            r.expenseTotal > 0.0 ==>
              r.breakdown[0].percent + r.breakdown[1].percent + r.breakdown[2].percent +
              r.breakdown[3].percent + r.breakdown[4].percent == 100.0
  {
    var s := ExpensesInMonth(expenses, year, month);
    SharePercentages(s);
    assert Report(incomes, expenses, subs, year, month).breakdown == Breakdown(s, ExpenseTotal(s));
  }

  /** The breakdown of a list of expenses against its own total. */
  lemma SharePercentages(s: seq<Expense>)
    ensures var b := Breakdown(s, ExpenseTotal(s));
            forall i :: 0 <= i < |b| ==> 0.0 <= b[i].percent <= 100.0
    ensures var b := Breakdown(s, ExpenseTotal(s));
            ExpenseTotal(s) == 0.0 ==> forall i :: 0 <= i < |b| ==> b[i].percent == 0.0
    ensures var b := Breakdown(s, ExpenseTotal(s));
            ExpenseTotal(s) > 0.0 ==>
              b[0].percent + b[1].percent + b[2].percent + b[3].percent + b[4].percent == 100.0
  {
    var ex := ExpenseTotal(s);
    var b := Breakdown(s, ex);
    forall i | 0 <= i < |b| ensures 0.0 <= b[i].percent <= 100.0 {
      assert b[i] == Share(s, AllCategories[i], ex);
    }
    if ex > 0.0 {
      CategoriesPartition(s);
      PercentagesOfPartition(CategoryTotal(s, Food), CategoryTotal(s, Transport), CategoryTotal(s, Fun),
                             CategoryTotal(s, School), CategoryTotal(s, Other), ex);
    }
  }

  /**
   * The largest expense exists exactly when the month has an expense; it is
   * one of the month's expenses, no in-month expense is larger, and every
   * in-month expense listed before it is strictly smaller.
   */
  lemma LargestIsFirstMaximum(incomes: seq<Income>, expenses: seq<Expense>, subs: seq<Subscription>, year: int, month: int)
    requires 1 <= year <= 9999 && 1 <= month <= 12
    ensures var r := Report(incomes, expenses, subs, year, month);
            var s := ExpensesInMonth(expenses, year, month);
            (r.largest.Some? <==> s != []) &&
            (r.largest.Some? ==>
               r.largest.value in expenses && InMonth(r.largest.value.date, year, month) &&
               (forall j :: 0 <= j < |s| ==> s[j].amount <= r.largest.value.amount) &&
               exists k :: 0 <= k < |s| && s[k] == r.largest.value &&
                           forall j :: 0 <= j < k ==> s[j].amount < r.largest.value.amount)
  {
    var s := ExpensesInMonth(expenses, year, month);
    var r := Report(incomes, expenses, subs, year, month);
    if r.largest.Some? {
      var k :| 0 <= k < |s| && s[k] == r.largest.value &&
               forall j :: 0 <= j < k ==> s[j].amount < r.largest.value.amount;
      assert s[k] in s;
    }
  }

  /**
   * An active subscription counts in every month's report, even one that
   * starts after that month: adding it lowers the net by its price.
   */
  lemma LaterSubscriptionStillCounts(incomes: seq<Income>, expenses: seq<Expense>, subs: seq<Subscription>,
                                      s: Subscription, year: int, month: int)
    requires 1 <= year <= 9999 && 1 <= month <= 12
    requires s.isActive && !OnOrBefore(s.startDate, LastDay(year, month))
    ensures Report(incomes, expenses, subs + [s], year, month).subscriptionTotal ==
            Report(incomes, expenses, subs, year, month).subscriptionTotal + s.monthlyPrice
    ensures Report(incomes, expenses, subs + [s], year, month).net ==
            Report(incomes, expenses, subs, year, month).net - s.monthlyPrice
  {
    assert Views(subs + [s]) == Views(subs) + [s.Data()];
    ActiveTotalAppend(Views(subs), [s.Data()]);
    assert ActiveTotal([s.Data()]) == s.monthlyPrice + ActiveTotal([s.Data()][1..]);
  }

  /** The two expenses of the worked month: both in May 2024, 40 for Food and 20 for Fun. */
  lemma {:induction false} MayExpenses(expenses: seq<Expense>)
    requires expenses == [ExpenseData(CalendarDate(2024, 5, 2), Food, 40.0, "Groceries"),
                          ExpenseData(CalendarDate(2024, 5, 15), Fun, 20.0, "Cinema")]
    ensures ExpensesInMonth(expenses, 2024, 5) == expenses
    ensures ExpenseTotal(expenses) == 60.0
    ensures CategoryTotal(expenses, Food) == 40.0 && CategoryTotal(expenses, Fun) == 20.0
  {
    assert expenses == [expenses[0]] + [expenses[1]];
    ExpensesInMonthAppend([expenses[0]], [expenses[1]], 2024, 5);
    assert ExpensesInMonth([expenses[0]], 2024, 5) == [expenses[0]];
    assert ExpensesInMonth([expenses[1]], 2024, 5) == [expenses[1]];
    ExpenseTotalAppend([expenses[0]], [expenses[1]]);
    SumSingleton(expenses[0], ExpenseAmount);
    SumSingleton(expenses[1], ExpenseAmount);
    FilterAppend([expenses[0]], [expenses[1]], (e: Expense) => e.category == Food);
    FilterAppend([expenses[0]], [expenses[1]], (e: Expense) => e.category == Fun);
    assert ExpensesOfCategory(expenses, Food) == [expenses[0]];
    assert ExpensesOfCategory(expenses, Fun) == [expenses[1]];
  }

  /** The larger of the worked month's two expenses comes first, so it is the largest. */
  lemma {:induction false} MayLargest(expenses: seq<Expense>)
    requires expenses == [ExpenseData(CalendarDate(2024, 5, 2), Food, 40.0, "Groceries"),
                          ExpenseData(CalendarDate(2024, 5, 15), Fun, 20.0, "Cinema")]
    ensures LargestExpense(expenses) == Some(expenses[0])
  {
    assert expenses[1..][1..] == [];
    assert SortDesc(expenses[1..], ExpenseAmount) == [expenses[1]];
    assert SortDesc(expenses, ExpenseAmount) == expenses;
  }

  lemma {:induction false} MaySubscriptions(subs: seq<Subscription>)
    requires |subs| == 1 && subs[0].isActive && subs[0].monthlyPrice == 10.0
    ensures ActiveSubscriptionTotal(subs) == 10.0
  {
    assert Views(subs) == [subs[0].Data()];
    assert Views(subs)[1..] == [];
  }

  /** The worked month's totals, net and daily average. */
  lemma {:induction false} MayTotals(incomes: seq<Income>, expenses: seq<Expense>, subs: seq<Subscription>)
    requires incomes == [IncomeData(CalendarDate(2024, 5, 1), "Salary", 100.0)]
    requires expenses == [ExpenseData(CalendarDate(2024, 5, 2), Food, 40.0, "Groceries"),
                          ExpenseData(CalendarDate(2024, 5, 15), Fun, 20.0, "Cinema")]
    requires |subs| == 1 && subs[0].isActive && subs[0].monthlyPrice == 10.0
    ensures var r := Report(incomes, expenses, subs, 2024, 5);
            r.incomeTotal == 100.0 && r.expenseTotal == 60.0 && r.subscriptionTotal == 10.0 && r.net == 30.0 &&
            r.averagePerDay == 60.0 / 31.0
  {
    MayExpenses(expenses);
    MaySubscriptions(subs);
    assert IncomesInMonth(incomes, 2024, 5) == incomes;
    SumSingleton(incomes[0], IncomeAmount);
    var r := Report(incomes, expenses, subs, 2024, 5);
    assert r.averagePerDay * 31.0 == 60.0;
  }

  /** The worked month's Food and Fun percentages. */
  lemma {:induction false} MayBreakdown(incomes: seq<Income>, expenses: seq<Expense>, subs: seq<Subscription>)
    requires expenses == [ExpenseData(CalendarDate(2024, 5, 2), Food, 40.0, "Groceries"),
                          ExpenseData(CalendarDate(2024, 5, 15), Fun, 20.0, "Cinema")]
    ensures var r := Report(incomes, expenses, subs, 2024, 5);
            r.breakdown[0].percent == 200.0 / 3.0 && r.breakdown[2].percent == 100.0 / 3.0
  {
    MayExpenses(expenses);
    MayShares(expenses);
    assert Report(incomes, expenses, subs, 2024, 5).breakdown == Breakdown(expenses, 60.0);
  }

  lemma {:induction false} MayShares(expenses: seq<Expense>)
    requires CategoryTotal(expenses, Food) == 40.0 && CategoryTotal(expenses, Fun) == 20.0
    ensures Breakdown(expenses, 60.0)[0].percent == 200.0 / 3.0
    ensures Breakdown(expenses, 60.0)[2].percent == 100.0 / 3.0
  {
    MayPercents();
    var b := Breakdown(expenses, 60.0);
    assert b[0].percent == Percent(40.0, 60.0);
    assert b[2].percent == Percent(20.0, 60.0);
  }

  lemma MayPercents()
    ensures Percent(40.0, 60.0) == 200.0 / 3.0 && Percent(20.0, 60.0) == 100.0 / 3.0
  {
  }

  /** The worked month's largest expense is the Food one. */
  lemma {:induction false} MayLargestInReport(incomes: seq<Income>, expenses: seq<Expense>, subs: seq<Subscription>)
    requires expenses == [ExpenseData(CalendarDate(2024, 5, 2), Food, 40.0, "Groceries"),
                          ExpenseData(CalendarDate(2024, 5, 15), Fun, 20.0, "Cinema")]
    ensures Report(incomes, expenses, subs, 2024, 5).largest == Some(expenses[0])
  {
    MayExpenses(expenses);
    MayLargest(expenses);
  }

  /**
   * A worked month: one income of 100, expenses of 40 (Food) and 20 (Fun),
   * one active subscription of 10, in May 2024 (31 days).
   */
  lemma MayReportExample(incomes: seq<Income>, expenses: seq<Expense>, subs: seq<Subscription>)
    requires incomes == [IncomeData(CalendarDate(2024, 5, 1), "Salary", 100.0)]
    requires expenses == [ExpenseData(CalendarDate(2024, 5, 2), Food, 40.0, "Groceries"),
                          ExpenseData(CalendarDate(2024, 5, 15), Fun, 20.0, "Cinema")]
    requires |subs| == 1 && subs[0].isActive && subs[0].monthlyPrice == 10.0
    ensures var r := Report(incomes, expenses, subs, 2024, 5);
            r.incomeTotal == 100.0 && r.expenseTotal == 60.0 && r.subscriptionTotal == 10.0 && r.net == 30.0 &&
            r.breakdown[0].percent == 200.0 / 3.0 && r.breakdown[2].percent == 100.0 / 3.0 &&
            r.largest == Some(expenses[0]) && r.averagePerDay == 60.0 / 31.0
  {
    MayTotals(incomes, expenses, subs);
    MayBreakdown(incomes, expenses, subs);
    MayLargestInReport(incomes, expenses, subs);
  }
}
