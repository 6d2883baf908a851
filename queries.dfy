/**
 * The LINQ pipelines behind the filters and the combined listing: sums of
 * amounts over filtered lists, and all entries merged and ordered by date,
 * newest first.
 */
module Queries {
  import opened Calendar
  import opened Entities
  import opened Lists

  function IncomeAmount(i: Income): real
  {
    i.amount
  }

  function ExpenseAmount(e: Expense): real
  {
    e.amount
  }

  /** Sum(i => i.Amount) over incomes. */
  function IncomeTotal(s: seq<Income>): (r: real)
    ensures 0.0 <= r
    ensures r == 0.0 <==> s == []
  {
    SumPositive(s, IncomeAmount);
    Sum(s, IncomeAmount)
  }

  /** Sum(e => e.Amount) over expenses. */
  function ExpenseTotal(s: seq<Expense>): (r: real)
    ensures 0.0 <= r
    ensures r == 0.0 <==> s == []
  {
    SumPositive(s, ExpenseAmount);
    Sum(s, ExpenseAmount)
  }

  lemma IncomeTotalAppend(a: seq<Income>, b: seq<Income>)
    ensures IncomeTotal(a + b) == IncomeTotal(a) + IncomeTotal(b)
  {
    SumAppend(a, b, IncomeAmount);
  }

  lemma ExpenseTotalAppend(a: seq<Expense>, b: seq<Expense>)
    ensures ExpenseTotal(a + b) == ExpenseTotal(a) + ExpenseTotal(b)
  {
    SumAppend(a, b, ExpenseAmount);
  }

  /** Incomes dated in the given month, each as often as listed, in list order. */
  function IncomesInMonth(s: seq<Income>, year: int, month: int): (r: seq<Income>)
    ensures forall i :: i in r <==> i in s && InMonth(i.date, year, month)
  {
    Filter(s, (i: Income) => InMonth(i.date, year, month))
  }

  /** Expenses dated in the given month, each as often as listed, in list order. */
  function ExpensesInMonth(s: seq<Expense>, year: int, month: int): (r: seq<Expense>)
    ensures forall e :: e in r <==> e in s && InMonth(e.date, year, month)
  {
    Filter(s, (e: Expense) => InMonth(e.date, year, month))
  }

  /** Expenses of one category, each as often as listed, in list order. */
  function ExpensesOfCategory(s: seq<Expense>, c: Category): (r: seq<Expense>)
    ensures forall e :: e in r <==> e in s && e.category == c
  {
    Filter(s, (e: Expense) => e.category == c)
  }

  /** Expenses dated from `from` to `to`, both inclusive, each as often as listed, in list order. */
  function ExpensesBetween(s: seq<Expense>, from: Date, to: Date): (r: seq<Expense>)
    ensures forall e :: e in r <==> e in s && OnOrBefore(from, e.date) && OnOrBefore(e.date, to)
  {
    Filter(s, (e: Expense) => OnOrBefore(from, e.date) && OnOrBefore(e.date, to))
  }

  /**
   * The filters keep each selected entry as often as it is listed and drop
   * the others: two identical expenses both count.
   */
  lemma FiltersKeepDuplicates(incomes: seq<Income>, expenses: seq<Expense>, year: int, month: int,
                              c: Category, from: Date, to: Date)
    ensures forall i :: multiset(IncomesInMonth(incomes, year, month))[i] ==
                        if InMonth(i.date, year, month) then multiset(incomes)[i] else 0
    ensures forall e :: multiset(ExpensesInMonth(expenses, year, month))[e] ==
                        if InMonth(e.date, year, month) then multiset(expenses)[e] else 0
    ensures forall e :: multiset(ExpensesOfCategory(expenses, c))[e] ==
                        if e.category == c then multiset(expenses)[e] else 0
    ensures forall e :: multiset(ExpensesBetween(expenses, from, to))[e] ==
                        if OnOrBefore(from, e.date) && OnOrBefore(e.date, to) then multiset(expenses)[e] else 0
  {
    FilterMultiset(incomes, (i: Income) => InMonth(i.date, year, month));
    FilterMultiset(expenses, (e: Expense) => InMonth(e.date, year, month));
    FilterMultiset(expenses, (e: Expense) => e.category == c);
    FilterMultiset(expenses, (e: Expense) => OnOrBefore(from, e.date) && OnOrBefore(e.date, to));
  }

  /** Two identical expenses in the month count twice towards its total. */
  lemma {:induction false} RepeatedExpenseCountsTwice(e: Expense, year: int, month: int)
    requires InMonth(e.date, year, month)
    ensures ExpenseTotal(ExpensesInMonth([e, e], year, month)) == 2.0 * e.amount
  {
    ExpensesInMonthAppend([e], [e], year, month);
    assert [e, e] == [e] + [e];
    assert ExpensesInMonth([e], year, month) == [e];
    ExpenseTotalAppend([e], [e]);
    SumSingleton(e, ExpenseAmount);
  }

  /** The month filter distributes over concatenation, keeping the order of the parts. */
  lemma IncomesInMonthAppend(a: seq<Income>, b: seq<Income>, year: int, month: int)
    ensures IncomesInMonth(a + b, year, month) == IncomesInMonth(a, year, month) + IncomesInMonth(b, year, month)
  {
    FilterAppend(a, b, (i: Income) => InMonth(i.date, year, month));
  }

  lemma ExpensesInMonthAppend(a: seq<Expense>, b: seq<Expense>, year: int, month: int)
    ensures ExpensesInMonth(a + b, year, month) == ExpensesInMonth(a, year, month) + ExpensesInMonth(b, year, month)
  {
    FilterAppend(a, b, (e: Expense) => InMonth(e.date, year, month));
  }

  /** The filter "expenses by category": total over all time of one category. */
  function CategoryTotal(s: seq<Expense>, c: Category): (r: real)
    ensures 0.0 <= r <= ExpenseTotal(s)
    ensures r == 0.0 <==> forall e :: e in s ==> e.category != c
  {
    SumFilterAtMost(s, ExpenseAmount, (e: Expense) => e.category == c);
    ExpenseTotal(ExpensesOfCategory(s, c))
  }

  /** The filter "expenses by date": total of the expenses in an inclusive date range. */
  function RangeTotal(s: seq<Expense>, from: Date, to: Date): (r: real)
    ensures 0.0 <= r <= ExpenseTotal(s)
    ensures r == 0.0 <==> forall e :: e in s ==> !(OnOrBefore(from, e.date) && OnOrBefore(e.date, to))
  {
    SumFilterAtMost(s, ExpenseAmount, (e: Expense) => OnOrBefore(from, e.date) && OnOrBefore(e.date, to));
    ExpenseTotal(ExpensesBetween(s, from, to))
  }

  lemma CategoryTotalStep(s: seq<Expense>, c: Category)
    requires s != []
    ensures CategoryTotal(s, c) == (if s[0].category == c then s[0].amount else 0.0) + CategoryTotal(s[1..], c)
  {
    ExpenseTotalAppend(if s[0].category == c then [s[0]] else [], ExpensesOfCategory(s[1..], c));
  }

  /** The five category totals add up to the total of all expenses. */
  lemma {:induction false} CategoriesPartition(s: seq<Expense>)
    ensures CategoryTotal(s, Food) + CategoryTotal(s, Transport) + CategoryTotal(s, Fun) +
            CategoryTotal(s, School) + CategoryTotal(s, Other) == ExpenseTotal(s)
  {
    if s != [] {
      CategoriesPartition(s[1..]);
      ExpenseTotalAppend([s[0]], s[1..]);
      assert s == [s[0]] + s[1..];
      CategoryTotalStep(s, Food);
      CategoryTotalStep(s, Transport);
      CategoryTotalStep(s, Fun);
      CategoryTotalStep(s, School);
      CategoryTotalStep(s, Other);
    }
  }

  /** A month's expenses are exactly those between its first and its last day. */
  lemma MonthIsDateRange(s: seq<Expense>, year: int, month: int)
    requires 1 <= year <= 9999 && 1 <= month <= 12
    ensures ExpensesInMonth(s, year, month) == ExpensesBetween(s, FirstDay(year, month), LastDay(year, month))
  {
    var first, last := FirstDay(year, month), LastDay(year, month);
    forall e | e in s ensures InMonth(e.date, year, month) == (OnOrBefore(first, e.date) && OnOrBefore(e.date, last)) {
      InMonthIsRange(e.date, year, month);
    }
    FilterAgree(s, (e: Expense) => InMonth(e.date, year, month),
                   (e: Expense) => OnOrBefore(first, e.date) && OnOrBefore(e.date, last));
  }

  /** A range whose start is after its end holds no expense. */
  lemma {:induction false} ReversedRangeIsEmpty(s: seq<Expense>, from: Date, to: Date)
    requires !OnOrBefore(from, to)
    ensures RangeTotal(s, from, to) == 0.0
  {
    forall e | e in s ensures !(OnOrBefore(from, e.date) && OnOrBefore(e.date, to)) {
      OnOrBeforeTotal(from, to);
    }
  }

  /** One line of the combined listing: an income, an expense or a subscription. */
  datatype Entry = IncomeEntry(income: Income) | ExpenseEntry(expense: Expense) | SubscriptionEntry(subscription: Subscription)
  {
    /** The date the listing sorts by: a subscription's start date. */
    function Date(): Date
    {
      match this
      case IncomeEntry(i) => i.date
      case ExpenseEntry(e) => e.date
      case SubscriptionEntry(s) => s.startDate
    }
  }

  /** Incomes, then expenses, then subscriptions (the Concat chain). */
  function AllEntries(incomes: seq<Income>, expenses: seq<Expense>, subs: seq<Subscription>): (r: seq<Entry>)
    ensures |r| == |incomes| + |expenses| + |subs|
    ensures forall i :: 0 <= i < |incomes| ==> r[i] == IncomeEntry(incomes[i])
    ensures forall i :: 0 <= i < |expenses| ==> r[|incomes| + i] == ExpenseEntry(expenses[i])
    ensures forall i :: 0 <= i < |subs| ==> r[|incomes| + |expenses| + i] == SubscriptionEntry(subs[i])
  {
    seq(|incomes|, i requires 0 <= i < |incomes| => IncomeEntry(incomes[i])) +
    seq(|expenses|, i requires 0 <= i < |expenses| => ExpenseEntry(expenses[i])) +
    seq(|subs|, i requires 0 <= i < |subs| => SubscriptionEntry(subs[i]))
  }

  function EntryKey(e: Entry): real
  {
    DateKey(e.Date())
  }

  /**
   * ShowAll's ordering: OrderByDescending on the entry date. Order and
   * stability are stated in AllEntriesDescendingSpec.
   */
  function AllEntriesDescending(incomes: seq<Income>, expenses: seq<Expense>, subs: seq<Subscription>): (r: seq<Entry>)
    ensures |r| == |incomes| + |expenses| + |subs|
    ensures multiset(r) == multiset(AllEntries(incomes, expenses, subs))
  {
    SortDescPermutes(AllEntries(incomes, expenses, subs), EntryKey);
    SortDesc(AllEntries(incomes, expenses, subs), EntryKey)
  }

  /**
   * The entries dated `d`, in list order: the listing's stability stated on
   * dates. It is WithKey on the date key (EntriesOnIsWithKey), kept so that
   * the stability promise reads in terms of calendar dates.
   */
  function EntriesOn(s: seq<Entry>, d: Date): (r: seq<Entry>)
    ensures |r| <= |s|
    ensures forall i :: 0 <= i < |r| ==> r[i] in s && r[i].Date() == d
  {
    if s == [] then [] else (if s[0].Date() == d then [s[0]] else []) + EntriesOn(s[1..], d)
  }

  lemma {:induction false} EntriesOnIsWithKey(s: seq<Entry>, d: Date)
    ensures EntriesOn(s, d) == WithKey(s, EntryKey, DateKey(d))
  {
    if s != [] {
      DateKeyOrder(s[0].Date(), d);
      EntriesOnIsWithKey(s[1..], d);
    }
  }

  /**
   * The combined listing holds every income, expense and subscription once,
   * newest first, and entries sharing a date keep their Concat order.
   */
  lemma AllEntriesDescendingSpec(incomes: seq<Income>, expenses: seq<Expense>, subs: seq<Subscription>)
    ensures multiset(AllEntriesDescending(incomes, expenses, subs)) == multiset(AllEntries(incomes, expenses, subs))
    ensures var r := AllEntriesDescending(incomes, expenses, subs);
            forall i, j :: 0 <= i < j < |r| ==> OnOrBefore(r[j].Date(), r[i].Date())
    ensures forall d: Date :: EntriesOn(AllEntriesDescending(incomes, expenses, subs), d) ==
                              EntriesOn(AllEntries(incomes, expenses, subs), d)
  {
    var s := AllEntries(incomes, expenses, subs);
    var r := AllEntriesDescending(incomes, expenses, subs);
    SortDescPermutes(s, EntryKey);
    SortDescSorted(s, EntryKey);
    forall i, j | 0 <= i < j < |r| ensures OnOrBefore(r[j].Date(), r[i].Date()) {
      DateKeyOrder(r[j].Date(), r[i].Date());
    }
    forall d: Date ensures EntriesOn(r, d) == EntriesOn(s, d) {
      EntriesOnIsWithKey(r, d);
      EntriesOnIsWithKey(s, d);
      SortDescStable(s, EntryKey, DateKey(d));
    }
  }

  /** Three incomes dated 1 January, 1 March and 1 February are listed March, February, January. */
  lemma {:induction false} ListingExample(incomes: seq<Income>)
    requires incomes == [IncomeData(CalendarDate(2024, 1, 1), "A", 1.0),
                         IncomeData(CalendarDate(2024, 3, 1), "B", 1.0),
                         IncomeData(CalendarDate(2024, 2, 1), "C", 1.0)]
    ensures AllEntriesDescending(incomes, [], []) ==
            [IncomeEntry(incomes[1]), IncomeEntry(incomes[2]), IncomeEntry(incomes[0])]
  {
    var s := AllEntries(incomes, [], []);
    assert s == [IncomeEntry(incomes[0]), IncomeEntry(incomes[1]), IncomeEntry(incomes[2])];
    assert SortDesc(s[2..], EntryKey) == [s[2]];
    assert s[1..][1..] == s[2..];
    assert EntryKey(s[0]) < EntryKey(s[2]) < EntryKey(s[1]);
    assert SortDesc(s[1..], EntryKey) == [s[1], s[2]];
    assert [s[1], s[2]][1..] == [s[2]];
    assert Insert(s[0], [s[2]], EntryKey) == [s[2], s[0]];
    assert Insert(s[0], [s[1], s[2]], EntryKey) == [s[1], s[2], s[0]];
  }
}
