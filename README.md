# Personal finance tracker — verified model

This project models the core of a single-user console finance tracker
written in C# (`main.cs`). The tracker keeps three in-memory lists:
incomes, expenses and recurring subscriptions. It adds, deletes and toggles
entries by index. It answers two filter queries and lists every entry newest
first. It builds a monthly report and imports or exports the three lists as
one JSON document.

The model is split by component:

- `Calendar` (calendar.dfy): dates as (year, month, day), limited to valid
  Gregorian dates in DateTime's range. Also `DaysInMonth`, the date
  comparison the filters use, and a numeric sort key that agrees with it.
- `Entities` (entities.dfy): the three records. `Income` and `Expense` never
  change after construction, so they are datatypes. A subset type carries the
  constructor's checks. `Subscription` is a class, because `Toggle` changes
  its `isActive` field in place. Its other fields are constants.
- `Tools` (tools.dfy): `Percent` and `SafeDivide`, both total.
- `Lists` (lists.dfy): `List.RemoveAt` behind its index check, and LINQ's
  stable `OrderByDescending`, written as an insertion sort.
- `Queries` (queries.dfy): the `Where`/`Sum` pipelines behind the filters,
  and the combined listing.
- `Reports` (reports.dfy): the monthly report as a pure function of the
  three lists and a (year, month).
- `Snapshot` (snapshot.dfy): the JSON document as three optional arrays of
  field values, the constructor checks run on import, and the export.
- `Store` (ledger.dfy): the `Ledger` class. It holds the three lists as
  `seq` fields, and its methods change them as the menus do.

Amounts are `real`: C#'s `decimal` is modelled by exact arithmetic.

Categories travel through JSON as numbers, not names: the code uses the
`System.Text.Json` defaults, which write an enum as its number. The model
follows the code and keeps the encoding abstract (see "Left out").

## Model

| member | source | states |
|---|---|---|
| `Entities.IsBlank` | main.cs:19 | `string.IsNullOrWhiteSpace`: a text is blank exactly when every character is .NET whitespace, so the empty (or null) text is blank |
| `Entities.BlankExamples` | main.cs:19 | the empty text and a text of spaces, tabs and line breaks are blank; a text holding any other character is not |
| `Entities.Check` | main.cs:18-19 | the constructor guard fails exactly when the amount is ≤ 0 or the text is null or whitespace; the amount is checked first |
| `Entities.NewIncome` | main.cs:17-23 | constructing an Income fails with the guard's error when amount ≤ 0 or the source is blank; otherwise every field equals its argument |
| `Entities.NewExpense` | main.cs:32-39 | constructing an Expense fails when amount ≤ 0 or the note is blank; otherwise every field equals its argument |
| `Entities.Subscription.Create` | main.cs:48-55 | constructing a Subscription fails when the price is ≤ 0 or the name is blank; otherwise a fresh, valid object whose fields equal the arguments |
| `Entities.Subscription.Toggle` | main.cs:57-59 | `isActive` is negated; name, price and start date are constants and so cannot change |
| `Entities.ToggleAt` | main.cs:188-189 | toggle by index flips the flag of entry `idx` only; any other index changes nothing |
| `Entities.ToggleAtTwice` | main.cs:57-59 | toggling the same entry twice restores the original list |
| `Tools.Percent` | main.cs:90-92 | a zero whole gives 0; otherwise the result times the whole is 100 × the part; a part between 0 and the whole gives a result between 0 and 100 |
| `Tools.SafeDivide` | main.cs:94-96 | a zero divisor gives 0; otherwise the result times the divisor is the dividend |
| `Calendar.DaysInMonth` | main.cs:249 | the exact day count: 31 for January, March, May, July, August, October and December, 30 for April, June, September and November, and for February 29 in a Gregorian leap year and 28 otherwise |
| `Calendar.YearLength` | main.cs:249 | the twelve month lengths of a year add up to 366 in a leap year and 365 otherwise |
| `Calendar.InMonthIsRange` | main.cs:230 | a date is in a month exactly when it lies between the month's first and last day |
| `Calendar.DateKeyOrder` | main.cs:203 | the numeric sort key orders dates as DateTime comparison does, and equal keys mean equal dates |
| `Lists.RemoveAt` | main.cs:150-151 | an index in range removes exactly that element and keeps the rest in order; any other index leaves the list unchanged |
| `Lists.SortDesc` | main.cs:203 | OrderByDescending keeps the length of its input; permutation, order and stability are stated in `Lists.SortDescPermutes`, `Lists.SortDescSorted` and `Lists.SortDescStable` |
| `Lists.SortDescPermutes` | main.cs:203 | OrderByDescending returns a permutation of its input |
| `Lists.SortDescSorted` | main.cs:203 | OrderByDescending returns its input ordered by key, largest first |
| `Lists.SortDescStable` | main.cs:203 | OrderByDescending is stable: elements with equal keys keep their input order |
| `Lists.SortDescHead` | main.cs:244-246 | the first element after sorting has the largest key, and every input element before it has a smaller key |
| `Lists.Filter` | main.cs:230-231 | `Where`: an element is in the result exactly when it is in the input and satisfies the condition; multiplicity and order are stated in `Lists.FilterMultiset` and `Lists.FilterAppend` |
| `Lists.Sum` | main.cs:230-232 | `Sum` of non-negative values is non-negative; additivity is stated in `Lists.SumAppend` |
| `Lists.FilterMultiset` | main.cs:230-231 | `Where` keeps each selected element exactly as often as it occurs and drops every other element |
| `Lists.FilterAppend` | main.cs:230-231 | `Where` on a concatenation is the concatenation of the filtered parts, so the input order is kept |
| `Lists.FilterAgree` | main.cs:230-231 | two conditions that agree on every element select the same sublist |
| `Lists.SumAppend` | main.cs:230-232 | `Sum` of a concatenation is the sum of the parts' sums |
| `Lists.SumFilterAtMost` | main.cs:211-219 | over non-negative values, the sum of a filtered list is at most the sum of the whole list |
| `Queries.IncomeTotal` | main.cs:230 | the sum of income amounts is ≥ 0, and 0 only for an empty list |
| `Queries.ExpenseTotal` | main.cs:231 | the sum of expense amounts is ≥ 0, and 0 only for an empty list |
| `Queries.IncomeTotalAppend` | main.cs:230 | the income total of two lists put together is the sum of their totals |
| `Queries.ExpenseTotalAppend` | main.cs:231 | the expense total of two lists put together is the sum of their totals |
| `Queries.IncomesInMonth` | main.cs:230 | an income is in the result exactly when it is in the list and dated in the given year and month |
| `Queries.ExpensesInMonth` | main.cs:231 | an expense is in the result exactly when it is in the list and dated in the given year and month |
| `Queries.ExpensesOfCategory` | main.cs:213 | an expense is in the result exactly when it is in the list and has the given category |
| `Queries.ExpensesBetween` | main.cs:218 | an expense is in the result exactly when it is in the list and dated from `from` to `to`, both inclusive |
| `Queries.FiltersKeepDuplicates` | main.cs:211-231 | each of the four filters keeps every selected entry as often as it is listed and drops the rest |
| `Queries.RepeatedExpenseCountsTwice` | main.cs:231 | two identical expenses in the month add twice their amount to the month's total |
| `Queries.IncomesInMonthAppend` | main.cs:230 | the month filter on incomes splits over concatenation and keeps list order |
| `Queries.ExpensesInMonthAppend` | main.cs:231 | the month filter on expenses splits over concatenation and keeps list order |
| `Queries.CategoryTotal` | main.cs:211-214 | the all-time total of one category lies between 0 and the total of all expenses, and is 0 exactly when no expense has that category |
| `Queries.RangeTotal` | main.cs:216-219 | the total over a date range lies between 0 and the total of all expenses, and is 0 exactly when no expense falls in the range |
| `Queries.CategoriesPartition` | main.cs:240-241 | the five category totals add up to the total of the list |
| `Queries.MonthIsDateRange` | main.cs:231 | a month's expenses are exactly the expenses between its first and last day |
| `Queries.ReversedRangeIsEmpty` | main.cs:218 | a range whose start is after its end has total 0 |
| `Queries.AllEntries` | main.cs:200-202 | the concatenation holds the incomes, then the expenses, then the subscriptions, each in list order |
| `Queries.AllEntriesDescending` | main.cs:200-203 | the ShowAll listing holds every income, expense and subscription exactly once; its order and stability are stated in `Queries.AllEntriesDescendingSpec` |
| `Queries.AllEntriesDescendingSpec` | main.cs:200-204 | the listing is a permutation of all entries, sorted newest first (a subscription by its start date), and entries sharing a date keep their order |
| `Queries.ListingExample` | main.cs:198-204 | entries dated 1 January, 1 March and 1 February are listed March, February, January |
| `Reports.ActiveTotal` | main.cs:232 | over valid subscriptions the active total is ≥ 0, and 0 exactly when none is active |
| `Reports.ActiveSubscriptionTotal` | main.cs:232 | over valid subscriptions, the sum of the active ones' prices is ≥ 0, and 0 exactly when none is active |
| `Reports.ActiveTotalSplit` | main.cs:232 | the active total of a list is that of the entries before an index, plus the entry at it, plus the rest |
| `Reports.ToggleAtTotal` | main.cs:188-189 | toggling subscription `idx` moves the active total by exactly its price, down if it was active and up otherwise |
| `Reports.LargestExpense` | main.cs:244-247 | there is a largest expense exactly when the list is nonempty; no expense is larger, and every expense before it in the list is strictly smaller |
| `Reports.AveragePerDay` | main.cs:249-250 | the average times the month's day count is the month's expense total |
| `Reports.Breakdown` | main.cs:240-243 | one share per category, in declaration order, holding that category's total and percentage |
| `Reports.Report` | main.cs:223-251 | the income total is the sum over the month's incomes and the expense total the sum over the month's expenses; net = income total − expense total − subscription total; the subscription total ignores start dates; the breakdown is the in-month `Breakdown` against the expense total, so share i holds category i's in-month total and percentage; the largest expense is `LargestExpense` of the in-month expenses and exists exactly when the month has an expense |
| `Reports.AddedIncomeCounts` | main.cs:230-233 | recording an income dated in the report's month raises the income total and the net by its amount and leaves the expense total; one dated in another month leaves the whole report unchanged |
| `Reports.AddedExpenseCounts` | main.cs:231-233 | recording an expense dated in the report's month raises the expense total by its amount and lowers the net by it, leaving the income and subscription totals; one dated in another month leaves the whole report unchanged |
| `Reports.BreakdownTotals` | main.cs:240-241 | the five per-category totals in the report add up to the month's expense total |
| `Reports.PercentagesOfPartition` | main.cs:242 | shares that add up to a positive whole have percentages that add up to 100 |
| `Reports.SharePercentages` | main.cs:240-242 | against a list's own total, each category percentage lies between 0 and 100; they total 100 for a list with expenses and are all 0 for an empty one |
| `Reports.BreakdownPercentages` | main.cs:240-242 | each category percentage lies between 0 and 100; they total 100 when the month has expenses and are all 0 when it has none |
| `Reports.LargestIsFirstMaximum` | main.cs:244-247 | the largest expense is an in-month expense, none is larger, and it is the first in list order among those of its amount |
| `Reports.LaterSubscriptionStillCounts` | main.cs:232-233 | an active subscription starting after the month still adds its price to the subscription total and lowers the net |
| `Reports.MayReportExample` | main.cs:223-251 | for the worked May 2024 month: income 100, expenses 60, subscriptions 10, net 30, Food 66.7 %, Fun 33.3 %, largest the Food expense, 60/31 per day |
| `Snapshot.ValidIncomes` | main.cs:267 | import of an incomes array succeeds exactly when every element passes the Income constructor, and then yields those same values |
| `Snapshot.ValidExpenses` | main.cs:267 | import of an expenses array succeeds exactly when every element passes the Expense constructor, and then yields those same values |
| `Snapshot.Export` | main.cs:257-258 | the export holds all three lists with every field; the round trip back through the import's checks is stated by `Snapshot.ExportValidates` and `Store.Ledger.ExportDocument` |
| `Snapshot.ExportValidates` | main.cs:257-267 | an exported document is valid, and validating it gives back the same incomes, expenses and subscription fields |
| `Store.BuildSubscriptions` | main.cs:267 | subscriptions are built exactly when every element passes the constructor; they are fresh, distinct and hold the given fields |
| `Store.Ledger.constructor` | main.cs:100-102 | the ledger starts with three empty lists |
| `Store.Ledger.AddIncome` | main.cs:144 | a valid income is appended; an invalid one changes nothing and returns the constructor's error; the other lists do not change |
| `Store.Ledger.AddExpense` | main.cs:164 | a valid expense is appended; an invalid one changes nothing and returns the constructor's error; the other lists do not change |
| `Store.Ledger.AddSubscription` | main.cs:182 | a valid subscription is appended as a fresh, active object; an invalid one changes nothing; the other lists do not change |
| `Store.Ledger.RemoveIncomeAt` | main.cs:150-151 | the income list becomes RemoveAt of the old list; the other lists do not change |
| `Store.Ledger.RemoveExpenseAt` | main.cs:170-171 | the expense list becomes RemoveAt of the old list; the other lists do not change |
| `Store.Ledger.RemoveSubscriptionAt` | main.cs:193-194 | the subscription list becomes RemoveAt of the old list, and its objects stay distinct |
| `Store.Ledger.ToggleSubscriptionAt` | main.cs:188-189 | the subscriptions' field values become ToggleAt of the old ones: only entry `idx` changes |
| `Store.Ledger.Import` | main.cs:259-277 | blank text cancels; malformed JSON or any invalid element rejects; `null` is ignored; in all of those cases all three lists stay as they were; otherwise each list is replaced by its array, or by an empty list when the array is absent |
| `Store.Ledger.ExportDocument` | main.cs:256-258 | the ledger's export is a valid document that imports back to the same values |

## Left out

- Console I/O: the menu loop, the prompts, the retry loops in `ReadNonEmptyString`, `ReadDate` and `ReadDecimal`, and all output formatting are not modelled. The operations take already-parsed values.
- The JSON text layer (`JsonSerializer.Serialize` and `Deserialize`) is a foreign library. `Decoded` stands for what deserialising the text yields before any constructor runs: malformed input, the literal `null`, or three optional arrays. Only what the import does with that is modelled. So the byte-level export/import round trip is not modelled; `ExportValidates` covers the document level. The export is printed indented across many lines (`WriteIndented`), while the import reads a single line, so pasting the printed export back as it is gives malformed input and is rejected.
- Category encoding in JSON: the code uses the serializer's default, a number. Deserialising accepts numbers that name no category. The model's `Category` has only the five values, so such expenses are not modelled.
- `(Category)int.Parse(...)` in the expense and filter menus is unchecked: a malformed number throws an exception that the menu loop does not catch, and an out-of-range one gives an undefined category. The model takes a valid `Category`.
- The month prompt (`DateTime.TryParse(input + "-01")`) is not modelled. `Reports.Report` requires a year in 1..9999 and a month in 1..12, which is what a successful parse gives.
- Time of day: the model's dates are calendar days, and DateTime's time component is not modelled. The range filter compares whole days. In the listing, the source orders entries of the same day by their time; the model keeps their Concat order instead (the stability clause of `AllEntriesDescendingSpec`), which is the source's order only when their times are equal.
- `decimal` arithmetic: amounts are exact reals. The model has no 28-digit rounding, no overflow exception, and no `0.0`/`0.00` display rounding.
- A null string is modelled as the empty string. Both count as blank for `IsNullOrWhiteSpace`, so construction fails in either case.
- An index that `int.TryParse` cannot read is the same no-op as an index out of range. The removal and toggle methods take an `int`.
- `ShowAll` prints one text line per entry. The model's `Entry` holds the entity itself in place of the text.
- Subscription objects: the source always adds a newly built object, so no object is listed twice. `Ledger.Valid` states this as a requirement (`Distinct`). Aliasing between lists is otherwise not modelled.
- JSON arrays holding `null` elements are not modelled. The serializer would put null entries in a list, and later queries would fail on them.
