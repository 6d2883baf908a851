/**
 * The JSON snapshot of the ledger, with the JSON text layer abstracted away:
 * a document holds three optional arrays of field values, and importing it
 * runs every element through its entity's constructor.
 */
module Snapshot {
  import opened Wrappers
  import opened Calendar
  import opened Entities

  /** The three named arrays; an absent (or null) array is None. */
  datatype Document = Document(
    incomes: Option<seq<IncomeData>>,
    expenses: Option<seq<ExpenseData>>,
    subscriptions: Option<seq<SubscriptionData>>)

  /**
   * What deserialising the text gives before any constructor runs: a syntax or
   * shape error, the JSON literal `null`, or a document.
   */
  datatype Decoded = Malformed | NullDocument | Parsed(doc: Document)

  /** Runs the Income constructor on every element; None if any of them throws. */
  function ValidIncomes(s: seq<IncomeData>): (r: Option<seq<Income>>)
    ensures r.Some? <==> forall i :: 0 <= i < |s| ==> NewIncome(s[i].date, s[i].source, s[i].amount).Success?
    ensures r.Some? ==> r.value == s
  {
    if s == [] then Some([])
    else match NewIncome(s[0].date, s[0].source, s[0].amount)
      case Failure(_) => None
      case Success(first) =>
        match ValidIncomes(s[1..])
        case None => None
        case Some(rest) => Some([first] + rest)
  }

  /** Runs the Expense constructor on every element; None if any of them throws. */
  function ValidExpenses(s: seq<ExpenseData>): (r: Option<seq<Expense>>)
    ensures r.Some? <==> forall i :: 0 <= i < |s| ==> NewExpense(s[i].date, s[i].category, s[i].amount, s[i].note).Success?
    ensures r.Some? ==> r.value == s
  {
    if s == [] then Some([])
    else match NewExpense(s[0].date, s[0].category, s[0].amount, s[0].note)
      case Failure(_) => None
      case Success(first) =>
        match ValidExpenses(s[1..])
        case None => None
        case Some(rest) => Some([first] + rest)
  }

  /** The Subscription constructor accepts these field values. */
  predicate ValidSubscriptionData(d: SubscriptionData)
  {
    Check(d.monthlyPrice, d.name).None?
  }

  /** Every element of every present array passes its constructor. */
  predicate DocumentValid(doc: Document)
  {
    ValidIncomes(OrEmpty(doc.incomes)).Some? &&
    ValidExpenses(OrEmpty(doc.expenses)).Some? &&
    forall i :: 0 <= i < |OrEmpty(doc.subscriptions)| ==> ValidSubscriptionData(OrEmpty(doc.subscriptions)[i])
  }

  /** The exported document: every list, every field. */
  function Export(incomes: seq<Income>, expenses: seq<Expense>, subs: seq<Subscription>): (doc: Document)
    reads subs
    ensures doc.incomes == Some(incomes) && doc.expenses == Some(expenses)
    ensures doc.subscriptions == Some(Views(subs))
  {
    Document(Some(incomes), Some(expenses), Some(Views(subs)))
  }

  /**
   * Exporting valid entities gives a valid document whose validation
   * reproduces the same incomes, expenses and subscription fields.
   */
  lemma ExportValidates(incomes: seq<Income>, expenses: seq<Expense>, subs: seq<Subscription>)
    requires forall i :: 0 <= i < |subs| ==> subs[i].Valid()
    ensures DocumentValid(Export(incomes, expenses, subs))
    ensures ValidIncomes(OrEmpty(Export(incomes, expenses, subs).incomes)) == Some(incomes)
    ensures ValidExpenses(OrEmpty(Export(incomes, expenses, subs).expenses)) == Some(expenses)
    ensures OrEmpty(Export(incomes, expenses, subs).subscriptions) == Views(subs)
  {
    var doc := Export(incomes, expenses, subs);
    forall i | 0 <= i < |incomes| ensures NewIncome(incomes[i].date, incomes[i].source, incomes[i].amount).Success? {
    }
    forall i | 0 <= i < |expenses|
      ensures NewExpense(expenses[i].date, expenses[i].category, expenses[i].amount, expenses[i].note).Success?
    {
    }
  }
}
