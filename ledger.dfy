/**
 * The ledger: the program's three lists of incomes, expenses and
 * subscriptions, and the menu operations that change them in place.
 */
module Store {
  import opened Wrappers
  import opened Calendar
  import opened Entities
  import opened Lists
  import opened Snapshot

  /** No subscription object appears twice in the list. */
  ghost predicate Distinct(subs: seq<Subscription>)
  {
    forall i, j :: 0 <= i < j < |subs| ==> subs[i] != subs[j]
  }

  lemma DistinctAppend(subs: seq<Subscription>, s: Subscription)
    requires Distinct(subs) && s !in subs
    ensures Distinct(subs + [s])
  {
    var r := subs + [s];
    forall i, j | 0 <= i < j < |r| ensures r[i] != r[j] {
      assert r[i] == subs[i];
      if j < |subs| {
        assert r[j] == subs[j];
      } else {
        assert r[i] in subs;
      }
    }
  }

  /** What an import attempt did. */
  datatype ImportStatus =
    | Cancelled   // blank input: nothing was parsed
    | Rejected    // malformed JSON or an element that fails its constructor
    | Ignored     // the JSON literal null
    | Imported    // all three lists were replaced

  /**
   * Builds one Subscription object per element, as deserialisation does;
   * None as soon as one of them fails its constructor.
   */
  method BuildSubscriptions(data: seq<SubscriptionData>) returns (r: Option<seq<Subscription>>)
    ensures r.Some? <==> forall i :: 0 <= i < |data| ==> ValidSubscriptionData(data[i])
    ensures r.Some? ==> Views(r.value) == data && Distinct(r.value)
    ensures r.Some? ==> forall i :: 0 <= i < |r.value| ==> fresh(r.value[i]) && r.value[i].Valid()
  {
    var built: seq<Subscription> := [];
    var i := 0;
    while i < |data|
      invariant 0 <= i <= |data|
      invariant |built| == i
      invariant forall k :: 0 <= k < i ==> ValidSubscriptionData(data[k])
      invariant forall k :: 0 <= k < i ==> fresh(built[k]) && built[k].Valid() && built[k].Data() == data[k]
      invariant Distinct(built)
    {
      var made := Subscription.Create(data[i].name, data[i].monthlyPrice, data[i].startDate, data[i].isActive);
      if made.Failure? {
        return None;
      }
      built := built + [made.value];
      i := i + 1;
    }
    r := Some(built);
  }

  class Ledger {
    var incomes: seq<Income>
    var expenses: seq<Expense>
    var subscriptions: seq<Subscription>

    /** Every subscription passed its constructor, and each is listed once. */
    ghost predicate Valid()
      reads this
    {
      (forall i :: 0 <= i < |subscriptions| ==> subscriptions[i].Valid()) && Distinct(subscriptions)
    }

    constructor ()
      ensures Valid()
      ensures incomes == [] && expenses == [] && subscriptions == []
    {
      incomes, expenses, subscriptions := [], [], [];
    }

    /** `incomes.Add(new Income(...))`: appends, or changes nothing when the constructor throws. */
    method AddIncome(date: Date, source: string, amount: real) returns (err: Option<ValidationError>)
      requires Valid()
      modifies this
      ensures Valid()
      ensures NewIncome(date, source, amount).Success? ==>
                err.None? && incomes == old(incomes) + [NewIncome(date, source, amount).value]
      ensures NewIncome(date, source, amount).Failure? ==>
                err == Some(NewIncome(date, source, amount).error) && incomes == old(incomes)
      ensures expenses == old(expenses) && subscriptions == old(subscriptions)
    {
      var made := NewIncome(date, source, amount);
      if made.Failure? {
        return Some(made.error);
      }
      incomes := incomes + [made.value];
      err := None;
    }

    /** `expenses.Add(new Expense(...))`: appends, or changes nothing when the constructor throws. */
    method AddExpense(date: Date, category: Category, amount: real, note: string) returns (err: Option<ValidationError>)
      requires Valid()
      modifies this
      ensures Valid()
      ensures NewExpense(date, category, amount, note).Success? ==>
                err.None? && expenses == old(expenses) + [NewExpense(date, category, amount, note).value]
      ensures NewExpense(date, category, amount, note).Failure? ==>
                err == Some(NewExpense(date, category, amount, note).error) && expenses == old(expenses)
      ensures incomes == old(incomes) && subscriptions == old(subscriptions)
    {
      var made := NewExpense(date, category, amount, note);
      if made.Failure? {
        return Some(made.error);
      }
      expenses := expenses + [made.value];
      err := None;
    }

    /**
     * `subscriptions.Add(new Subscription(name, price, date, true))`: a new
     * subscription starts out active; nothing changes when the constructor throws.
     */
    method AddSubscription(name: string, monthlyPrice: real, startDate: Date) returns (err: Option<ValidationError>)
      requires Valid()
      modifies this
      ensures Valid()
      ensures err == Check(monthlyPrice, name)
      ensures err.Some? ==> subscriptions == old(subscriptions)
      ensures err.None? ==> |subscriptions| == |old(subscriptions)| + 1 &&
                            subscriptions[..|old(subscriptions)|] == old(subscriptions) &&
                            fresh(subscriptions[|old(subscriptions)|])
      ensures err.None? ==> Views(subscriptions) == old(Views(subscriptions)) + [SubscriptionData(name, monthlyPrice, startDate, true)]
      ensures incomes == old(incomes) && expenses == old(expenses)
    {
      var made := Subscription.Create(name, monthlyPrice, startDate, true);
      if made.Failure? {
        return Some(made.error);
      }
      var s := made.value;
      ghost var before := subscriptions;
      ghost var viewsBefore := Views(subscriptions);
      DistinctAppend(before, s);
      subscriptions := subscriptions + [s];
      assert Views(subscriptions) == viewsBefore + [s.Data()];
      err := None;
    }

    /** The income menu's delete: an index out of range changes nothing. */
    method RemoveIncomeAt(idx: int)
      requires Valid()
      modifies this
      ensures Valid()
      ensures incomes == RemoveAt(old(incomes), idx)
      ensures expenses == old(expenses) && subscriptions == old(subscriptions)
    {
      if 0 <= idx < |incomes| {
        incomes := RemoveAt(incomes, idx);
      }
    }

    /** The expense menu's delete: an index out of range changes nothing. */
    method RemoveExpenseAt(idx: int)
      requires Valid()
      modifies this
      ensures Valid()
      ensures expenses == RemoveAt(old(expenses), idx)
      ensures incomes == old(incomes) && subscriptions == old(subscriptions)
    {
      if 0 <= idx < |expenses| {
        expenses := RemoveAt(expenses, idx);
      }
    }

    /** The subscription menu's delete: an index out of range changes nothing. */
    method RemoveSubscriptionAt(idx: int)
      requires Valid()
      modifies this
      ensures Valid()
      ensures subscriptions == RemoveAt(old(subscriptions), idx)
      ensures incomes == old(incomes) && expenses == old(expenses)
    {
      if 0 <= idx < |subscriptions| {
        var rest := RemoveAt(subscriptions, idx);
        forall i, j | 0 <= i < j < |rest| ensures rest[i] != rest[j] {
          var i', j' := if i < idx then i else i + 1, if j < idx then j else j + 1;
          assert rest[i] == subscriptions[i'] && rest[j] == subscriptions[j'];
        }
        subscriptions := rest;
      }
    }

    /**
     * The subscription menu's toggle: flips the active flag of the subscription
     * at `idx` and of no other; an index out of range changes nothing.
     */
    method ToggleSubscriptionAt(idx: int)
      requires Valid()
      modifies subscriptions
      ensures Valid()
      ensures Views(subscriptions) == ToggleAt(old(Views(subscriptions)), idx)
    {
      if 0 <= idx < |subscriptions| {
        subscriptions[idx].Toggle();
      }
    }

    /**
     * The JSON import: blank text cancels; malformed JSON or any element that
     * fails its constructor leaves all three lists as they were; `null` is
     * ignored; otherwise each list is replaced by the decoded array, or by an
     * empty list when that array is absent.
     */
    method Import(text: string, decoded: Decoded) returns (status: ImportStatus)
      requires Valid()
      modifies this
      ensures Valid()
      ensures status == Cancelled <==> IsBlank(text)
      ensures status == Ignored <==> !IsBlank(text) && decoded.NullDocument?
      ensures status == Imported <==> !IsBlank(text) && decoded.Parsed? && DocumentValid(decoded.doc)
      ensures status != Imported ==>
                incomes == old(incomes) && expenses == old(expenses) && subscriptions == old(subscriptions)
      ensures status == Imported ==>
                incomes == OrEmpty(decoded.doc.incomes) &&
                expenses == OrEmpty(decoded.doc.expenses) &&
                Views(subscriptions) == OrEmpty(decoded.doc.subscriptions) &&
                forall i :: 0 <= i < |subscriptions| ==> fresh(subscriptions[i])
    {
      if IsBlank(text) {
        return Cancelled;
      }
      match decoded
      case Malformed =>
        status := Rejected;
      case NullDocument =>
        status := Ignored;
      case Parsed(doc) =>
        var newIncomes := ValidIncomes(OrEmpty(doc.incomes));
        var newExpenses := ValidExpenses(OrEmpty(doc.expenses));
        var newSubscriptions := BuildSubscriptions(OrEmpty(doc.subscriptions));
        if newIncomes.None? || newExpenses.None? || newSubscriptions.None? {
          return Rejected;
        }
        incomes, expenses, subscriptions := newIncomes.value, newExpenses.value, newSubscriptions.value;
        status := Imported;
    }

    /** The JSON export of the three lists. */
    function ExportDocument(): (doc: Document)
      reads this, subscriptions
      requires Valid()
      ensures DocumentValid(doc)
      ensures ValidIncomes(OrEmpty(doc.incomes)) == Some(incomes)
      ensures ValidExpenses(OrEmpty(doc.expenses)) == Some(expenses)
      ensures OrEmpty(doc.subscriptions) == Views(subscriptions)
    {
      ExportValidates(incomes, expenses, subscriptions);
      Export(incomes, expenses, subscriptions)
    }
  }
}
