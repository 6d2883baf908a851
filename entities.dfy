/**
 * The tracker's domain records: incomes and expenses, which never change
 * once built, and subscriptions, whose active flag can be toggled.
 * Each is built through a checking constructor that rejects a non-positive
 * amount (or price) and a blank text field.
 */
module Entities {
  import opened Wrappers
  import opened Calendar

  datatype Category = Food | Transport | Fun | School | Other

  /** The categories in declaration order, as Enum.GetValues lists them. */
  const AllCategories: seq<Category> := [Food, Transport, Fun, School, Other]

  /** The two reasons a constructor throws a ValidationException. */
  datatype ValidationError = NonPositiveAmount | BlankText

  /** .NET's Char.IsWhiteSpace: the Unicode space separators, line and paragraph separators, and the controls U+0009-U+000D and U+0085. */
  predicate IsWhiteSpace(c: char)
  {
    var n := c as int;
    (0x09 <= n <= 0x0D) || n == 0x20 || n == 0x85 || n == 0xA0 || n == 0x1680 ||
    (0x2000 <= n <= 0x200A) || n == 0x2028 || n == 0x2029 || n == 0x202F ||
    n == 0x205F || n == 0x3000
  }

  /** string.IsNullOrWhiteSpace; a null string is modelled as the empty string. */
  predicate IsBlank(s: string)
    ensures s == [] ==> IsBlank(s)
    ensures IsBlank(s) <==> forall c :: c in s ==> IsWhiteSpace(c)
  {
    forall i :: 0 <= i < |s| ==> IsWhiteSpace(s[i])
  }

  /** Blank texts: empty, or only whitespace; any other character makes a text non-blank. */
  lemma BlankExamples()
    ensures IsBlank("") && IsBlank(" \t\r\n")
    ensures !IsBlank(" x ") && !IsBlank("Rent")
  {
    assert !IsWhiteSpace(" x "[1]);
    assert !IsWhiteSpace("Rent"[0]);
  }

  /**
   * The guard every constructor runs before assigning its fields: the amount
   * is checked first, then the text.
   */
  function Check(amount: real, text: string): (r: Option<ValidationError>)
    ensures r.None? <==> amount > 0.0 && !IsBlank(text)
    ensures amount <= 0.0 ==> r == Some(NonPositiveAmount)
    ensures amount > 0.0 && IsBlank(text) ==> r == Some(BlankText)
  {
    if amount <= 0.0 then Some(NonPositiveAmount)
    else if IsBlank(text) then Some(BlankText)
    else None
  }

  datatype IncomeData = IncomeData(date: Date, source: string, amount: real)

  /** An income that passed its constructor's checks. */
  type Income = i: IncomeData | i.amount > 0.0 && !IsBlank(i.source)
    witness assert !IsWhiteSpace("-"[0]); IncomeData(CalendarDate(1, 1, 1), "-", 1.0)

  datatype ExpenseData = ExpenseData(date: Date, category: Category, amount: real, note: string)

  /** An expense that passed its constructor's checks. */
  type Expense = e: ExpenseData | e.amount > 0.0 && !IsBlank(e.note)
    witness assert !IsWhiteSpace("-"[0]); ExpenseData(CalendarDate(1, 1, 1), Other, 1.0, "-")

  /** The Income constructor: fails on a non-positive amount or a blank source. */
  function NewIncome(date: Date, source: string, amount: real): (r: Result<Income, ValidationError>)
    ensures r.Success? <==> amount > 0.0 && !IsBlank(source)
    ensures r.Success? ==> r.value.date == date && r.value.source == source && r.value.amount == amount
    ensures r.Failure? ==> Some(r.error) == Check(amount, source)
  {
    match Check(amount, source)
    case Some(err) => Failure(err)
    case None => Success(IncomeData(date, source, amount))
  }

  /** The Expense constructor: fails on a non-positive amount or a blank note. */
  function NewExpense(date: Date, category: Category, amount: real, note: string): (r: Result<Expense, ValidationError>)
    ensures r.Success? <==> amount > 0.0 && !IsBlank(note)
    ensures r.Success? ==> r.value.date == date && r.value.category == category &&
                           r.value.amount == amount && r.value.note == note
    ensures r.Failure? ==> Some(r.error) == Check(amount, note)
  {
    match Check(amount, note)
    case Some(err) => Failure(err)
    case None => Success(ExpenseData(date, category, amount, note))
  }

  /** The field values of a subscription, as they appear in an exported document. */
  datatype SubscriptionData = SubscriptionData(name: string, monthlyPrice: real, startDate: Date, isActive: bool)

  /** A recurring subscription; only its active flag can change after construction. */
  class Subscription {
    const name: string
    const monthlyPrice: real
    const startDate: Date
    var isActive: bool

    /** The constructor's checks hold of the fixed fields. */
    predicate Valid()
    {
      monthlyPrice > 0.0 && !IsBlank(name)
    }

    /**
     * Field assignment behind Create, which runs the constructor's checks
     * first; only Create calls it, and its precondition is those checks.
     */
    constructor Init(name: string, monthlyPrice: real, startDate: Date, isActive: bool)
      requires monthlyPrice > 0.0 && !IsBlank(name)
      ensures Valid()
      ensures this.name == name && this.monthlyPrice == monthlyPrice
      ensures this.startDate == startDate && this.isActive == isActive
    {
      this.name := name;
      this.monthlyPrice := monthlyPrice;
      this.startDate := startDate;
      this.isActive := isActive;
    }

    /** The Subscription constructor: fails on a non-positive price or a blank name. */
    static method Create(name: string, monthlyPrice: real, startDate: Date, isActive: bool)
      returns (r: Result<Subscription, ValidationError>)
      ensures r.Success? <==> monthlyPrice > 0.0 && !IsBlank(name)
      ensures r.Failure? ==> Some(r.error) == Check(monthlyPrice, name)
      ensures r.Success? ==> fresh(r.value) && r.value.Valid() &&
                             r.value.Data() == SubscriptionData(name, monthlyPrice, startDate, isActive)
    {
      var check := Check(monthlyPrice, name);
      if check.Some? {
        r := Failure(check.value);
      } else {
        var s := new Subscription.Init(name, monthlyPrice, startDate, isActive);
        r := Success(s);
      }
    }

    /** The subscription's current field values. */
    function Data(): (d: SubscriptionData)
      reads this
      ensures d.isActive == isActive && d.startDate == startDate
      ensures d.name == name && d.monthlyPrice == monthlyPrice
    {
      SubscriptionData(name, monthlyPrice, startDate, isActive)
    }

    /** Flips the active flag; the other fields are constants. */
    method Toggle()
      modifies this
      ensures isActive == !old(isActive)
      ensures Data() == old(Data()).(isActive := !old(isActive))
    {
      isActive := !isActive;
    }
  }

  /** The current field values of a list of subscriptions. */
  function Views(subs: seq<Subscription>): (r: seq<SubscriptionData>)
    reads subs
    ensures |r| == |subs|
    ensures forall i :: 0 <= i < |subs| ==> r[i] == subs[i].Data()
  {
    if subs == [] then [] else [subs[0].Data()] + Views(subs[1..])
  }

  /**
   * The subscription menu's toggle on field values: the entry at `idx` has its
   * active flag flipped and nothing else changes; an index out of range
   * changes nothing.
   */
  function ToggleAt(v: seq<SubscriptionData>, idx: int): (r: seq<SubscriptionData>)
    ensures |r| == |v|
    ensures forall i :: 0 <= i < |v| && i != idx ==> r[i] == v[i]
    ensures 0 <= idx < |v| ==> r[idx] == v[idx].(isActive := !v[idx].isActive)
  {
    if 0 <= idx < |v| then v[idx := v[idx].(isActive := !v[idx].isActive)] else v
  }

  /** Toggling the same index twice restores the list. */
  lemma ToggleAtTwice(v: seq<SubscriptionData>, idx: int)
    ensures ToggleAt(ToggleAt(v, idx), idx) == v
  {
  }
}
