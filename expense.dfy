/** Gasto: one expense, with its amount, date, description, category and,
    inside a shared account, the identifier of the person who paid it. */
module Expenses {
  import opened Wrappers
  import opened Text
  import opened Ids
  import opened Calendar
  import opened Categories
  import Seqs

  /** Every constructor and setter of Gasto refuses a negative amount, so
      every expense holds one that is zero or more. */
  type Amount = r: real | r >= 0.0

  /** `pagador` is a Persona, compared by its identifier alone; the
      identifier is what the model keeps. */
  datatype Expense = Expense(
    id: Id,
    amount: Amount,
    date: Date,
    description: string,
    category: Option<Category>,
    payer: Option<Id>)

  /** `new Gasto(cantidad, fecha, descripcion, categoria)`: rejects a
      negative amount, accepts zero, and starts without a payer. */
  function NewExpense(id: Id, amount: real, date: Date, description: string, category: Option<Category>): (r: Result<Expense>)
    ensures r.Err? <==> amount < 0.0
    ensures r.Err? ==> r.error == NegativeAmount
    ensures r.Ok? ==> r.value.id == id && r.value.amount == amount && r.value.date == date
    ensures r.Ok? ==> r.value.description == description && r.value.category == category && r.value.payer == None
  {
    if amount < 0.0 then Err(NegativeAmount) else Ok(Expense(id, amount, date, description, category, None))
  }

  /** `setCantidad`: the same check; on failure the expense is unchanged. */
  function SetAmount(e: Expense, amount: real): (r: Result<Expense>)
    ensures r.Err? <==> amount < 0.0
    ensures r.Err? ==> r.error == NegativeAmount
    ensures r.Ok? ==> r.value.amount == amount && r.value == e.(amount := r.value.amount)
  {
    if amount < 0.0 then Err(NegativeAmount) else Ok(e.(amount := amount))
  }

  /** `perteneceAlMes`: the calendar month of the date, whatever the year. */
  predicate InMonth(e: Expense, m: Month) {
    e.date.month == m
  }

  /** `estaEnRango(inicio, fin)`: neither before `start` nor after `end`. */
  predicate InRange(e: Expense, start: Date, end: Date) {
    !Before(e.date, start) && !After(e.date, end)
  }

  /** The range is closed at both ends, and empty when it starts after it
      ends. */
  lemma InRangeInclusive(e: Expense, start: Date, end: Date)
    ensures InRange(e, start, end) <==>
      (e.date == start || Before(start, e.date)) && (e.date == end || Before(e.date, end))
    ensures e.date == start && !After(start, end) ==> InRange(e, start, end)
    ensures e.date == end && !Before(end, start) ==> InRange(e, start, end)
    ensures After(start, end) ==> !InRange(e, start, end)
  {
    BeforeIsStrictTotalOrder(e.date, start, end);
    BeforeIsStrictTotalOrder(start, e.date, end);
    BeforeIsStrictTotalOrder(end, start, e.date);
  }

  /** The month test ignores the year and the day. */
  lemma InMonthIgnoresYear(e: Expense, m: Month, year: int, day: int)
    ensures InMonth(e, m) == InMonth(e.(date := Date(year, e.date.month, day)), m)
  {
  }

  /** `esDeCategoria`: false when either side has no category, otherwise the
      two names compared ignoring case. */
  predicate OfCategory(e: Expense, c: Option<Category>) {
    e.category.Some? && c.Some? && EqualsIgnoreCase(e.category.value.name, c.value.name)
  }

  /** The category test needs both categories, ignores case, and is decided
      by the names alone. */
  lemma OfCategoryFacts(e: Expense, c: Category, d: Category)
    ensures !OfCategory(e, None) && !OfCategory(e.(category := None), Some(c))
    ensures e.category.Some? && e.category.value.name == c.name ==> OfCategory(e, Some(c))
    ensures EqualsIgnoreCase(c.name, d.name) ==> (OfCategory(e, Some(c)) <==> OfCategory(e, Some(d)))
  {
    EqualsIgnoreCaseFacts(c.name, d.name, c.name);
    if e.category.Some? {
      EqualsIgnoreCaseFacts(e.category.value.name, c.name, d.name);
      EqualsIgnoreCaseFacts(e.category.value.name, d.name, c.name);
    }
  }

  /** `calcularAporte(p)`: the part of the amount that `p` percent is. */
  function Contribution(e: Expense, pct: real): (r: real)
  {
    e.amount * (pct / 100.0)
  }

  /** No share gives nothing, a full share gives the whole amount, and a
      share between the two gives a part between nothing and the whole. */
  lemma ContributionBounds(e: Expense, pct: real)
    ensures pct == 0.0 ==> Contribution(e, pct) == 0.0
    ensures pct == 100.0 ==> Contribution(e, pct) == e.amount
    ensures 0.0 <= pct <= 100.0 ==> 0.0 <= Contribution(e, pct) <= e.amount
  {
    if 0.0 <= pct <= 100.0 {
      var f := pct / 100.0;
      assert 0.0 <= f <= 1.0;
      assert e.amount * f <= e.amount * 1.0;
    }
  }

  /** `Gasto.equals`: same identifier. */
  predicate SameExpense(a: Expense, b: Expense) {
    a.id == b.id
  }

  /** Equality looks at the identifier only: an expense edited in every
      other field is still equal to itself, and expenses made with different
      identifiers are different. */
  lemma EqualityById(e: Expense, amount: Amount, date: Date, description: string, category: Option<Category>, f: Expense)
    ensures SameExpense(e, e.(amount := amount, date := date, description := description, category := category))
    ensures e.id != f.id ==> !SameExpense(e, f)
  {
  }

  /** `mapToDouble(Gasto::getCantidad).sum()`. */
  function Total(es: seq<Expense>): (t: real)
    ensures t >= 0.0
    ensures |es| == 0 ==> t == 0.0
  {
    if |es| == 0 then 0.0 else Total(es[..|es| - 1]) + es[|es| - 1].amount
  }

  /** The total of a concatenation is the sum of the totals. */
  lemma {:induction false} TotalAppend(a: seq<Expense>, b: seq<Expense>)
    ensures Total(a + b) == Total(a) + Total(b)
    decreases |b|
  {
    if |b| == 0 {
      assert a + b == a;
    } else {
      TotalAppend(a, b[..|b| - 1]);
      assert (a + b)[..|a + b| - 1] == a + b[..|b| - 1];
      assert (a + b)[|a + b| - 1] == b[|b| - 1];
    }
  }

  /** Every expense of a list adds at least its own amount to the total. */
  lemma {:induction false} TotalAtLeastEach(es: seq<Expense>, k: nat)
    requires k < |es|
    ensures Total(es) >= es[k].amount
    decreases |es|
  {
    if k < |es| - 1 {
      TotalAtLeastEach(es[..|es| - 1], k);
    }
  }
}
