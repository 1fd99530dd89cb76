/** The two alert strategies, AlertaSemanal and AlertaMensual: the spend of
    a period, optionally restricted to one category. Both read the clock;
    here the clock is the `Clock` value handed in. */
module Strategies {
  import opened Wrappers
  import opened Text
  import opened Calendar
  import opened Categories
  import opened Expenses
  import Seqs

  /** PeriodoTemporal. */
  datatype Period = Weekly | Monthly

  /** The implementations of EstrategiaAlerta. */
  datatype Strategy = WeeklySpend | MonthlySpend

  /** `PeriodoTemporal.getDescripcion`. */
  function Label(p: Period): (s: string)
    ensures p.Weekly? <==> s == "Semanal"
    ensures p.Monthly? <==> s == "Mensual"
  {
    match p
    case Weekly => "Semanal"
    case Monthly => "Mensual"
  }

  /** The strategy `recrearEstrategia` builds for a period. */
  function StrategyOf(p: Period): (s: Strategy)
    ensures s.WeeklySpend? <==> p.Weekly?
  {
    match p
    case Weekly => WeeklySpend
    case Monthly => MonthlySpend
  }

  /** The dates a strategy counts: from the first day of the week to six
      days later for the weekly one, from the first of the month onwards,
      with no upper bound, for the monthly one. */
  predicate InWindow(s: Strategy, clock: Clock, d: Date) {
    match s
    case WeeklySpend => !Before(d, clock.weekStart) && !After(d, PlusDays(clock.weekStart, 6))
    case MonthlySpend => !Before(d, FirstOfMonth(clock.today))
  }

  /** `categoria == null || g.esDeCategoria(categoria)` together with the
      window: whether an expense is counted. */
  predicate Counted(s: Strategy, clock: Clock, c: Option<Category>, e: Expense) {
    InWindow(s, clock, e.date) && (c.None? || OfCategory(e, c))
  }

  /** `calcularGastoEnPeriodo`: the amounts of the counted expenses, added
      in list order. */
  function Spend(s: Strategy, clock: Clock, es: seq<Expense>, c: Option<Category>): (t: real)
    ensures t >= 0.0
  {
    Total(Seqs.Filter(es, (e: Expense) => Counted(s, clock, c, e)))
  }

  /** The total of what a test keeps of one expense. */
  lemma TotalFilterOne(x: Expense, p: Expense -> bool)
    ensures Total(Seqs.Filter([x], p)) == if p(x) then x.amount else 0.0
  {
    assert [x][1..] == [];
    assert [x][..0] == [];
  }

  /** The spend of a concatenation is the sum of the spends, and one more
      expense adds its amount when it is counted and nothing otherwise, so
      the spend never decreases. */
  lemma SpendAppend(s: Strategy, clock: Clock, es: seq<Expense>, more: seq<Expense>, x: Expense, c: Option<Category>)
    ensures Spend(s, clock, es + more, c) == Spend(s, clock, es, c) + Spend(s, clock, more, c)
    ensures Spend(s, clock, es + [x], c) == Spend(s, clock, es, c) + (if Counted(s, clock, c, x) then x.amount else 0.0)
    ensures Spend(s, clock, es + more, c) >= Spend(s, clock, es, c)
  {
    var p := (e: Expense) => Counted(s, clock, c, e);
    Seqs.FilterAppend(es, more, p);
    TotalAppend(Seqs.Filter(es, p), Seqs.Filter(more, p));
    Seqs.FilterAppend(es, [x], p);
    TotalAppend(Seqs.Filter(es, p), Seqs.Filter([x], p));
    TotalFilterOne(x, p);
  }

  /** Nothing counted, nothing spent: an empty list, or one whose every
      expense lies outside the window or belongs to another category,
      spends 0. */
  lemma SpendNothingCounted(s: Strategy, clock: Clock, es: seq<Expense>, c: Option<Category>)
    requires forall i :: 0 <= i < |es| ==> !Counted(s, clock, c, es[i])
    ensures Spend(s, clock, es, c) == 0.0
  {
    Seqs.FilterAllOrNothing(es, (e: Expense) => Counted(s, clock, c, e));
  }

  /** Today lies in the weekly window whenever the week starts at most six
      days before today. */
  lemma TodayInWeek(clock: Clock)
    requires Consistent(clock)
    ensures InWindow(WeeklySpend, clock, clock.today)
  {
    var k: nat :| k <= 6 && clock.today == PlusDays(clock.weekStart, k);
    PlusDaysWithin(clock.weekStart, k, 6);
  }

  /** Today lies in the monthly window, and so does every later date:
      the monthly strategy counts expenses dated in the future. */
  lemma MonthlyHasNoEnd(clock: Clock, d: Date)
    requires clock.today.day >= 1
    ensures InWindow(MonthlySpend, clock, clock.today)
    ensures !Before(d, clock.today) ==> InWindow(MonthlySpend, clock, d)
  {
    BeforeIsStrictTotalOrder(d, FirstOfMonth(clock.today), clock.today);
  }

  /** The part of a three-expense list's spend that each expense adds. */
  lemma SpendOfThree(s: Strategy, clock: Clock, c: Option<Category>, x: Expense, y: Expense, z: Expense)
    ensures Spend(s, clock, [x, y, z], c) ==
      (if Counted(s, clock, c, x) then x.amount else 0.0) +
      (if Counted(s, clock, c, y) then y.amount else 0.0) +
      (if Counted(s, clock, c, z) then z.amount else 0.0)
  {
    SpendNothingCounted(s, clock, [], c);
    SpendAppend(s, clock, [], [], x, c);
    SpendAppend(s, clock, [x], [], y, c);
    SpendAppend(s, clock, [x, y], [], z, c);
    assert [] + [x] == [x] && [x] + [y] == [x, y] && [x, y] + [z] == [x, y, z];
  }

  /** A monthly limit on one category counts only that category: with 150
      and 100 of food and 500 of transport dated today, the food spend is
      250. */
  lemma MonthlyFoodExample(clock: Clock, food: Category, transport: Category, x: Expense, y: Expense, z: Expense)
    requires clock.today.day >= 1
    requires food.name == "Alimentación" && transport.name == "Transporte"
    requires x.amount == 150.0 && y.amount == 100.0 && z.amount == 500.0
    requires x.date == clock.today && y.date == clock.today && z.date == clock.today
    requires x.category == Some(food) && y.category == Some(food) && z.category == Some(transport)
    ensures Spend(MonthlySpend, clock, [x, y, z], Some(food)) == 250.0
  {
    var c := Some(food);
    MonthlyHasNoEnd(clock, clock.today);
    EqualsIgnoreCaseFacts(food.name, food.name, food.name);
    assert !Counted(MonthlySpend, clock, c, z) by {
      assert |transport.name| != |food.name|;
      EqualsIgnoreCaseFacts(transport.name, food.name, food.name);
    }
    SpendOfThree(MonthlySpend, clock, c, x, y, z);
  }
}
