/** The expense filters: by category, by date range, by month, and the
    composite that chains other filters. Every filter returns a new list
    with the expenses it keeps, in their original order, and leaves its
    input alone. A filter is a value here: the category and month sets are
    copied when a filter is built, so nothing the caller does afterwards can
    change what it keeps. */
module Filters {
  import opened Wrappers
  import opened Calendar
  import opened Categories
  import opened Expenses
  import Seqs

  datatype Filter =
    | ByCategories(categories: set<Category>)   // FiltroCategorias
    | ByDates(start: Date, end: Date)           // FiltroFechas
    | ByMonths(months: set<Month>)              // FiltroMeses
    | Composite(members: seq<Filter>)           // FiltroCompuesto

  /** What each filter keeps, one expense at a time. The composite keeps
      what every member keeps. */
  predicate Keeps(f: Filter, e: Expense) {
    match f
    case ByCategories(cs) => exists c :: c in cs && OfCategory(e, Some(c))
    case ByDates(start, end) => InRange(e, start, end)
    case ByMonths(ms) => e.date.month in ms
    case Composite(ms) => forall m :: m in ms ==> Keeps(m, e)
  }

  /** `aplicar`, in the form each class gives it: a stream filter for the
      three simple filters, a left fold over the members for the
      composite. */
  function Apply(f: Filter, es: seq<Expense>): seq<Expense>
    decreases f, 1
  {
    match f
    case ByCategories(cs) => Seqs.Filter(es, (e: Expense) => exists c :: c in cs && OfCategory(e, Some(c)))
    case ByDates(start, end) => Seqs.Filter(es, (e: Expense) => InRange(e, start, end))
    case ByMonths(ms) => Seqs.Filter(es, (e: Expense) => e.date.month in ms)
    case Composite(ms) => Fold(ms, es)
  }

  /** `filtros.stream().reduce(gastos, (acc, f) -> f.aplicar(acc))`: the
      first member is applied first. */
  function Fold(ms: seq<Filter>, es: seq<Expense>): seq<Expense>
    decreases ms, 0
  {
    if |ms| == 0 then es else Fold(ms[1..], Apply(ms[0], es))
  }

  /** Whatever the filter, the result is the input with exactly the
      expenses the filter keeps, in their original order. */
  lemma {:induction false} ApplyIsFilter(f: Filter, es: seq<Expense>)
    ensures Apply(f, es) == Seqs.Filter(es, (e: Expense) => Keeps(f, e))
    decreases f, 1
  {
    match f
    case ByCategories(cs) =>
      Seqs.FilterSameTest(es, (e: Expense) => exists c :: c in cs && OfCategory(e, Some(c)), (e: Expense) => Keeps(f, e));
    case ByDates(start, end) =>
      Seqs.FilterSameTest(es, (e: Expense) => InRange(e, start, end), (e: Expense) => Keeps(f, e));
    case ByMonths(ms) =>
      Seqs.FilterSameTest(es, (e: Expense) => e.date.month in ms, (e: Expense) => Keeps(f, e));
    case Composite(ms) =>
      FoldIsFilter(ms, es);
      Seqs.FilterSameTest(es, (e: Expense) => forall m :: m in ms ==> Keeps(m, e), (e: Expense) => Keeps(f, e));
  }

  /** Folding the members one after the other keeps what all of them keep. */
  lemma {:induction false} FoldIsFilter(ms: seq<Filter>, es: seq<Expense>)
    ensures Fold(ms, es) == Seqs.Filter(es, (e: Expense) => forall m :: m in ms ==> Keeps(m, e))
    decreases ms, 0
  {
    var all := (e: Expense) => forall m :: m in ms ==> Keeps(m, e);
    if |ms| == 0 {
      Seqs.FilterAllOrNothing(es, all);
    } else {
      var first := (e: Expense) => Keeps(ms[0], e);
      var rest := (e: Expense) => forall m :: m in ms[1..] ==> Keeps(m, e);
      ApplyIsFilter(ms[0], es);
      FoldIsFilter(ms[1..], Apply(ms[0], es));
      forall e | e in es ensures all(e) == (first(e) && rest(e)) {
        assert forall m :: m in ms <==> m == ms[0] || m in ms[1..] by {
          assert ms == [ms[0]] + ms[1..];
        }
      }
      Seqs.FilterFilter(es, first, rest, all);
    }
  }

  /** The result of any filter is an order-preserving subsequence of its
      input: it holds exactly the input's expenses that the filter keeps,
      and filtering a concatenation concatenates the results. */
  lemma KeepsExactly(f: Filter, es: seq<Expense>, more: seq<Expense>)
    ensures |Apply(f, es)| <= |es|
    ensures forall i :: 0 <= i < |Apply(f, es)| ==> Apply(f, es)[i] in es && Keeps(f, Apply(f, es)[i])
    ensures forall i :: 0 <= i < |es| && Keeps(f, es[i]) ==> es[i] in Apply(f, es)
    ensures Apply(f, es + more) == Apply(f, es) + Apply(f, more)
  {
    ApplyIsFilter(f, es);
    ApplyIsFilter(f, more);
    ApplyIsFilter(f, es + more);
    Seqs.FilterAppend(es, more, (e: Expense) => Keeps(f, e));
  }

  /** A composite keeps exactly the expenses every member keeps, so the
      order in which the members were added does not matter. */
  lemma CompositeOrderIrrelevant(ms: seq<Filter>, ns: seq<Filter>, es: seq<Expense>)
    requires multiset(ms) == multiset(ns)
    ensures Apply(Composite(ms), es) == Apply(Composite(ns), es)
  {
    ApplyIsFilter(Composite(ms), es);
    ApplyIsFilter(Composite(ns), es);
    forall m ensures m in ms <==> m in ns {
      assert m in ms <==> m in multiset(ms);
      assert m in ns <==> m in multiset(ns);
    }
    Seqs.FilterSameTest(es, (e: Expense) => Keeps(Composite(ms), e), (e: Expense) => Keeps(Composite(ns), e));
  }

  /** A composite with no members returns its input unchanged; a composite
      of one filter behaves as that filter. */
  lemma CompositeUnits(f: Filter, es: seq<Expense>)
    ensures Apply(Composite([]), es) == es
    ensures Apply(Composite([f]), es) == Apply(f, es)
  {
    assert [f][1..] == [];
    assert Fold([f], es) == Fold([], Apply(f, es));
  }

  /** A date range that starts after it ends keeps nothing; the filter does
      not swap the ends. */
  lemma ReversedRangeKeepsNothing(start: Date, end: Date, es: seq<Expense>)
    requires After(start, end)
    ensures Apply(ByDates(start, end), es) == []
  {
    forall e | e in es ensures !InRange(e, start, end) {
      InRangeInclusive(e, start, end);
    }
    Seqs.FilterAllOrNothing(es, (e: Expense) => InRange(e, start, end));
  }

  /** An empty month set keeps nothing, and so does an empty category set. */
  lemma EmptySetsKeepNothing(es: seq<Expense>)
    ensures Apply(ByMonths({}), es) == []
    ensures Apply(ByCategories({}), es) == []
  {
    ApplyIsFilter(ByMonths({}), es);
    ApplyIsFilter(ByCategories({}), es);
    Seqs.FilterAllOrNothing(es, (e: Expense) => Keeps(ByMonths({}), e));
    Seqs.FilterAllOrNothing(es, (e: Expense) => Keeps(ByCategories({}), e));
  }

  /** FiltroCompuesto, whose member list grows in place. */
  class CompositeFilter {
    var members: seq<Filter>

    constructor ()
      ensures members == []
    {
      members := [];
    }

    /** `agregarFiltro`: one more member, at the end. */
    method Add(f: Filter)
      modifies this
      ensures members == old(members) + [f]
    {
      members := members + [f];
    }

    /** The filter as it stands now. */
    function Current(): (f: Filter)
      reads this
      ensures f.Composite? && f.members == members
    {
      Composite(members)
    }

    /** `aplicar`: the expenses that every member keeps, in input order. */
    function ApplyTo(es: seq<Expense>): (r: seq<Expense>)
      reads this
      ensures var ms := members; r == Seqs.Filter(es, (e: Expense) => forall m :: m in ms ==> Keeps(m, e))
    {
      FoldIsFilter(members, es);
      Fold(members, es)
    }
  }
}
