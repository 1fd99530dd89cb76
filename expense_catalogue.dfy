/** CatalogoGastos: the list of personal expenses. Adding and removing
    change the list in place; every query leaves it alone and answers from
    it. */
module ExpenseCatalogues {
  import opened Wrappers
  import opened Ids
  import opened Calendar
  import opened Categories
  import opened Expenses
  import opened Filters
  import Seqs

  /** `buscarPorId`: the first expense with this identifier, if any. */
  function FindById(es: seq<Expense>, id: Id): (r: Option<Expense>)
    ensures r.None? <==> forall i :: 0 <= i < |es| ==> es[i].id != id
    ensures r.Some? ==> exists k :: 0 <= k < |es| && es[k] == r.value && r.value.id == id &&
                                    forall j :: 0 <= j < k ==> es[j].id != id
  {
    if |es| == 0 then None
    else if es[0].id == id then Some(es[0])
    else
      var r := FindById(es[1..], id);
      assert forall j :: 1 <= j < |es| ==> es[j] == es[1..][j - 1];
      if r.Some? then
        ghost var k :| 0 <= k < |es| - 1 && es[1..][k] == r.value && r.value.id == id &&
                       forall j :: 0 <= j < k ==> es[1..][j].id != id;
        assert es[k + 1] == r.value;
        r
      else r
  }

  /** `List.remove(gasto)`, which compares by `Gasto.equals`, that is by
      identifier: the first expense with the identifier goes, the rest stay
      in order; with none the list is unchanged. */
  function WithoutFirst(es: seq<Expense>, id: Id): (r: seq<Expense>)
    ensures (forall i :: 0 <= i < |es| ==> es[i].id != id) ==> r == es
    ensures (exists i :: 0 <= i < |es| && es[i].id == id) ==>
      exists k :: 0 <= k < |es| && es[k].id == id && (forall j :: 0 <= j < k ==> es[j].id != id) &&
                  r == es[..k] + es[k + 1..]
  {
    match Seqs.FirstIndex(es, (e: Expense) => e.id == id)
    case None => es
    case Some(k) => es[..k] + es[k + 1..]
  }

  /** The list once the first expense with `e`'s identifier has become
      `e`: the setters change the object `buscarPorId` found, which keeps
      its place; with no such expense nothing changes. */
  function Replaced(es: seq<Expense>, e: Expense): (r: seq<Expense>)
    ensures |r| == |es|
    ensures (forall i :: 0 <= i < |es| ==> es[i].id != e.id) ==> r == es
    ensures (exists i :: 0 <= i < |es| && es[i].id == e.id) ==>
      exists k :: 0 <= k < |es| && es[k].id == e.id && (forall j :: 0 <= j < k ==> es[j].id != e.id) &&
                  r == es[k := e]
  {
    match Seqs.FirstIndex(es, (x: Expense) => x.id == e.id)
    case None => es
    case Some(k) => es[k := e]
  }

  /** After the change, looking the identifier up finds the changed
      expense, and the total moves by the change in its amount. */
  lemma ReplacedFound(es: seq<Expense>, e: Expense)
    requires FindById(es, e.id).Some?
    ensures FindById(Replaced(es, e), e.id) == Some(e)
    ensures Total(Replaced(es, e)) == Total(es) - FindById(es, e.id).value.amount + e.amount
  {
    var k := ReplacedAt(es, e);
    FirstMatch(es, e.id, k);
    var r := es[k := e];
    assert forall j :: 0 <= j < k ==> r[j].id != e.id;
    FirstMatch(r, e.id, k);
    TotalUpdate(es, k, e);
  }

  /** The place of the first expense with `e`'s identifier, which is the
      one `Replaced` overwrites. */
  lemma ReplacedAt(es: seq<Expense>, e: Expense) returns (k: nat)
    requires FindById(es, e.id).Some?
    ensures k < |es| && es[k].id == e.id && (forall j :: 0 <= j < k ==> es[j].id != e.id)
    ensures Replaced(es, e) == es[k := e]
  {
    k :| 0 <= k < |es| && es[k].id == e.id && (forall j :: 0 <= j < k ==> es[j].id != e.id) &&
         Replaced(es, e) == es[k := e];
  }

  /** The first expense with an identifier is the one lookup finds. */
  lemma FirstMatch(es: seq<Expense>, id: Id, k: nat)
    requires k < |es| && es[k].id == id && forall j :: 0 <= j < k ==> es[j].id != id
    ensures FindById(es, id) == Some(es[k])
  {
    var k' :| 0 <= k' < |es| && es[k'] == FindById(es, id).value && es[k'].id == id &&
              forall j :: 0 <= j < k' ==> es[j].id != id;
    assert k' == k;
  }

  /** Changing one expense changes the total by the change in its
      amount. */
  lemma TotalUpdate(es: seq<Expense>, k: nat, e: Expense)
    requires k < |es|
    ensures Total(es[k := e]) == Total(es) - es[k].amount + e.amount
  {
    var r := es[k := e];
    assert es == (es[..k] + [es[k]]) + es[k + 1..];
    assert r == (es[..k] + [e]) + es[k + 1..];
    TotalAppend(es[..k] + [es[k]], es[k + 1..]);
    TotalAppend(es[..k], [es[k]]);
    TotalAppend(es[..k] + [e], es[k + 1..]);
    TotalAppend(es[..k], [e]);
  }

  /** `obtenerPorCategoria(c)`: the expenses for which `esDeCategoria(c)`
      holds, in order. */
  function OfCategoryOnly(es: seq<Expense>, c: Option<Category>): (r: seq<Expense>)
    ensures r == Seqs.Filter(es, (e: Expense) => OfCategory(e, c))
    ensures c.None? ==> r == []
  {
    Seqs.FilterAllOrNothing(es, (e: Expense) => OfCategory(e, c));
    Seqs.Filter(es, (e: Expense) => OfCategory(e, c))
  }

  /** The expenses of a list dated in month `m`, in order. */
  function InMonthOnly(es: seq<Expense>, m: Month): (r: seq<Expense>)
    ensures |r| <= |es|
    decreases |es|
  {
    if |es| == 0 then []
    else InMonthOnly(es[..|es| - 1], m) + (if es[|es| - 1].date.month == m then [es[|es| - 1]] else [])
  }

  /** The expenses kept for month `m` are exactly those of the list dated
      in `m`. */
  lemma {:induction false} InMonthOnlyMembers(es: seq<Expense>, m: Month)
    ensures forall e :: e in InMonthOnly(es, m) <==> e in es && e.date.month == m
    decreases |es|
  {
    if |es| > 0 {
      var init, last := es[..|es| - 1], es[|es| - 1];
      assert es == init + [last];
      InMonthOnlyMembers(init, m);
    }
  }

  /** The same, for every month at once. */
  lemma InMonthOnlyMembersAll(es: seq<Expense>)
    ensures forall m: Month, e :: e in InMonthOnly(es, m) <==> e in es && e.date.month == m
  {
    forall m: Month {
      InMonthOnlyMembers(es, m);
    }
  }

  /** The months that occur in a list. */
  function MonthsOf(es: seq<Expense>): set<Month> {
    set i | 0 <= i < |es| :: es[i].date.month
  }

  /** `agruparPorMes`: one group per month that occurs, each holding that
      month's expenses in their original order. */
  function GroupByMonth(es: seq<Expense>): (g: map<Month, seq<Expense>>)
    ensures forall m :: m in g <==> exists i :: 0 <= i < |es| && es[i].date.month == m
    ensures forall m :: m in g ==> g[m] == InMonthOnly(es, m)
    ensures forall i :: 0 <= i < |es| ==> es[i].date.month in g && es[i] in g[es[i].date.month]
  {
    InMonthOnlyMembersAll(es);
    map m | m in MonthsOf(es) :: InMonthOnly(es, m)
  }

  /** The sizes of the groups of months 1 to `k`. */
  function GroupSizes(g: map<Month, seq<Expense>>, k: nat): nat
    requires k <= 12
  {
    if k == 0 then 0 else GroupSizes(g, k - 1) + (if k in g then |g[k]| else 0)
  }

  /** The number of expenses of a list dated in a month of 1 to `k`. */
  function InMonthsUpTo(es: seq<Expense>, k: nat): nat
    requires k <= 12
  {
    if k == 0 then 0 else InMonthsUpTo(es, k - 1) + |InMonthOnly(es, k)|
  }

  /** A month that does not occur has no expenses. */
  lemma {:induction false} InMonthOnlyAbsent(es: seq<Expense>, m: Month)
    requires forall i :: 0 <= i < |es| ==> es[i].date.month != m
    ensures InMonthOnly(es, m) == []
    decreases |es|
  {
    if |es| > 0 {
      InMonthOnlyAbsent(es[..|es| - 1], m);
    }
  }

  /** One more expense adds one to the group of its own month. */
  lemma InMonthOnlyAppend(es: seq<Expense>, x: Expense, m: Month)
    ensures |InMonthOnly(es + [x], m)| == |InMonthOnly(es, m)| + (if x.date.month == m then 1 else 0)
  {
    var s := es + [x];
    assert s[..|s| - 1] == es && s[|s| - 1] == x;
  }

  /** One more expense adds one to exactly the count of its month. */
  lemma {:induction false} InMonthsUpToAppend(es: seq<Expense>, x: Expense, k: nat)
    requires k <= 12
    ensures InMonthsUpTo(es + [x], k) == InMonthsUpTo(es, k) + (if x.date.month <= k then 1 else 0)
    decreases k
  {
    if k > 0 {
      InMonthsUpToAppend(es, x, k - 1);
      InMonthOnlyAppend(es, x, k);
    }
  }

  /** Nothing is counted in an empty list. */
  lemma {:induction false} InMonthsUpToEmpty(k: nat)
    requires k <= 12
    ensures InMonthsUpTo([], k) == 0
  {
    if k > 0 {
      InMonthsUpToEmpty(k - 1);
    }
  }

  /** Every expense is counted in exactly one month. */
  lemma {:induction false} InMonthsCountsAll(es: seq<Expense>)
    ensures InMonthsUpTo(es, 12) == |es|
    decreases |es|
  {
    if |es| == 0 {
      InMonthsUpToEmpty(12);
    } else {
      var init, x := es[..|es| - 1], es[|es| - 1];
      assert es == init + [x];
      InMonthsCountsAll(init);
      InMonthsUpToAppend(init, x, 12);
    }
  }

  /** Group sizes of a map holding, for each month that occurs, exactly
      that month's expenses count the expenses of months 1 to `k`. */
  lemma {:induction false} GroupSizesCount(g: map<Month, seq<Expense>>, es: seq<Expense>, k: nat)
    requires k <= 12
    requires forall m :: m in g ==> g[m] == InMonthOnly(es, m)
    requires forall m: Month :: m !in g ==> forall i :: 0 <= i < |es| ==> es[i].date.month != m
    ensures GroupSizes(g, k) == InMonthsUpTo(es, k)
  {
    if k > 0 {
      GroupSizesCount(g, es, k - 1);
      if k !in g {
        InMonthOnlyAbsent(es, k);
      }
    }
  }

  /** The groups by month partition the list: every expense sits in the
      group of its own month and in no other, and the group sizes add up to
      the number of expenses. */
  lemma GroupByMonthPartitions(es: seq<Expense>)
    ensures forall m :: m in GroupByMonth(es) ==> forall e :: e in GroupByMonth(es)[m] <==> e in es && e.date.month == m
    ensures GroupSizes(GroupByMonth(es), 12) == |es|
  {
    var g := GroupByMonth(es);
    forall m | m in g ensures forall e :: e in g[m] <==> e in es && e.date.month == m {
      InMonthOnlyMembers(es, m);
    }
    InMonthsCountsAll(es);
    GroupSizesCount(g, es, 12);
  }

  /** Whether an expense has a category called `n`. */
  predicate NamedAs(e: Expense, n: string) {
    e.category.Some? && e.category.value.name == n
  }

  /** The expenses of a list whose category is called `n`, as the
      collector of a group receives them: in encounter order, repeats
      kept. */
  function NamedCategoryOnly(es: seq<Expense>, n: string): (r: seq<Expense>)
    ensures r == Seqs.Filter(es, (e: Expense) => NamedAs(e, n))
    ensures forall e :: e in r <==> e in es && NamedAs(e, n)
    decreases |es|
  {
    if |es| == 0 then []
    else
      var init, last := es[..|es| - 1], es[|es| - 1];
      assert es == init + [last];
      Seqs.FilterAppend(init, [last], (e: Expense) => NamedAs(e, n));
      NamedCategoryOnly(init, n) + (if NamedAs(last, n) then [last] else [])
  }

  /** The names of the categories of a list whose expenses all have one. */
  function CategoryNamesOf(es: seq<Expense>): set<string>
    requires forall i :: 0 <= i < |es| ==> es[i].category.Some?
  {
    set i | 0 <= i < |es| :: es[i].category.value.name
  }

  /** `agruparPorCategoria`: `groupingBy(Gasto::getCategoria)` keys the map
      by Categoria, whose equality is name equality, so the expenses are
      grouped by category name; an expense without a category makes
      groupingBy throw. */
  function GroupByCategory(es: seq<Expense>): (r: Result<map<string, seq<Expense>>>)
    ensures r.Err? <==> exists i :: 0 <= i < |es| && es[i].category.None?
    ensures r.Err? ==> r.error == MissingCategory
    ensures r.Ok? ==> forall n :: n in r.value <==> exists i :: 0 <= i < |es| && es[i].category.value.name == n
    ensures r.Ok? ==> forall n :: n in r.value ==> r.value[n] == Seqs.Filter(es, (e: Expense) => NamedAs(e, n))
    ensures r.Ok? ==> forall i :: 0 <= i < |es| ==>
      es[i].category.value.name in r.value && es[i] in r.value[es[i].category.value.name]
    ensures r.Ok? ==> forall n :: n in r.value ==>
      forall e :: e in r.value[n] <==> e in es && NamedAs(e, n)
  {
    if exists i :: 0 <= i < |es| && es[i].category.None? then Err(MissingCategory)
    else
      var g := map n | n in CategoryNamesOf(es) :: NamedCategoryOnly(es, n);
      forall i | 0 <= i < |es| ensures es[i].category.value.name in g && es[i] in g[es[i].category.value.name] {
        var n := es[i].category.value.name;
        assert n in CategoryNamesOf(es) && NamedAs(es[i], n);
      }
      Ok(g)
  }

  /** The sizes of the groups named in `keys`. */
  ghost function NamedGroupSizes(g: map<string, seq<Expense>>, keys: set<string>): nat
    requires keys <= g.Keys
    decreases keys
  {
    if keys == {} then 0
    else
      var n :| n in keys;
      |g[n]| + NamedGroupSizes(g, keys - {n})
  }

  /** Whether an expense has a category whose name is in `keys`. */
  predicate NamedIn(e: Expense, keys: set<string>) {
    e.category.Some? && e.category.value.name in keys
  }

  /** Groups holding, for each name, exactly that name's expenses have as
      many expenses, over any set of names, as the list has under those
      names. */
  lemma {:induction false} NamedGroupSizesCount(g: map<string, seq<Expense>>, es: seq<Expense>, keys: set<string>)
    requires keys <= g.Keys
    requires forall n :: n in g ==> g[n] == Seqs.Filter(es, (e: Expense) => NamedAs(e, n))
    ensures NamedGroupSizes(g, keys) == |Seqs.Filter(es, (e: Expense) => NamedIn(e, keys))|
    decreases keys
  {
    if keys == {} {
      Seqs.FilterAllOrNothing(es, (e: Expense) => NamedIn(e, keys));
    } else {
      var n :| n in keys && NamedGroupSizes(g, keys) == |g[n]| + NamedGroupSizes(g, keys - {n});
      NamedGroupSizesCount(g, es, keys - {n});
      Seqs.FilterDisjoint(es, (e: Expense) => NamedAs(e, n), (e: Expense) => NamedIn(e, keys - {n}),
                          (e: Expense) => NamedIn(e, keys));
    }
  }

  /** The groups by category partition the list: every expense sits in the
      group of its category's name and in no other, and the group sizes add
      up to the number of expenses. */
  lemma GroupByCategoryPartitions(es: seq<Expense>)
    ensures GroupByCategory(es).Ok? ==> forall n, e :: n in GroupByCategory(es).value && e in es ==>
      (e in GroupByCategory(es).value[n] <==> e.category.value.name == n)
    ensures GroupByCategory(es).Ok? ==> NamedGroupSizes(GroupByCategory(es).value, GroupByCategory(es).value.Keys) == |es|
  {
    if GroupByCategory(es).Ok? {
      var g := GroupByCategory(es).value;
      NamedGroupSizesCount(g, es, g.Keys);
      Seqs.FilterAllOrNothing(es, (e: Expense) => NamedIn(e, g.Keys));
    }
  }

  class ExpenseCatalogue {
    var expenses: seq<Expense>

    constructor ()
      ensures expenses == []
    {
      expenses := [];
    }

    /** `agregarGasto`: null is refused and leaves the list alone; anything
        else goes at the end. */
    method Add(e: Option<Expense>) returns (s: Status)
      modifies this
      ensures e.None? ==> s == Fail(NullExpense) && expenses == old(expenses)
      ensures e.Some? ==> s == Done && expenses == old(expenses) + [e.value]
      ensures e.Some? ==> |expenses| == |old(expenses)| + 1 && Total(expenses) == Total(old(expenses)) + e.value.amount
    {
      if e.None? {
        return Fail(NullExpense);
      }
      TotalAppend(expenses, [e.value]);
      expenses := expenses + [e.value];
      s := Done;
    }

    /** `eliminarGasto`: drops the first expense equal to `e`, that is with
        its identifier; nothing changes when there is none. */
    method Remove(e: Expense)
      modifies this
      ensures expenses == WithoutFirst(old(expenses), e.id)
    {
      expenses := WithoutFirst(expenses, e.id);
    }

    /** The setters of `modificarGasto` applied to the expense the list
        holds with `e`'s identifier. */
    method Update(e: Expense)
      modifies this
      ensures expenses == Replaced(old(expenses), e)
    {
      expenses := Replaced(expenses, e);
    }

    /** `buscarPorId`. */
    function Find(id: Id): (r: Option<Expense>)
      reads this
      ensures r == FindById(expenses, id)
    {
      FindById(expenses, id)
    }

    /** `obtenerTodos`: the list as a value, so nothing done with the
        answer changes the catalogue. */
    function All(): (r: seq<Expense>)
      reads this
      ensures r == expenses
    {
      expenses
    }

    /** `calcularTotal`: the sum of every amount on the list. */
    function TotalAmount(): (t: real)
      reads this
      ensures t == Total(expenses)
      ensures t >= 0.0 && (expenses == [] ==> t == 0.0)
      ensures forall i :: 0 <= i < |expenses| ==> t >= expenses[i].amount
    {
      forall i | 0 <= i < |expenses| ensures Total(expenses) >= expenses[i].amount {
        TotalAtLeastEach(expenses, i);
      }
      Total(expenses)
    }

    /** `filtrar(filtro)`: the filter applied to the whole list. */
    function ApplyFilter(f: Filter): (r: seq<Expense>)
      reads this
      ensures r == Seqs.Filter(expenses, (e: Expense) => Keeps(f, e))
    {
      ApplyIsFilter(f, expenses);
      Apply(f, expenses)
    }

    /** `cantidadGastos`. */
    function Count(): (n: nat)
      reads this
      ensures n == |expenses|
    {
      |expenses|
    }
  }
}
