/** ControladorCategorias: creating and deleting categories, guarding the
    deletion of a category that expenses or alerts still use. */
module CategoryControllers {
  import opened Wrappers
  import opened Text
  import opened Ids
  import opened Categories
  import opened Expenses
  import opened Alerts
  import opened CategoryRegistries
  import opened ExpenseCatalogues
  import opened AlertCatalogues
  import opened Repositories
  import Seqs

  /** Whether an expense is filed under the category with this identifier;
      categories are matched by identifier, as the controller does. */
  predicate FiledUnder(e: Expense, id: Id) {
    IsCategory(e.category, id)
  }

  /** Whether a category is present and is the one with this identifier. */
  predicate IsCategory(c: Option<Category>, id: Id) {
    c.Some? && c.value.id == id
  }

  /** How many expenses are filed under the category with this identifier:
      the positions of the list holding one, which is the length of the
      list `filter` keeps. */
  function ExpensesUsing(es: seq<Expense>, id: Id): (n: nat)
    ensures n == |set i: nat | i < |es| && FiledUnder(es[i], id)|
    ensures n == |Seqs.Filter(es, (e: Expense) => FiledUnder(e, id))|
    ensures n <= |es|
    ensures n == 0 <==> forall i :: 0 <= i < |es| ==> !FiledUnder(es[i], id)
  {
    assert Seqs.Positions(es, (e: Expense) => FiledUnder(e, id)) == set i: nat | i < |es| && FiledUnder(es[i], id);
    Seqs.Count(es, (e: Expense) => FiledUnder(e, id))
  }

  /** The category each alert watches, in list order. */
  function CategoriesOf(alerts: seq<Alert>): (r: seq<Option<Category>>)
    reads alerts
    ensures |r| == |alerts| && forall i :: 0 <= i < |alerts| ==> r[i] == alerts[i].category
  {
    seq(|alerts|, i requires 0 <= i < |alerts| reads alerts => alerts[i].category)
  }

  /** How many alerts watch the category with this identifier: the
      positions of the list holding one. */
  function AlertsUsing(alerts: seq<Alert>, id: Id): (n: nat)
    reads alerts
    ensures n == |set i: nat | i < |alerts| && IsCategory(alerts[i].category, id)|
    ensures n <= |alerts|
    ensures n == 0 <==> forall i :: 0 <= i < |alerts| ==> !IsCategory(alerts[i].category, id)
  {
    var cs := CategoriesOf(alerts);
    assert Seqs.Positions(cs, (c: Option<Category>) => IsCategory(c, id)) ==
           set i: nat | i < |alerts| && IsCategory(alerts[i].category, id);
    Seqs.Count(cs, (c: Option<Category>) => IsCategory(c, id))
  }

  /** With unique names, a category other than one that matches a name
      ignoring case does not match it. */
  lemma MatchesOnce(cs: seq<Category>, i: nat, j: nat, name: string)
    requires UniqueNames(cs) && i < |cs| && j < |cs| && i != j && EqualsIgnoreCase(cs[j].name, name)
    ensures !EqualsIgnoreCase(cs[i].name, name)
  {
    EqualsIgnoreCaseFacts(cs[i].name, name, cs[j].name);
    EqualsIgnoreCaseFacts(cs[j].name, name, cs[i].name);
  }

  /** With unique names, dropping a category that matches a name leaves
      none that does. */
  lemma DroppedMatchLeavesNone(cs: seq<Category>, k: nat, name: string)
    requires UniqueNames(cs) && k < |cs| && EqualsIgnoreCase(cs[k].name, name)
    ensures FindByName(cs[..k] + cs[k + 1..], name).None?
  {
    var r := cs[..k] + cs[k + 1..];
    forall i | 0 <= i < |r| ensures !EqualsIgnoreCase(r[i].name, name) {
      var i' := if i < k then i else i + 1;
      assert r[i] == cs[i'];
      MatchesOnce(cs, i', k, name);
    }
  }

  /** With unique names, once the category a name finds has been removed,
      the name finds nothing: no other category matches it, in any case. */
  lemma RemovedNotFound(cs: seq<Category>, name: string)
    requires UniqueNames(cs) && FindByName(cs, name).Some?
    ensures FindByName(WithoutName(cs, FindByName(cs, name).value.name), name).None?
  {
    var c := FindByName(cs, name).value;
    var f :| 0 <= f < |cs| && cs[f] == c && EqualsIgnoreCase(c.name, name);
    assert cs[f].name == c.name;
    var k :| 0 <= k < |cs| && cs[k].name == c.name && WithoutName(cs, c.name) == cs[..k] + cs[k + 1..];
    DroppedMatchLeavesNone(cs, k, name);
  }

  class CategoryController {
    const repo: Repository
    const registry: CategoryRegistry
    const catalogue: ExpenseCatalogue
    const alertCatalogue: AlertCatalogue
    const ids: IdSupply

    constructor (repo: Repository, registry: CategoryRegistry, catalogue: ExpenseCatalogue,
                 alertCatalogue: AlertCatalogue, ids: IdSupply)
      ensures this.repo == repo && this.registry == registry && this.catalogue == catalogue
      ensures this.alertCatalogue == alertCatalogue && this.ids == ids
    {
      this.repo := repo;
      this.registry := registry;
      this.catalogue := catalogue;
      this.alertCatalogue := alertCatalogue;
      this.ids := ids;
    }

    /** `crearCategoria`: the new category draws its identifier before its
        name is checked; a blank name or one already taken ignoring case
        changes nothing else; otherwise it goes at the end and the
        categories are saved. */
    method Create(name: string, description: string) returns (s: Status)
      requires registry.Valid()
      modifies registry, repo, ids
      ensures registry.Valid()
      ensures ids.next == old(ids.next) + 1
      ensures IsBlank(name) ==> s == Fail(BlankName)
      ensures !IsBlank(name) && FindByName(old(registry.categories), name).Some? ==> s == Fail(DuplicateCategoryName)
      ensures s.Fail? ==> registry.categories == old(registry.categories) && repo.log == old(repo.log)
      ensures !IsBlank(name) && FindByName(old(registry.categories), name).None? ==>
        s == Done && registry.categories == old(registry.categories) + [Category(old(ids.next), name, description)] &&
        repo.log == old(repo.log) + [SavedCategories(registry.categories)]
    {
      var id := ids.Fresh();
      var c := NewCategory(id, name, description);
      if c.Err? {
        return Fail(c.error);
      }
      s := registry.Add(c.value);
      if s == Done {
        repo.SaveCategories(registry.All());
      }
    }

    /** `contarGastosPorCategoria`: zero for a name that finds no category,
        and otherwise the number of expenses filed under the category found. */
    function CountExpenses(name: string): (n: nat)
      reads registry, catalogue
      ensures FindByName(registry.categories, name).None? ==> n == 0
      ensures FindByName(registry.categories, name).Some? ==>
        n == |set i: nat | i < |catalogue.expenses| && FiledUnder(catalogue.expenses[i], FindByName(registry.categories, name).value.id)|
      ensures n <= |catalogue.expenses|
      ensures n == 0 <==>
        FindByName(registry.categories, name).None? ||
        forall i :: 0 <= i < |catalogue.expenses| ==> !FiledUnder(catalogue.expenses[i], FindByName(registry.categories, name).value.id)
    {
      match FindByName(registry.categories, name)
      case None => 0
      case Some(c) => ExpensesUsing(catalogue.expenses, c.id)
    }

    /** `contarAlertasPorCategoria`: zero for a name that finds no category,
        and otherwise the number of alerts watching the category found. */
    function CountAlerts(name: string): (n: nat)
      reads registry, alertCatalogue, alertCatalogue.alerts
      ensures FindByName(registry.categories, name).None? ==> n == 0
      ensures FindByName(registry.categories, name).Some? ==>
        n == |set i: nat | i < |alertCatalogue.alerts| &&
                           IsCategory(alertCatalogue.alerts[i].category, FindByName(registry.categories, name).value.id)|
      ensures n <= |alertCatalogue.alerts|
      ensures n == 0 <==>
        FindByName(registry.categories, name).None? ||
        forall i :: 0 <= i < |alertCatalogue.alerts| ==>
          !IsCategory(alertCatalogue.alerts[i].category, FindByName(registry.categories, name).value.id)
    {
      match FindByName(registry.categories, name)
      case None => 0
      case Some(c) => AlertsUsing(alertCatalogue.alerts, c.id)
    }

    /** `eliminarCategoria`: nothing happens for a name that finds no
        category; a category that expenses use, and then one that alerts
        use, is refused with the count; otherwise it goes, the categories
        are saved, and the name finds nothing any more. */
    method Delete(name: string) returns (s: Status)
      requires registry.Valid()
      modifies registry, repo
      ensures registry.Valid()
      ensures FindByName(old(registry.categories), name).None? ==>
        s == Done && registry.categories == old(registry.categories) && repo.log == old(repo.log)
      ensures old(CountExpenses(name)) > 0 ==> s == Fail(CategoryHasExpenses(old(CountExpenses(name))))
      ensures old(CountExpenses(name)) == 0 && old(CountAlerts(name)) > 0 ==> s == Fail(CategoryHasAlerts(old(CountAlerts(name))))
      ensures s.Fail? ==> registry.categories == old(registry.categories) && repo.log == old(repo.log)
      ensures FindByName(old(registry.categories), name).Some? && old(CountExpenses(name)) == 0 && old(CountAlerts(name)) == 0 ==>
        s == Done &&
        registry.categories == WithoutName(old(registry.categories), FindByName(old(registry.categories), name).value.name) &&
        |registry.categories| == |old(registry.categories)| - 1 &&
        FindByName(registry.categories, name).None? &&
        repo.log == old(repo.log) + [SavedCategories(registry.categories)]
    {
      var found := registry.Find(name);
      if found.None? {
        return Done;
      }
      var c := found.value;
      var inUse := ExpensesUsing(catalogue.All(), c.id);
      if inUse > 0 {
        return Fail(CategoryHasExpenses(inUse));
      }
      var watched := AlertsUsing(alertCatalogue.All(), c.id);
      if watched > 0 {
        return Fail(CategoryHasAlerts(watched));
      }
      RemovedNotFound(registry.categories, name);
      assert c.name in NamesOf(registry.categories);
      registry.Remove(c);
      repo.SaveCategories(registry.All());
      s := Done;
    }

    /** `eliminarCategoriaForzado`: the category a name finds goes with no
        check of who uses it. */
    method ForceDelete(name: string)
      requires registry.Valid()
      modifies registry, repo
      ensures registry.Valid()
      ensures FindByName(old(registry.categories), name).None? ==>
        registry.categories == old(registry.categories) && repo.log == old(repo.log)
      ensures FindByName(old(registry.categories), name).Some? ==>
        registry.categories == WithoutName(old(registry.categories), FindByName(old(registry.categories), name).value.name) &&
        FindByName(registry.categories, name).None? &&
        repo.log == old(repo.log) + [SavedCategories(registry.categories)]
    {
      var found := registry.Find(name);
      if found.Some? {
        RemovedNotFound(registry.categories, name);
        registry.Remove(found.value);
        repo.SaveCategories(registry.All());
      }
    }

    /** `buscarCategoriaPorNombre`: the first category whose name matches
        ignoring case. */
    function Find(name: string): (r: Option<Category>)
      reads registry
      ensures r == FindByName(registry.categories, name)
      ensures r.None? <==> forall c :: c in registry.categories ==> !EqualsIgnoreCase(c.name, name)
    {
      registry.Find(name)
    }

    /** `obtenerTodasLasCategorias`: the registry's list, in order. */
    function All(): (r: seq<Category>)
      reads registry
      ensures r == registry.categories
    {
      registry.All()
    }
  }
}
