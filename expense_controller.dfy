/** ControladorGastos: registering, changing and removing expenses, the
    four filters the user can ask for, the month names they are given in,
    and the totals and groupings shown. */
module ExpenseControllers {
  import opened Wrappers
  import opened Text
  import opened Ids
  import opened Calendar
  import opened Categories
  import opened Expenses
  import opened Filters
  import opened ExpenseCatalogues
  import opened CategoryRegistries
  import opened Alerts
  import opened AlertControllers
  import opened Repositories
  import Seqs

  /** The Spanish month names `convertirNombreMes` knows, January first. */
  const MonthNames: seq<string> :=
    ["enero", "febrero", "marzo", "abril", "mayo", "junio",
     "julio", "agosto", "septiembre", "octubre", "noviembre", "diciembre"]

  /** The `switch` of `convertirNombreMes`, on a name already in lower
      case. */
  function MonthOfLower(l: string): (r: Option<Month>)
    ensures r.Some? ==> MonthNames[r.value - 1] == l
  {
    if l == "enero" then Some(1)
    else if l == "febrero" then Some(2)
    else if l == "marzo" then Some(3)
    else if l == "abril" then Some(4)
    else if l == "mayo" then Some(5)
    else if l == "junio" then Some(6)
    else if l == "julio" then Some(7)
    else if l == "agosto" then Some(8)
    else if l == "septiembre" then Some(9)
    else if l == "octubre" then Some(10)
    else if l == "noviembre" then Some(11)
    else if l == "diciembre" then Some(12)
    else None
  }

  /** `convertirNombreMes`: the month whose Spanish name is the given one
      in lower case; any other name is an error that carries it. */
  function MonthFromName(name: string): (r: Result<Month>)
    ensures r.Ok? ==> MonthNames[r.value - 1] == ToLower(name)
    ensures r.Err? ==> r.error == UnknownMonth(name)
  {
    match MonthOfLower(ToLower(name))
    case Some(m) => Ok(m)
    case None => Err(UnknownMonth(name))
  }

  /** A string without capitals is its own lower case. */
  lemma LowerCaseUnchanged(s: string)
    requires forall i :: 0 <= i < |s| ==> 'a' <= s[i] <= 'z'
    ensures ToLower(s) == s
  {
  }

  /** Every month's lower-case name is recognised as that month. */
  lemma MonthOfLowerRoundTrip(m: Month)
    ensures MonthOfLower(MonthNames[m - 1]) == Some(m)
  {
    if m <= 6 {
      if m == 1 { assert MonthOfLower("enero") == Some(1); }
      else if m == 2 { assert MonthOfLower("febrero") == Some(2); }
      else if m == 3 { assert MonthOfLower("marzo") == Some(3); }
      else if m == 4 { assert MonthOfLower("abril") == Some(4); }
      else if m == 5 { assert MonthOfLower("mayo") == Some(5); }
      else { assert MonthOfLower("junio") == Some(6); }
    } else {
      if m == 7 { assert MonthOfLower("julio") == Some(7); }
      else if m == 8 { assert MonthOfLower("agosto") == Some(8); }
      else if m == 9 { assert MonthOfLower("septiembre") == Some(9); }
      else if m == 10 { assert MonthOfLower("octubre") == Some(10); }
      else if m == 11 { assert MonthOfLower("noviembre") == Some(11); }
      else { assert MonthOfLower("diciembre") == Some(12); }
    }
  }

  /** Every month's name gives the month back. */
  lemma MonthNameRoundTrip(m: Month)
    ensures MonthFromName(MonthNames[m - 1]) == Ok(m)
  {
    var n := MonthNames[m - 1];
    if m == 1 { LowerCaseUnchanged("enero"); }
    else if m == 2 { LowerCaseUnchanged("febrero"); }
    else if m == 3 { LowerCaseUnchanged("marzo"); }
    else if m == 4 { LowerCaseUnchanged("abril"); }
    else if m == 5 { LowerCaseUnchanged("mayo"); }
    else if m == 6 { LowerCaseUnchanged("junio"); }
    else if m == 7 { LowerCaseUnchanged("julio"); }
    else if m == 8 { LowerCaseUnchanged("agosto"); }
    else if m == 9 { LowerCaseUnchanged("septiembre"); }
    else if m == 10 { LowerCaseUnchanged("octubre"); }
    else if m == 11 { LowerCaseUnchanged("noviembre"); }
    else { LowerCaseUnchanged("diciembre"); }
    assert ToLower(n) == n;
    MonthOfLowerRoundTrip(m);
  }

  /** The conversion depends only on the name ignoring case: names that
      differ only in capitals both fail, or give the same month. */
  lemma MonthNameIgnoresCase(a: string, b: string)
    requires EqualsIgnoreCase(a, b)
    ensures MonthFromName(a).Ok? <==> MonthFromName(b).Ok?
    ensures MonthFromName(a).Ok? ==> MonthFromName(a).value == MonthFromName(b).value
  {
  }

  /** `names.stream().map(convert).collect(toSet())`, as `filtrarPorMeses`
      does it with `convertirNombreMes`: the values of the names, or the
      error of the first name, in list order, that has none. */
  function Collected<T(==)>(convert: string -> Result<T>, names: seq<string>): (r: Result<set<T>>)
    ensures r.Ok? <==> forall i :: 0 <= i < |names| ==> convert(names[i]).Ok?
    ensures r.Err? ==>
      exists k :: 0 <= k < |names| && convert(names[k]) == Err(r.error) &&
        forall j :: 0 <= j < k ==> convert(names[j]).Ok?
    decreases |names|
  {
    if |names| == 0 then Ok({})
    else
      var rest := names[1..];
      assert forall j :: 1 <= j < |names| ==> names[j] == rest[j - 1];
      match convert(names[0])
      case Err(e) => Err(e)
      case Ok(m) =>
        match Collected(convert, rest)
        case Err(e) =>
          ghost var k :| 0 <= k < |rest| && convert(rest[k]) == Err(e) && forall j :: 0 <= j < k ==> convert(rest[j]).Ok?;
          assert names[k + 1] == rest[k];
          Err(e)
        case Ok(ms) => Ok({m} + ms)
  }

  /** When every name has a value, the set holds exactly their values. */
  lemma {:induction false} CollectedMembers<T>(convert: string -> Result<T>, names: seq<string>, m: T)
    requires Collected(convert, names).Ok?
    ensures m in Collected(convert, names).value <==> exists i :: 0 <= i < |names| && convert(names[i]) == Ok(m)
    decreases |names|
  {
    if |names| > 0 {
      var rest := names[1..];
      assert forall j :: 1 <= j < |names| ==> names[j] == rest[j - 1];
      CollectedMembers(convert, rest, m);
      if m in Collected(convert, names).value && convert(names[0]) != Ok(m) {
        var i :| 0 <= i < |rest| && convert(rest[i]) == Ok(m);
        assert names[i + 1] == rest[i];
      }
    }
  }

  /** `buscarPorNombre` on a list of categories, as a function of the name. */
  function Finder(cs: seq<Category>): string -> Option<Category> {
    (n: string) => FindByName(cs, n)
  }

  /** The categories some of the names find; names that find none are
      dropped. */
  function Resolved(find: string -> Option<Category>, names: seq<string>): (r: set<Category>)
    ensures r == {} <==> forall i :: 0 <= i < |names| ==> find(names[i]).None?
    decreases |names|
  {
    if |names| == 0 then {}
    else
      var init := names[..|names| - 1];
      assert forall i :: 0 <= i < |init| ==> init[i] == names[i];
      Resolved(find, init) + match find(names[|names| - 1])
                             case Some(c) => {c}
                             case None => {}
  }

  /** A category is resolved exactly when some name finds it. */
  lemma {:induction false} ResolvedMembers(find: string -> Option<Category>, names: seq<string>, c: Category)
    ensures c in Resolved(find, names) <==> exists i :: 0 <= i < |names| && find(names[i]) == Some(c)
    decreases |names|
  {
    if |names| > 0 {
      var init := names[..|names| - 1];
      ResolvedMembers(find, init, c);
      if c in Resolved(find, names) && c in Resolved(find, init) {
        var i :| 0 <= i < |init| && find(init[i]) == Some(c);
        assert names[i] == init[i];
      }
      if exists i :: 0 <= i < |names| && find(names[i]) == Some(c) {
        var i :| 0 <= i < |names| && find(names[i]) == Some(c);
        if i < |init| {
          assert init[i] == names[i];
        }
      }
    }
  }

  /** Some name that finds a registered category equals `n`, ignoring
      case. */
  predicate NameMatches(cs: seq<Category>, names: seq<string>, n: string) {
    exists i :: 0 <= i < |names| && FindByName(cs, names[i]).Some? && EqualsIgnoreCase(n, names[i])
  }

  /** The category filter built from the names keeps an expense exactly
      when its category's name equals, ignoring case, a name that finds a
      registered category. */
  lemma KeptByNames(cs: seq<Category>, names: seq<string>, e: Expense)
    ensures Keeps(ByCategories(Resolved(Finder(cs), names)), e) <==>
      e.category.Some? && NameMatches(cs, names, e.category.value.name)
  {
    var rs := Resolved(Finder(cs), names);
    if Keeps(ByCategories(rs), e) {
      var c :| c in rs && OfCategory(e, Some(c));
      ResolvedMembers(Finder(cs), names, c);
      var i :| 0 <= i < |names| && FindByName(cs, names[i]) == Some(c);
      EqualsIgnoreCaseFacts(e.category.value.name, c.name, names[i]);
    }
    if e.category.Some? && NameMatches(cs, names, e.category.value.name) {
      var i :| 0 <= i < |names| && FindByName(cs, names[i]).Some? && EqualsIgnoreCase(e.category.value.name, names[i]);
      var c := FindByName(cs, names[i]).value;
      ResolvedMembers(Finder(cs), names, c);
      EqualsIgnoreCaseFacts(c.name, names[i], e.category.value.name);
      EqualsIgnoreCaseFacts(e.category.value.name, names[i], c.name);
      assert OfCategory(e, Some(c));
    }
  }

  /** The categories of `filtrarCompuesto`: every name must find one, and
      the first that does not is an error. */
  function AllResolved(cs: seq<Category>, names: seq<string>): (r: Result<set<Category>>)
    ensures r.Ok? <==> forall i :: 0 <= i < |names| ==> FindByName(cs, names[i]).Some?
    ensures r.Err? ==> r.error == CategoryNotFound
    ensures r.Ok? ==> r.value == Resolved(Finder(cs), names)
  {
    if forall i :: 0 <= i < |names| ==> FindByName(cs, names[i]).Some? then Ok(Resolved(Finder(cs), names))
    else Err(CategoryNotFound)
  }

  /** What `registrarGasto` leaves in the registry and the catalogue, and
      the next free identifier. */
  datatype Registration = Registration(status: Status, categories: seq<Category>, expenses: seq<Expense>, next: Id)

  /** `registrarGasto` on values: the category is found ignoring case or
      created with the next identifier, which a blank name makes fail; the
      expense then takes the identifier after, and a negative amount is
      refused only after the new category was registered. */
  function Registered(cs: seq<Category>, es: seq<Expense>, next: Id, amount: real, date: Date,
                      description: string, name: string): Registration
  {
    match FindOrCreate(cs, name, "", next)
    case Err(err) => Registration(Fail(err), cs, es, next + 1)
    case Ok(c) =>
      var known := FindByName(cs, name).Some?;
      var cs' := if known then cs else cs + [c];
      var id := if known then next else next + 1;
      match NewExpense(id, amount, date, description, Some(c))
      case Err(err) => Registration(Fail(err), cs', es, id + 1)
      case Ok(e) => Registration(Done, cs', es + [e], id + 1)
  }

  /** A registration succeeds exactly when the name finds a category or
      is not blank, and the amount is not negative. It then adds one
      expense, last, with that amount, date and description, no payer,
      and a category whose name equals the one given ignoring case, which
      the registry afterwards holds; the total grows by the amount. A
      blank new name changes nothing; a negative amount keeps the new
      category but adds no expense. */
  lemma RegisteredFacts(cs: seq<Category>, es: seq<Expense>, next: Id, amount: real, date: Date,
                        description: string, name: string)
    requires UniqueNames(cs)
    ensures var g := Registered(cs, es, next, amount, date, description, name);
      g.status == Done <==> (FindByName(cs, name).Some? || !IsBlank(name)) && amount >= 0.0
    ensures var g := Registered(cs, es, next, amount, date, description, name);
      g.status == Done ==>
        |g.expenses| == |es| + 1 && g.expenses[..|es|] == es && Total(g.expenses) == Total(es) + amount &&
        var e := g.expenses[|es|];
        e.amount == amount && e.date == date && e.description == description && e.payer == None &&
        e.category.Some? && EqualsIgnoreCase(e.category.value.name, name) && e.category.value in g.categories
    ensures var g := Registered(cs, es, next, amount, date, description, name);
      g.status.Fail? ==> g.expenses == es
    ensures var g := Registered(cs, es, next, amount, date, description, name);
      FindByName(cs, name).None? && IsBlank(name) ==> g.status == Fail(BlankName) && g.categories == cs
    ensures var g := Registered(cs, es, next, amount, date, description, name);
      UniqueNames(g.categories) && (g.categories == cs || g.categories == cs + [Category(next, name, "")])
  {
    var g := Registered(cs, es, next, amount, date, description, name);
    match FindOrCreate(cs, name, "", next)
    case Err(_) =>
    case Ok(c) =>
      if FindByName(cs, name).None? {
        EqualsIgnoreCaseFacts(name, name, name);
        forall i | 0 <= i < |cs| ensures !EqualsIgnoreCase(cs[i].name, c.name) {
        }
        assert UniqueNames(cs + [c]);
      } else {
        EqualsIgnoreCaseFacts(c.name, name, name);
      }
      if g.status == Done {
        TotalAppend(es, [g.expenses[|es|]]);
        assert g.expenses == es + [g.expenses[|es|]];
      }
  }

  /** `modificarGasto` on values: an unknown expense, then an unknown
      category, is refused; a negative amount is refused by the first
      setter, before any field changes; otherwise the expense takes the
      new amount, date, description and category in its place. */
  function Modified(es: seq<Expense>, cs: seq<Category>, id: Id, amount: real, date: Date,
                    description: string, name: string): Result<seq<Expense>>
  {
    match ExpenseCatalogues.FindById(es, id)
    case None => Err(ExpenseNotFound)
    case Some(e) =>
      match FindByName(cs, name)
      case None => Err(CategoryNotFound)
      case Some(c) =>
        match SetAmount(e, amount)
        case Err(err) => Err(err)
        case Ok(e') => Ok(Replaced(es, e'.(date := date, description := description, category := Some(c))))
  }

  /** The errors come in the order the source checks them, and a change
      succeeds exactly when none applies. */
  lemma ModifiedErrors(es: seq<Expense>, cs: seq<Category>, id: Id, amount: real, date: Date,
                       description: string, name: string)
    ensures var m := Modified(es, cs, id, amount, date, description, name);
      m.Ok? <==> ExpenseCatalogues.FindById(es, id).Some? && FindByName(cs, name).Some? && amount >= 0.0
    ensures var m := Modified(es, cs, id, amount, date, description, name);
      (ExpenseCatalogues.FindById(es, id).None? ==> m == Err(ExpenseNotFound)) &&
      (ExpenseCatalogues.FindById(es, id).Some? && FindByName(cs, name).None? ==> m == Err(CategoryNotFound)) &&
      (ExpenseCatalogues.FindById(es, id).Some? && FindByName(cs, name).Some? && amount < 0.0 ==> m == Err(NegativeAmount))
  {
  }

  /** A successful change keeps the length and every other expense, puts
      the changed expense, with its identifier and payer, where lookup
      finds it, and moves the total by the change in amount. */
  lemma ModifiedChange(es: seq<Expense>, cs: seq<Category>, id: Id, amount: real, date: Date,
                       description: string, name: string)
    requires Modified(es, cs, id, amount, date, description, name).Ok?
    ensures var m := Modified(es, cs, id, amount, date, description, name).value;
      var before := ExpenseCatalogues.FindById(es, id).value;
      var after := Expense(id, amount, date, description, FindByName(cs, name), before.payer);
      |m| == |es| && ExpenseCatalogues.FindById(m, id) == Some(after) &&
      Total(m) == Total(es) - before.amount + amount &&
      exists k :: 0 <= k < |es| && es[k] == before && m == es[k := after]
  {
    var m := Modified(es, cs, id, amount, date, description, name).value;
    var before := ExpenseCatalogues.FindById(es, id).value;
    var after := Expense(id, amount, date, description, FindByName(cs, name), before.payer);
    assert m == Replaced(es, after);
    ReplacedFound(es, after);
    var k :| 0 <= k < |es| && es[k].id == id && (forall j :: 0 <= j < k ==> es[j].id != id) && m == es[k := after];
    FirstMatch(es, id, k);
  }

  class ExpenseController {
    const repo: Repository
    const catalogue: ExpenseCatalogue
    const registry: CategoryRegistry
    const alerts: AlertController
    const ids: IdSupply

    constructor (repo: Repository, catalogue: ExpenseCatalogue, registry: CategoryRegistry, alerts: AlertController, ids: IdSupply)
      ensures this.repo == repo && this.catalogue == catalogue && this.registry == registry
      ensures this.alerts == alerts && this.ids == ids
    {
      this.repo := repo;
      this.catalogue := catalogue;
      this.registry := registry;
      this.alerts := alerts;
      this.ids := ids;
    }

    /** `persistir`: the expenses, then the categories. */
    method Persist()
      modifies repo
      ensures repo.log == old(repo.log) + [SavedExpenses(catalogue.expenses), SavedCategories(registry.categories)]
    {
      repo.SaveExpenses(catalogue.All());
      repo.SaveCategories(registry.All());
    }

    /** The last step of `registrarGasto` and `modificarGasto`: every alert
        is checked against all expenses and the alerts are saved; the
        expenses and the categories stay as they are. */
    method CheckAlerts(clock: Clock)
      modifies alerts.repo, alerts.ids, alerts.catalogue.alerts
      ensures catalogue.expenses == old(catalogue.expenses) && registry.categories == old(registry.categories)
      ensures repo.log == old(repo.log) + (if alerts.repo == repo then [SavedAlerts(alerts.catalogue.alerts)] else [])
      ensures alerts.repo != repo ==> alerts.repo.log == old(alerts.repo.log) + [SavedAlerts(alerts.catalogue.alerts)]
      ensures forall a :: a in alerts.catalogue.alerts ==> a.State() == Checked(old(a.State()), clock, catalogue.expenses)
    {
      alerts.Verify(Some(catalogue.expenses), clock);
    }

    /** The catalogue and registry steps of `registrarGasto`, before the
        alerts are checked. */
    method Record(amount: real, date: Date, description: string, categoryName: string) returns (s: Status)
      requires registry.Valid()
      modifies catalogue, registry, repo, ids
      ensures registry.Valid()
      ensures var g := Registered(old(registry.categories), old(catalogue.expenses), old(ids.next), amount, date, description, categoryName);
        s == g.status && registry.categories == g.categories && catalogue.expenses == g.expenses
      ensures s == Done ==> repo.log == old(repo.log) + [SavedExpenses(catalogue.expenses), SavedCategories(registry.categories)]
      ensures s.Fail? ==> repo.log == old(repo.log)
    {
      ghost var g := Registered(registry.categories, catalogue.expenses, ids.next, amount, date, description, categoryName);
      var c := registry.FindOrAdd(categoryName, "", ids);
      if c.Err? {
        assert g.status == Fail(c.error) && g.categories == registry.categories && g.expenses == catalogue.expenses;
        return Fail(c.error);
      }
      ghost var cs := registry.categories;
      assert g.categories == cs;
      var id := ids.Fresh();
      var e := NewExpense(id, amount, date, description, Some(c.value));
      if e.Err? {
        assert g.status == Fail(e.error) && g.expenses == catalogue.expenses;
        return Fail(e.error);
      }
      assert g.expenses == catalogue.expenses + [e.value];
      var _ := catalogue.Add(Some(e.value));
      Persist();
      s := Done;
    }

    /** `registrarGasto`: the registry and catalogue change as `Registered`
        says; after a success the lists are saved and every alert is
        checked against all expenses. */
    method Register(amount: real, date: Date, description: string, categoryName: string, clock: Clock) returns (s: Status)
      requires registry.Valid()
      modifies catalogue, registry, repo, ids, alerts.repo, alerts.ids, alerts.catalogue.alerts
      ensures registry.Valid()
      ensures var g := Registered(old(registry.categories), old(catalogue.expenses), old(ids.next), amount, date, description, categoryName);
        s == g.status && registry.categories == g.categories && catalogue.expenses == g.expenses
      ensures s.Fail? ==> repo.log == old(repo.log)
      ensures s == Done ==>
        repo.log == old(repo.log) + [SavedExpenses(catalogue.expenses), SavedCategories(registry.categories)] +
          (if alerts.repo == repo then [SavedAlerts(alerts.catalogue.alerts)] else [])
      ensures s == Done && alerts.repo != repo ==> alerts.repo.log == old(alerts.repo.log) + [SavedAlerts(alerts.catalogue.alerts)]
      ensures s == Done ==>
        forall a :: a in alerts.catalogue.alerts ==> a.State() == Checked(old(a.State()), clock, catalogue.expenses)
    {
      s := Record(amount, date, description, categoryName);
      if s == Done {
        CheckAlerts(clock);
      }
    }

    /** The catalogue steps of `modificarGasto`, before the alerts are
        checked. */
    method Change(id: Id, amount: real, date: Date, description: string, categoryName: string) returns (s: Status)
      modifies catalogue, repo
      ensures var m := Modified(old(catalogue.expenses), registry.categories, id, amount, date, description, categoryName);
        s == (if m.Ok? then Done else Fail(m.error)) && catalogue.expenses == (if m.Ok? then m.value else old(catalogue.expenses))
      ensures s == Done ==> repo.log == old(repo.log) + [SavedExpenses(catalogue.expenses), SavedCategories(registry.categories)]
      ensures s.Fail? ==> repo.log == old(repo.log)
    {
      var found := catalogue.Find(id);
      if found.None? {
        return Fail(ExpenseNotFound);
      }
      var c := registry.Find(categoryName);
      if c.None? {
        return Fail(CategoryNotFound);
      }
      var e := SetAmount(found.value, amount);
      if e.Err? {
        return Fail(e.error);
      }
      catalogue.Update(e.value.(date := date, description := description, category := Some(c.value)));
      Persist();
      s := Done;
    }

    /** `modificarGasto`: the catalogue changes as `Modified` says; after
        a success the lists are saved and every alert is checked against
        all expenses. */
    method Modify(id: Id, amount: real, date: Date, description: string, categoryName: string, clock: Clock) returns (s: Status)
      modifies catalogue, repo, alerts.repo, alerts.ids, alerts.catalogue.alerts
      ensures var m := Modified(old(catalogue.expenses), registry.categories, id, amount, date, description, categoryName);
        s == (if m.Ok? then Done else Fail(m.error)) && catalogue.expenses == (if m.Ok? then m.value else old(catalogue.expenses))
      ensures s.Fail? ==> repo.log == old(repo.log)
      ensures s == Done ==>
        repo.log == old(repo.log) + [SavedExpenses(catalogue.expenses), SavedCategories(registry.categories)] +
          (if alerts.repo == repo then [SavedAlerts(alerts.catalogue.alerts)] else [])
      ensures s == Done && alerts.repo != repo ==> alerts.repo.log == old(alerts.repo.log) + [SavedAlerts(alerts.catalogue.alerts)]
      ensures s == Done ==>
        forall a :: a in alerts.catalogue.alerts ==> a.State() == Checked(old(a.State()), clock, catalogue.expenses)
    {
      ghost var states := map a | a in alerts.catalogue.alerts :: a.State();
      s := Change(id, amount, date, description, categoryName);
      assert forall a :: a in alerts.catalogue.alerts ==> a.State() == states[a];
      if s == Done {
        CheckAlerts(clock);
      }
    }

    /** `eliminarGasto`: nothing happens for an unknown identifier;
        otherwise the expense leaves the catalogue and the lists are saved.
        The alerts are not checked again. */
    method Delete(id: Id)
      modifies catalogue, repo
      ensures ExpenseCatalogues.FindById(old(catalogue.expenses), id).None? ==>
        catalogue.expenses == old(catalogue.expenses) && repo.log == old(repo.log)
      ensures ExpenseCatalogues.FindById(old(catalogue.expenses), id).Some? ==>
        catalogue.expenses == WithoutFirst(old(catalogue.expenses), id) &&
        |catalogue.expenses| == |old(catalogue.expenses)| - 1 &&
        repo.log == old(repo.log) + [SavedExpenses(catalogue.expenses), SavedCategories(registry.categories)]
    {
      var found := catalogue.Find(id);
      if found.Some? {
        catalogue.Remove(found.value);
        Persist();
      }
    }

    /** `filtrarPorCategorias`: no names is an error; names that find no
        category are dropped, and an error follows only when none finds
        one; otherwise the expenses of the categories found, in order. */
    method FilterByCategories(names: seq<string>) returns (r: Result<seq<Expense>>)
      ensures |names| == 0 ==> r == Err(NoCategoryGiven)
      ensures |names| > 0 && (forall i :: 0 <= i < |names| ==> FindByName(registry.categories, names[i]).None?) ==>
        r == Err(NoCategoryResolved)
      ensures r.Ok? <==> exists i :: 0 <= i < |names| && FindByName(registry.categories, names[i]).Some?
      ensures r.Ok? ==>
        var cs := Resolved(Finder(registry.categories), names);
        r.value == Seqs.Filter(catalogue.expenses, (e: Expense) => Keeps(ByCategories(cs), e))
    {
      if |names| == 0 {
        return Err(NoCategoryGiven);
      }
      var found: set<Category> := {};
      for i := 0 to |names|
        invariant found == Resolved(Finder(registry.categories), names[..i])
      {
        assert names[..i + 1][..i] == names[..i];
        var c := registry.Find(names[i]);
        if c.Some? {
          found := found + {c.value};
        }
      }
      assert names[..|names|] == names;
      if found == {} {
        return Err(NoCategoryResolved);
      }
      r := Ok(catalogue.ApplyFilter(ByCategories(found)));
    }

    /** `filtrarPorFecha`: a missing date, then a start after the end, is
        an error; otherwise the expenses dated within the range, both ends
        included, in order. */
    method FilterByDates(start: Option<Date>, end: Option<Date>) returns (r: Result<seq<Expense>>)
      ensures start.None? || end.None? ==> r == Err(NullDate)
      ensures start.Some? && end.Some? && After(start.value, end.value) ==> r == Err(StartAfterEnd)
      ensures r.Ok? <==> start.Some? && end.Some? && !After(start.value, end.value)
      ensures r.Ok? ==> r.value == Seqs.Filter(catalogue.expenses, (e: Expense) => InRange(e, start.value, end.value))
    {
      if start.None? || end.None? {
        return Err(NullDate);
      }
      if After(start.value, end.value) {
        return Err(StartAfterEnd);
      }
      var f := ByDates(start.value, end.value);
      Seqs.FilterSameTest(catalogue.expenses, (e: Expense) => Keeps(f, e), (e: Expense) => InRange(e, start.value, end.value));
      r := Ok(catalogue.ApplyFilter(f));
    }

    /** `filtrarPorMeses`: no names is an error, and so is the first name
        that names no month; otherwise the expenses of the months named,
        whatever their year, in order. */
    method FilterByMonths(names: seq<string>) returns (r: Result<seq<Expense>>)
      ensures |names| == 0 ==> r == Err(NoMonthGiven)
      ensures |names| > 0 && Collected(MonthFromName, names).Err? ==> r == Err(Collected(MonthFromName, names).error)
      ensures r.Ok? <==> |names| > 0 && forall i :: 0 <= i < |names| ==> MonthFromName(names[i]).Ok?
      ensures r.Ok? ==>
        r.value == Seqs.Filter(catalogue.expenses, (e: Expense) => e.date.month in Collected(MonthFromName, names).value)
    {
      if |names| == 0 {
        return Err(NoMonthGiven);
      }
      var ms := Collected(MonthFromName, names);
      if ms.Err? {
        return Err(ms.error);
      }
      var f := ByMonths(ms.value);
      Seqs.FilterSameTest(catalogue.expenses, (e: Expense) => Keeps(f, e), (e: Expense) => e.date.month in ms.value);
      r := Ok(catalogue.ApplyFilter(f));
    }

    /** `filtrarCompuesto`: no names, then a missing date, then a name
        that finds no category, is an error; the order of the two dates is
        not checked. The category filter goes first in the composite and
        the date filter second, and the result keeps what both keep. */
    method FilterComposite(names: seq<string>, start: Option<Date>, end: Option<Date>) returns (r: Result<seq<Expense>>)
      ensures |names| == 0 ==> r == Err(NoCategoryGiven)
      ensures |names| > 0 && (start.None? || end.None?) ==> r == Err(NullDate)
      ensures r.Ok? <==>
        |names| > 0 && start.Some? && end.Some? && AllResolved(registry.categories, names).Ok?
      ensures r.Err? && |names| > 0 && start.Some? && end.Some? ==> r.error == CategoryNotFound
      ensures r.Ok? ==>
        var cs := Resolved(Finder(registry.categories), names);
        r.value == Seqs.Filter(catalogue.expenses, (e: Expense) => Keeps(ByCategories(cs), e) && InRange(e, start.value, end.value))
      ensures r.Ok? && After(start.value, end.value) ==> r.value == []
    {
      if |names| == 0 {
        return Err(NoCategoryGiven);
      }
      if start.None? || end.None? {
        return Err(NullDate);
      }
      var cs := AllResolved(registry.categories, names);
      if cs.Err? {
        return Err(cs.error);
      }
      var composite := new CompositeFilter();
      composite.Add(ByCategories(cs.value));
      composite.Add(ByDates(start.value, end.value));
      var f := composite.Current();
      var byCat, byDate := ByCategories(cs.value), ByDates(start.value, end.value);
      assert f.members == [byCat, byDate];
      var es := catalogue.expenses;
      forall e | e in es ensures Keeps(f, e) == (Keeps(byCat, e) && InRange(e, start.value, end.value)) {
        assert byCat in f.members && byDate in f.members;
      }
      Seqs.FilterSameTest(es, (e: Expense) => Keeps(f, e),
        (e: Expense) => Keeps(byCat, e) && InRange(e, start.value, end.value));
      r := Ok(catalogue.ApplyFilter(f));
      if After(start.value, end.value) {
        Seqs.FilterAllOrNothing(es, (e: Expense) => Keeps(byCat, e) && InRange(e, start.value, end.value));
        forall e | e in es ensures !(Keeps(byCat, e) && InRange(e, start.value, end.value)) {
          InRangeInclusive(e, start.value, end.value);
        }
      }
    }

    /** `calcularTotalGastos`: what the catalogue's expenses add up to,
        at least each amount, and 0 with no expenses. */
    function TotalSpent(): (t: real)
      reads this, catalogue
      ensures t == Total(catalogue.expenses)
      ensures t >= 0.0 && (catalogue.expenses == [] ==> t == 0.0)
      ensures forall i :: 0 <= i < |catalogue.expenses| ==> t >= catalogue.expenses[i].amount
    {
      catalogue.TotalAmount()
    }

    /** `obtenerTodosLosGastos`: the catalogue's list, in order. */
    function AllExpenses(): (r: seq<Expense>)
      reads this, catalogue
      ensures r == catalogue.expenses
    {
      catalogue.All()
    }

    /** `agruparPorMes`: the catalogue's grouping by month, whose groups
        partition the expenses. */
    function ByMonth(): (g: map<Month, seq<Expense>>)
      reads this, catalogue
      ensures g == GroupByMonth(catalogue.expenses)
      ensures GroupSizes(g, 12) == |catalogue.expenses|
    {
      GroupByMonthPartitions(catalogue.expenses);
      GroupByMonth(catalogue.expenses)
    }

    /** `agruparPorCategoria`: the catalogue's grouping by category name,
        which fails on an expense without a category; the groups partition
        the expenses. */
    function ByCategory(): (r: Result<map<string, seq<Expense>>>)
      reads this, catalogue
      ensures r == GroupByCategory(catalogue.expenses)
      ensures r.Err? <==> exists i :: 0 <= i < |catalogue.expenses| && catalogue.expenses[i].category.None?
      ensures r.Ok? ==> NamedGroupSizes(r.value, r.value.Keys) == |catalogue.expenses|
    {
      GroupByCategoryPartitions(catalogue.expenses);
      GroupByCategory(catalogue.expenses)
    }
  }
}
