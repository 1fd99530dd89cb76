/** ControladorCuentasCompartidas: creating shared accounts, recording and
    removing their expenses, and reading out who owes what. */
module AccountControllers {
  import opened Wrappers
  import opened Text
  import opened Ids
  import opened Calendar
  import opened Categories
  import opened Expenses
  import opened People
  import opened Ledgers
  import opened SharedAccounts
  import opened ExpenseCatalogues
  import opened AccountCatalogues
  import opened CategoryRegistries
  import opened Repositories
  import Seqs

  /** The name and description of the category `registrarGastoEnCuenta`
      files every expense under. */
  const SharedName := "Compartido"
  const SharedDescription := "Gastos compartidos"

  /** What stops `crearPersonas` at position `i`, if anything: for a
      weighted account a missing percentage (the list lookup comes first),
      then a blank name, then a percentage out of range. */
  function PersonError(kind: Distribution, names: seq<string>, shares: seq<real>, i: nat): Option<Error>
    requires i < |names|
  {
    if kind == Weighted && i >= |shares| then Some(MissingShare)
    else if IsBlank(names[i]) then Some(BlankName)
    else if kind == Weighted && !ValidShare(shares[i]) then Some(ShareOutOfRange)
    else None
  }

  /** The error of the first of the first `n` positions that has one. */
  function FirstPersonError(kind: Distribution, names: seq<string>, shares: seq<real>, n: nat): (r: Option<Error>)
    requires n <= |names|
    ensures r.None? <==> forall i :: 0 <= i < n ==> PersonError(kind, names, shares, i).None?
    ensures r.Some? ==>
      exists k :: 0 <= k < n && PersonError(kind, names, shares, k) == r &&
        forall j :: 0 <= j < k ==> PersonError(kind, names, shares, j).None?
  {
    if n == 0 then None
    else if FirstPersonError(kind, names, shares, n - 1).Some? then FirstPersonError(kind, names, shares, n - 1)
    else PersonError(kind, names, shares, n - 1)
  }

  /** Once a prefix has an error, every longer prefix has the same first
      error. */
  lemma {:induction false} FirstPersonErrorStays(kind: Distribution, names: seq<string>, shares: seq<real>, i: nat, n: nat)
    requires i <= n <= |names| && FirstPersonError(kind, names, shares, i).Some?
    ensures FirstPersonError(kind, names, shares, n) == FirstPersonError(kind, names, shares, i)
    decreases n - i
  {
    if i < n {
      FirstPersonErrorStays(kind, names, shares, i + 1, n);
    }
  }

  /** With no error at any position, a weighted account has a percentage
      for every name. */
  lemma SharesCoverNames(kind: Distribution, names: seq<string>, shares: seq<real>)
    requires kind == Weighted && |names| > 0 && FirstPersonError(kind, names, shares, |names|).None?
    ensures |names| <= |shares|
  {
    assert PersonError(kind, names, shares, |names| - 1).None?;
  }

  /** `crearPersonas`: one person per name, in order, each drawing an
      identifier, with the percentage at the same position for a weighted
      account and 0 otherwise; the first position with an error stops it. */
  method MakePeople(ids: IdSupply, kind: Distribution, names: seq<string>, shares: seq<real>)
      returns (r: Result<seq<Person>>)
    modifies ids
    ensures r.Err? <==> FirstPersonError(kind, names, shares, |names|).Some?
    ensures r.Err? ==> r.error == FirstPersonError(kind, names, shares, |names|).value
    ensures r.Ok? ==> |r.value| == |names| && ids.next == old(ids.next) + |names| && DistinctPeople(r.value)
    ensures r.Ok? ==> forall i :: 0 <= i < |names| ==>
      fresh(r.value[i]) && r.value[i].id == old(ids.next) + i && r.value[i].name == names[i] &&
      r.value[i].balance == 0.0 && r.value[i].share == (if kind == Weighted then shares[i] else 0.0)
  {
    var people: seq<Person> := [];
    for i := 0 to |names|
      invariant |people| == i && ids.next == old(ids.next) + i
      invariant FirstPersonError(kind, names, shares, i).None?
      invariant forall j :: 0 <= j < i ==>
        fresh(people[j]) && people[j].id == old(ids.next) + j && people[j].name == names[j] &&
        people[j].balance == 0.0 && people[j].share == (if kind == Weighted then shares[j] else 0.0)
    {
      var p: Result<Person>;
      if kind == Weighted {
        if i >= |shares| {
          FirstPersonErrorStays(kind, names, shares, i + 1, |names|);
          return Err(MissingShare);
        }
        p := NewPersonWithShare(ids, names[i], shares[i]);
      } else {
        p := NewPerson(ids, names[i]);
      }
      if p.Err? {
        FirstPersonErrorStays(kind, names, shares, i + 1, |names|);
        return Err(p.error);
      }
      people := people + [p.value];
    }
    r := Ok(people);
  }

  /** The roster of people whose percentages are these numbers sums them. */
  lemma {:induction false} SumSharesOfPeople(ps: seq<Person>, xs: seq<real>)
    requires |ps| == |xs| && forall i :: 0 <= i < |ps| ==> ps[i].share == xs[i]
    ensures SumShares(MembersOf(ps)) == Seqs.Sum(xs)
    decreases |ps|
  {
    if |ps| > 0 {
      var n := |ps| - 1;
      SumSharesOfPeople(ps[..n], xs[..n]);
      assert MembersOf(ps)[..n] == MembersOf(ps[..n]);
    }
  }

  /** The first person on the roster whose name is exactly `name`. */
  function PersonNamed(ps: seq<Person>, name: string): (r: Option<Person>)
    reads ps
    ensures r.None? <==> forall i :: 0 <= i < |ps| ==> ps[i].name != name
    ensures r.Some? ==>
      exists k :: 0 <= k < |ps| && ps[k] == r.value && r.value.name == name &&
        forall j :: 0 <= j < k ==> ps[j].name != name
  {
    if |ps| == 0 then None
    else if ps[0].name == name then Some(ps[0])
    else
      var r := PersonNamed(ps[1..], name);
      assert forall j :: 1 <= j < |ps| ==> ps[j] == ps[1..][j - 1];
      if r.Some? then
        ghost var k :| 0 <= k < |ps| - 1 && ps[1..][k] == r.value && r.value.name == name &&
                       forall j :: 0 <= j < k ==> ps[1..][j].name != name;
        assert ps[k + 1] == r.value;
        r
      else r
  }

  /** Everyone on the roster of some account of the list. */
  ghost function Participants(accs: seq<SharedAccount>): set<Person>
    reads accs
    decreases |accs|
  {
    if |accs| == 0 then {}
    else
      var ps := accs[|accs| - 1].people;
      Participants(accs[..|accs| - 1]) + set p | p in ps
  }

  /** The roster of an account of the list is among the participants. */
  lemma {:induction false} ParticipantsInclude(accs: seq<SharedAccount>, a: SharedAccount)
    requires a in accs
    ensures forall p :: p in a.people ==> p in Participants(accs)
    decreases |accs|
  {
    var n := |accs| - 1;
    if accs[n] != a {
      assert a in accs[..n] by {
        var k :| 0 <= k < |accs| && accs[k] == a;
        assert k < n && accs[..n][k] == a;
      }
      ParticipantsInclude(accs[..n], a);
    }
  }

  /** The roster of the account an identifier finds is among the
      participants. */
  lemma FoundParticipants(accs: seq<SharedAccount>, id: Id)
    ensures FindAccount(accs, id).Some? ==> forall p :: p in FindAccount(accs, id).value.people ==> p in Participants(accs)
  {
    if FindAccount(accs, id).Some? {
      ParticipantsInclude(accs, FindAccount(accs, id).value);
    }
  }

  /** One line of `calcularResumenDeudas`: a positive balance is owed to
      the person, a negative one is owed by them, as an amount above 0. */
  datatype DebtLine = Receives(name: string, amount: real) | Pays(name: string, amount: real) | Square(name: string)

  function LineOf(p: Person): DebtLine
    reads p
  {
    if p.balance > 0.0 then Receives(p.name, p.balance)
    else if p.balance < 0.0 then Pays(p.name, -p.balance)
    else Square(p.name)
  }

  /** `calcularResumenDeudas`: one line per person, in roster order. The
      text of each line, with the amount rounded to cents, is not modelled. */
  function Summary(ps: seq<Person>): (r: seq<DebtLine>)
    reads ps
    ensures |r| == |ps|
    ensures forall i :: 0 <= i < |ps| ==> r[i].name == ps[i].name
    ensures forall i :: 0 <= i < |ps| ==> (r[i].Receives? <==> ps[i].balance > 0.0) && (r[i].Pays? <==> ps[i].balance < 0.0)
    ensures forall i :: 0 <= i < |ps| ==> !r[i].Square? ==> r[i].amount > 0.0
    ensures forall i :: 0 <= i < |ps| ==>
      (r[i].Receives? ==> r[i].amount == ps[i].balance) && (r[i].Pays? ==> r[i].amount == -ps[i].balance)
  {
    seq(|ps|, i requires 0 <= i < |ps| reads ps => LineOf(ps[i]))
  }

  /** What the lines say the account owes, less what they say is owed to
      it. */
  function Net(lines: seq<DebtLine>): real
    decreases |lines|
  {
    if |lines| == 0 then 0.0
    else
      var last := lines[|lines| - 1];
      Net(lines[..|lines| - 1]) + (match last case Receives(_, x) => x case Pays(_, x) => -x case Square(_) => 0.0)
  }

  /** The lines account for the balances exactly. */
  lemma {:induction false} NetIsBalanceTotal(ps: seq<Person>)
    ensures Net(Summary(ps)) == BalanceTotal(ps)
    decreases |ps|
  {
    if |ps| > 0 {
      var n := |ps| - 1;
      NetIsBalanceTotal(ps[..n]);
      assert Summary(ps)[..n] == Summary(ps[..n]);
    }
  }

  /** In an up-to-date account whose percentages sum to 100, what the lines
      say some are owed is exactly what they say the others owe. */
  lemma SettledSummaryBalances(a: SharedAccount)
    requires a.Valid() && a.Settled() && SumShares(a.Roster()) == 100.0
    ensures Net(Summary(a.people)) == 0.0
  {
    SettledBalancesSum(a);
    NetIsBalanceTotal(a.people);
  }

  /** The people of `crearPersonas`, then `new CuentaCompartida`, which
      refuses fewer than two people and, when weighted, percentages that do
      not sum to 100. */
  method OpenAccount(ids: IdSupply, name: string, kind: Distribution, names: seq<string>, shares: seq<real>)
      returns (r: Result<SharedAccount>)
    modifies ids
    ensures FirstPersonError(kind, names, shares, |names|).Some? ==> r == Err(FirstPersonError(kind, names, shares, |names|).value)
    ensures FirstPersonError(kind, names, shares, |names|).None? && |names| < 2 ==> r == Err(TooFewPeople)
    ensures FirstPersonError(kind, names, shares, |names|).None? && |names| >= 2 && kind == Weighted ==>
      |names| <= |shares| && (r.Ok? <==> SharesAddUp(Seqs.Sum(shares[..|names|]))) &&
      (r.Err? ==> r == Err(SharesDoNotSumTo100))
    ensures FirstPersonError(kind, names, shares, |names|).None? && |names| >= 2 && kind == Equal ==> r.Ok?
    ensures r.Ok? ==>
      fresh(r.value) && r.value.Valid() && r.value.name == name && r.value.kind == kind &&
      r.value.expenses == [] && |r.value.people| == |names|
    ensures r.Ok? ==> forall i :: 0 <= i < |names| ==>
      r.value.people[i].name == names[i] && r.value.people[i].balance == 0.0 &&
      r.value.people[i].share == (if kind == Weighted then shares[i] else 100.0 / (|names| as real))
  {
    var people := MakePeople(ids, kind, names, shares);
    if people.Err? {
      return Err(people.error);
    }
    if kind == Weighted && |names| > 0 {
      SharesCoverNames(kind, names, shares);
      SumSharesOfPeople(people.value, shares[..|names|]);
    }
    r := NewAccount(ids, name, kind, people.value);
  }

  /** The last steps of both ways of recording a shared expense: `new
      Gasto` draws an identifier and refuses a negative amount; otherwise
      `agregarGasto` records it as paid by `payer`, who is on the roster,
      and every balance is recomputed. */
  method Charge(a: SharedAccount, payer: Person, ids: IdSupply, amount: real, date: Date, description: string,
                category: Option<Category>) returns (s: Status)
    requires a.Valid() && payer in a.people
    modifies a, a.people, ids
    ensures ids.next == old(ids.next) + 1
    ensures a.Valid() && a.people == old(a.people)
    ensures amount < 0.0 ==> s == Fail(NegativeAmount) && a.expenses == old(a.expenses)
    ensures amount >= 0.0 ==>
      s == Done && a.Settled() &&
      a.expenses == old(a.expenses) + [Expense(old(ids.next), amount, date, description, category, Some(payer.id))]
  {
    var id := ids.Fresh();
    var e := NewExpense(id, amount, date, description, category);
    if e.Err? {
      return Fail(e.error);
    }
    assert InRoster(payer.id, a.Roster()) by {
      OnRosterInRoster(a.people, payer.id);
    }
    s := a.AddExpense(e.value, payer);
  }

  /** The account steps of `eliminarGastoCompartido`: the first expense
      with the identifier leaves the history and every balance is
      recomputed; with none the account is left alone. */
  method Uncharge(a: SharedAccount, expenseId: Id) returns (s: Status)
    requires a.Valid()
    modifies a, a.people
    ensures a.Valid() && a.people == old(a.people)
    ensures ExpenseCatalogues.FindById(old(a.expenses), expenseId).None? ==> s == Fail(ExpenseNotFound) && a.expenses == old(a.expenses)
    ensures ExpenseCatalogues.FindById(old(a.expenses), expenseId).Some? ==>
      s == Done && a.Settled() && a.expenses == WithoutFirst(old(a.expenses), expenseId) &&
      |a.expenses| == |old(a.expenses)| - 1
  {
    var e := ExpenseCatalogues.FindById(a.expenses, expenseId);
    if e.None? {
      return Fail(ExpenseNotFound);
    }
    a.RemoveExpense(e.value);
    s := Done;
  }

  /** The steps of `registrarGastoEnCuenta` once the payer is known: the
      category `Compartido`, found ignoring case or else created and
      registered, then the expense filed under it. */
  method ChargeShared(ghost accs: seq<SharedAccount>, a: SharedAccount, payer: Person, registry: CategoryRegistry,
                      ids: IdSupply, amount: real, date: Date, description: string) returns (s: Status)
    requires a.Valid() && payer in a.people && registry.Valid()
    modifies a, a.people, registry, ids
    ensures a.Valid() && a.people == old(a.people) && registry.Valid()
    ensures forall b :: b in accs && b != a ==> unchanged(b)
    ensures registry.categories == old(registry.categories) +
      (if FindByName(old(registry.categories), SharedName).None? then [Category(old(ids.next), SharedName, SharedDescription)] else [])
    ensures amount < 0.0 ==> s == Fail(NegativeAmount) && a.expenses == old(a.expenses)
    ensures amount >= 0.0 ==>
      var id := old(ids.next) + (if FindByName(old(registry.categories), SharedName).None? then 1 else 0);
      s == Done && a.Settled() &&
      a.expenses == old(a.expenses) + [Expense(id, amount, date, description, FindByName(registry.categories, SharedName), Some(payer.id))]
  {
    assert SharedName[0] > ' ';
    var c := registry.FindOrAdd(SharedName, SharedDescription, ids);
    assert c.Ok?;
    s := Charge(a, payer, ids, amount, date, description, Some(c.value));
  }

  /** What `registrarGastoEnCuenta` does to the accounts of the list and
      to the categories: the account is looked up by identifier, then its
      payer by exact name; once both are found the category `Compartido`
      is found ignoring case or else created and registered, and it stays
      even when the expense is then refused for a negative amount; the
      expense goes into that account only, filed under that category and
      paid by the payer, and the account is up to date. */
  twostate predicate ExpenseCharged(accs: seq<SharedAccount>, accountId: Id, payerName: string, registry: CategoryRegistry,
                                    ids: IdSupply, amount: real, date: Date, description: string, s: Status)
    reads accs, Participants(accs), registry
  {
    FoundParticipants(accs, accountId);
    var a := FindAccount(accs, accountId);
    (a.None? ==> s == Fail(AccountNotFound)) &&
    (a.Some? && old(PersonNamed(a.value.people, payerName)).None? ==> s == Fail(PayerNotFound)) &&
    (s == Fail(AccountNotFound) || s == Fail(PayerNotFound) ==> registry.categories == old(registry.categories)) &&
    (a.Some? && old(PersonNamed(a.value.people, payerName)).Some? ==>
      registry.categories == old(registry.categories) +
        (if FindByName(old(registry.categories), SharedName).None? then [Category(old(ids.next), SharedName, SharedDescription)] else []) &&
      (s == Done <==> amount >= 0.0) && (s.Fail? ==> s == Fail(NegativeAmount))) &&
    (s.Fail? ==> forall b :: b in accs ==> b.expenses == old(b.expenses)) &&
    (s == Done ==>
      var payer := old(PersonNamed(a.value.people, payerName)).value;
      a.value.Settled() &&
      a.value.expenses == old(a.value.expenses) +
        [Expense(old(ids.next) + (if FindByName(old(registry.categories), SharedName).None? then 1 else 0),
                 amount, date, description, FindByName(registry.categories, SharedName), Some(payer.id))] &&
      forall b :: b in accs && b != a.value ==> b.expenses == old(b.expenses))
  }

  /** The steps of `registrarGastoEnCuenta` before the save. */
  method ChargeInAccount(accs: seq<SharedAccount>, accountId: Id, payerName: string, registry: CategoryRegistry,
                         ids: IdSupply, amount: real, date: Date, description: string) returns (s: Status)
    requires (forall b :: b in accs ==> b.Valid()) && registry.Valid()
    modifies ids, registry, accs, Participants(accs)
    ensures (forall b :: b in accs ==> b.Valid()) && registry.Valid()
    ensures ExpenseCharged(accs, accountId, payerName, registry, ids, amount, date, description, s)
  {
    var found := FindAccount(accs, accountId);
    if found.None? {
      return Fail(AccountNotFound);
    }
    var a := found.value;
    var payer := PersonNamed(a.people, payerName);
    if payer.None? {
      return Fail(PayerNotFound);
    }
    assert payer.value in a.people;
    ParticipantsInclude(accs, a);
    s := ChargeShared(accs, a, payer.value, registry, ids, amount, date, description);
  }

  /** What `registrarGastoCompartido` does to the accounts of the list,
      given what the category lookup found: the account is looked up by
      identifier, then the category, which must exist, then the payer by
      exact name; the expense goes into that account only, filed under
      that category and paid by the payer, and the account is up to date. */
  twostate predicate CategorisedCharged(accs: seq<SharedAccount>, accountId: Id, category: Option<Category>,
                                        payerName: string, ids: IdSupply, amount: real, date: Date, description: string,
                                        s: Status)
    reads accs, Participants(accs)
  {
    FoundParticipants(accs, accountId);
    var a := FindAccount(accs, accountId);
    (a.None? ==> s == Fail(AccountNotFound)) &&
    (a.Some? && category.None? ==> s == Fail(CategoryNotFound)) &&
    (a.Some? && category.Some? && old(PersonNamed(a.value.people, payerName)).None? ==> s == Fail(PayerNotFound)) &&
    (a.Some? && category.Some? && old(PersonNamed(a.value.people, payerName)).Some? ==>
      (s == Done <==> amount >= 0.0) && (s.Fail? ==> s == Fail(NegativeAmount))) &&
    (s.Fail? ==> forall b :: b in accs ==> b.expenses == old(b.expenses)) &&
    (s == Done ==>
      var payer := old(PersonNamed(a.value.people, payerName)).value;
      a.value.Settled() &&
      a.value.expenses == old(a.value.expenses) + [Expense(old(ids.next), amount, date, description, category, Some(payer.id))] &&
      forall b :: b in accs && b != a.value ==> b.expenses == old(b.expenses))
  }

  /** The steps of `registrarGastoCompartido` before the save. */
  method ChargeWithCategory(accs: seq<SharedAccount>, accountId: Id, category: Option<Category>, payerName: string,
                            ids: IdSupply, amount: real, date: Date, description: string) returns (s: Status)
    requires forall b :: b in accs ==> b.Valid()
    modifies ids, accs, Participants(accs)
    ensures forall b :: b in accs ==> b.Valid()
    ensures CategorisedCharged(accs, accountId, category, payerName, ids, amount, date, description, s)
  {
    var found := FindAccount(accs, accountId);
    if found.None? {
      return Fail(AccountNotFound);
    }
    var a := found.value;
    if category.None? {
      return Fail(CategoryNotFound);
    }
    var payer := PersonNamed(a.people, payerName);
    if payer.None? {
      return Fail(PayerNotFound);
    }
    assert payer.value in a.people;
    ParticipantsInclude(accs, a);
    s := Charge(a, payer.value, ids, amount, date, description, category);
    assert forall b :: b in accs && b != a ==> unchanged(b);
  }

  /** What `eliminarGastoCompartido` does to the accounts of the list:
      the account is looked up by identifier, then the first of its
      expenses with the expense identifier, which leaves that account's
      history; the account is up to date and no other account changes. */
  twostate predicate ExpenseUncharged(accs: seq<SharedAccount>, accountId: Id, expenseId: Id, s: Status)
    reads accs, Participants(accs)
  {
    FoundParticipants(accs, accountId);
    var a := FindAccount(accs, accountId);
    (a.None? ==> s == Fail(AccountNotFound)) &&
    (a.Some? && ExpenseCatalogues.FindById(old(a.value.expenses), expenseId).None? ==> s == Fail(ExpenseNotFound)) &&
    (s.Fail? ==> forall b :: b in accs ==> b.expenses == old(b.expenses)) &&
    (a.Some? && ExpenseCatalogues.FindById(old(a.value.expenses), expenseId).Some? ==>
      s == Done && a.value.Settled() &&
      a.value.expenses == WithoutFirst(old(a.value.expenses), expenseId) &&
      |a.value.expenses| == |old(a.value.expenses)| - 1 &&
      forall b :: b in accs && b != a.value ==> b.expenses == old(b.expenses))
  }

  /** The steps of `eliminarGastoCompartido` before the save. */
  method UnchargeInAccount(accs: seq<SharedAccount>, accountId: Id, expenseId: Id) returns (s: Status)
    requires forall b :: b in accs ==> b.Valid()
    modifies accs, Participants(accs)
    ensures forall b :: b in accs ==> b.Valid()
    ensures ExpenseUncharged(accs, accountId, expenseId, s)
  {
    var found := FindAccount(accs, accountId);
    if found.None? {
      return Fail(AccountNotFound);
    }
    var a := found.value;
    ParticipantsInclude(accs, a);
    s := Uncharge(a, expenseId);
    assert forall b :: b in accs && b != a ==> unchanged(b);
  }

  class AccountController {
    const repo: Repository
    const accounts: AccountCatalogue
    const registry: CategoryRegistry
    const ids: IdSupply

    constructor (repo: Repository, accounts: AccountCatalogue, registry: CategoryRegistry, ids: IdSupply)
      ensures this.repo == repo && this.accounts == accounts && this.registry == registry && this.ids == ids
    {
      this.repo := repo;
      this.accounts := accounts;
      this.registry := registry;
      this.ids := ids;
    }

    /** Every account keeps its invariant. */
    predicate AccountsValid()
      reads accounts, accounts.accounts
    {
      forall a :: a in accounts.accounts ==> a.Valid()
    }

    /** `crearCuentaCompartida`: the account `OpenAccount` builds goes at
        the end and the accounts are saved; on failure nothing is added. */
    method CreateAccount(name: string, kind: Distribution, names: seq<string>, shares: seq<real>) returns (s: Status)
      requires AccountsValid()
      modifies accounts, ids, repo
      ensures AccountsValid()
      ensures FirstPersonError(kind, names, shares, |names|).Some? ==> s == Fail(FirstPersonError(kind, names, shares, |names|).value)
      ensures FirstPersonError(kind, names, shares, |names|).None? && |names| < 2 ==> s == Fail(TooFewPeople)
      ensures FirstPersonError(kind, names, shares, |names|).None? && |names| >= 2 && kind == Weighted ==>
        |names| <= |shares| && (s == Done <==> SharesAddUp(Seqs.Sum(shares[..|names|]))) &&
        (s.Fail? ==> s == Fail(SharesDoNotSumTo100))
      ensures FirstPersonError(kind, names, shares, |names|).None? && |names| >= 2 && kind == Equal ==> s == Done
      ensures s.Fail? ==> accounts.accounts == old(accounts.accounts) && repo.log == old(repo.log)
      ensures s == Done ==>
        |accounts.accounts| == |old(accounts.accounts)| + 1 && accounts.accounts[..|old(accounts.accounts)|] == old(accounts.accounts) &&
        repo.log == old(repo.log) + [SavedAccounts(accounts.accounts)]
      ensures s == Done ==>
        var a := accounts.accounts[|accounts.accounts| - 1];
        fresh(a) && a.name == name && a.kind == kind && a.expenses == [] && |a.people| == |names| &&
        forall i :: 0 <= i < |names| ==>
          a.people[i].name == names[i] && a.people[i].balance == 0.0 &&
          a.people[i].share == (if kind == Weighted then shares[i] else 100.0 / (|names| as real))
    {
      var a := OpenAccount(ids, name, kind, names, shares);
      if a.Err? {
        return Fail(a.error);
      }
      accounts.Add(a.value);
      repo.SaveAccounts(accounts.All());
      s := Done;
    }

    /** `crearCuentaEquitativa`: fewer than two names are refused before
        anyone is made; the rest is `crearCuentaCompartida` for an equal
        account. */
    method CreateEqual(name: string, names: seq<string>) returns (s: Status)
      requires AccountsValid()
      modifies accounts, ids, repo
      ensures AccountsValid()
      ensures |names| < 2 ==> s == Fail(TooFewPeople) && ids.next == old(ids.next)
      ensures |names| >= 2 && (exists i :: 0 <= i < |names| && IsBlank(names[i])) ==> s == Fail(BlankName)
      ensures s == Done <==> |names| >= 2 && forall i :: 0 <= i < |names| ==> !IsBlank(names[i])
      ensures s.Fail? ==> accounts.accounts == old(accounts.accounts) && repo.log == old(repo.log)
      ensures s == Done ==>
        |accounts.accounts| == |old(accounts.accounts)| + 1 && accounts.accounts[..|old(accounts.accounts)|] == old(accounts.accounts) &&
        repo.log == old(repo.log) + [SavedAccounts(accounts.accounts)]
      ensures s == Done ==>
        var a := accounts.accounts[|accounts.accounts| - 1];
        fresh(a) && a.name == name && a.kind == Equal && a.expenses == [] && |a.people| == |names| &&
        forall i :: 0 <= i < |names| ==> a.people[i].name == names[i] && a.people[i].share == 100.0 / (|names| as real)
    {
      if |names| < 2 {
        return Fail(TooFewPeople);
      }
      assert forall i :: 0 <= i < |names| ==> (PersonError(Equal, names, [], i).None? <==> !IsBlank(names[i]));
      s := CreateAccount(name, Equal, names, []);
    }

    /** `crearCuentaPorcentual`: the map of names to percentages, as its
        entries in iteration order; fewer than two entries, then a sum
        farther than 0.01 from 100, are refused before anyone is made; the
        rest is `crearCuentaCompartida` for a weighted account. */
    method CreateWeighted(name: string, entries: seq<(string, real)>) returns (s: Status)
      requires AccountsValid()
      modifies accounts, ids, repo
      ensures AccountsValid()
      ensures |entries| < 2 ==> s == Fail(TooFewPeople) && ids.next == old(ids.next)
      ensures |entries| >= 2 && !SharesAddUp(Seqs.Sum(seq(|entries|, i requires 0 <= i < |entries| => entries[i].1))) ==>
        s == Fail(SharesDoNotSumTo100) && ids.next == old(ids.next)
      ensures s == Done <==>
        |entries| >= 2 && SharesAddUp(Seqs.Sum(seq(|entries|, i requires 0 <= i < |entries| => entries[i].1))) &&
        forall i :: 0 <= i < |entries| ==> !IsBlank(entries[i].0) && ValidShare(entries[i].1)
      ensures s.Fail? ==> accounts.accounts == old(accounts.accounts) && repo.log == old(repo.log)
      ensures s == Done ==>
        |accounts.accounts| == |old(accounts.accounts)| + 1 && accounts.accounts[..|old(accounts.accounts)|] == old(accounts.accounts) &&
        repo.log == old(repo.log) + [SavedAccounts(accounts.accounts)]
      ensures s == Done ==>
        var a := accounts.accounts[|accounts.accounts| - 1];
        fresh(a) && a.name == name && a.kind == Weighted && a.expenses == [] && |a.people| == |entries| &&
        forall i :: 0 <= i < |entries| ==> a.people[i].name == entries[i].0 && a.people[i].share == entries[i].1
    {
      var names := seq(|entries|, i requires 0 <= i < |entries| => entries[i].0);
      var shares := seq(|entries|, i requires 0 <= i < |entries| => entries[i].1);
      if |entries| < 2 {
        return Fail(TooFewPeople);
      }
      if !SharesAddUp(Seqs.Sum(shares)) {
        return Fail(SharesDoNotSumTo100);
      }
      assert shares[..|names|] == shares;
      assert forall i :: 0 <= i < |names| ==>
        (PersonError(Weighted, names, shares, i).None? <==> !IsBlank(entries[i].0) && ValidShare(entries[i].1));
      s := CreateAccount(name, Weighted, names, shares);
    }

    /** `registrarGastoEnCuenta`: `ChargeInAccount`, then, once the
        expense is in, the accounts are saved. */
    method RegisterExpense(accountId: Id, amount: real, date: Date, description: string, payerName: string)
        returns (s: Status)
      requires AccountsValid() && registry.Valid()
      modifies ids, repo, registry, accounts.accounts, Participants(accounts.accounts)
      ensures AccountsValid() && registry.Valid() && accounts.accounts == old(accounts.accounts)
      ensures ExpenseCharged(accounts.accounts, accountId, payerName, registry, ids, amount, date, description, s)
      ensures s.Fail? ==> repo.log == old(repo.log)
      ensures s == Done ==> repo.log == old(repo.log) + [SavedAccounts(accounts.accounts)]
    {
      s := ChargeInAccount(accounts.accounts, accountId, payerName, registry, ids, amount, date, description);
      if s == Done {
        repo.SaveAccounts(accounts.All());
      }
    }

    /** `registrarGastoCompartido`: `ChargeWithCategory`, then, once the
        expense is in, the accounts are saved. */
    method RegisterShared(accountId: Id, amount: real, date: Date, description: string, categoryName: string,
                          payerName: string) returns (s: Status)
      requires AccountsValid()
      modifies ids, repo, accounts.accounts, Participants(accounts.accounts)
      ensures AccountsValid() && accounts.accounts == old(accounts.accounts)
      ensures CategorisedCharged(accounts.accounts, accountId, FindByName(registry.categories, categoryName), payerName,
                                 ids, amount, date, description, s)
      ensures s.Fail? ==> repo.log == old(repo.log)
      ensures s == Done ==> repo.log == old(repo.log) + [SavedAccounts(accounts.accounts)]
    {
      s := ChargeWithCategory(accounts.accounts, accountId, registry.Find(categoryName), payerName, ids, amount, date, description);
      if s == Done {
        repo.SaveAccounts(accounts.All());
      }
    }

    /** `eliminarGastoCompartido`: `UnchargeInAccount`, then, once the
        expense is gone, the accounts are saved. */
    method DeleteSharedExpense(accountId: Id, expenseId: Id) returns (s: Status)
      requires AccountsValid()
      modifies repo, accounts.accounts, Participants(accounts.accounts)
      ensures AccountsValid() && accounts.accounts == old(accounts.accounts)
      ensures ExpenseUncharged(accounts.accounts, accountId, expenseId, s)
      ensures s.Fail? ==> repo.log == old(repo.log)
      ensures s == Done ==> repo.log == old(repo.log) + [SavedAccounts(accounts.accounts)]
    {
      s := UnchargeInAccount(accounts.accounts, accountId, expenseId);
      if s == Done {
        repo.SaveAccounts(accounts.All());
      }
    }

    /** `calcularResumenDeudas`: the summary of the account's people. */
    function DebtSummary(accountId: Id): (r: Result<seq<DebtLine>>)
      reads accounts, accounts.accounts, Participants(accounts.accounts)
      ensures r.Err? <==> FindAccount(accounts.accounts, accountId).None?
      ensures r.Err? ==> r.error == AccountNotFound
      ensures r.Ok? ==> r.value == Summary(FindAccount(accounts.accounts, accountId).value.people)
    {
      match accounts.Find(accountId)
      case None => Err(AccountNotFound)
      case Some(a) =>
        ParticipantsInclude(accounts.accounts, a);
        Ok(Summary(a.people))
    }

    /** `eliminarCuentaCompartida`: an unknown identifier changes nothing;
        otherwise the account leaves the list and the accounts are saved. */
    method DeleteAccount(accountId: Id)
      requires AccountsValid()
      modifies accounts, repo
      ensures AccountsValid()
      ensures FindAccount(old(accounts.accounts), accountId).None? ==>
        accounts.accounts == old(accounts.accounts) && repo.log == old(repo.log)
      ensures FindAccount(old(accounts.accounts), accountId).Some? ==>
        var a := FindAccount(old(accounts.accounts), accountId).value;
        (exists k :: 0 <= k < |old(accounts.accounts)| && old(accounts.accounts)[k] == a && a !in old(accounts.accounts)[..k] &&
                     accounts.accounts == old(accounts.accounts)[..k] + old(accounts.accounts)[k + 1..]) &&
        repo.log == old(repo.log) + [SavedAccounts(accounts.accounts)]
    {
      var found := accounts.Find(accountId);
      if found.Some? {
        accounts.Remove(found.value);
        repo.SaveAccounts(accounts.All());
      }
    }

    /** `obtenerTodasLasCuentas`: the catalogue's list, in order. */
    function All(): (r: seq<SharedAccount>)
      reads accounts
      ensures r == accounts.accounts
    {
      accounts.All()
    }
  }
}
