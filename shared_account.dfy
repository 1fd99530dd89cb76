/** CuentaCompartida: a named group of at least two people who share
    expenses by percentage. Each person's balance is recomputed from the
    whole history after every change: positive means the account owes them,
    negative means they owe. */
module SharedAccounts {
  import opened Wrappers
  import opened Ids
  import opened Expenses
  import opened People
  import opened Ledgers
  import opened ExpenseCatalogues
  import Seqs

  /** TipoDistribucion. */
  datatype Distribution = Equal | Weighted

  /** What the balance computation reads of each person, in roster order. */
  function MembersOf(ps: seq<Person>): (ms: seq<Member>)
    reads ps
    ensures |ms| == |ps|
    ensures forall i :: 0 <= i < |ps| ==> ms[i] == Member(ps[i].id, ps[i].share)
  {
    seq(|ps|, i requires 0 <= i < |ps| reads ps => Member(ps[i].id, ps[i].share))
  }

  /** `Math.abs(suma - 100.0) <= 0.01`. */
  predicate SharesAddUp(total: real) {
    -0.01 <= total - 100.0 <= 0.01
  }

  /** Two different positions of the roster hold different people. */
  predicate DistinctPeople(ps: seq<Person>) {
    forall i, j :: 0 <= i < j < |ps| ==> ps[i].id != ps[j].id
  }

  /** Someone on the roster has this identifier. */
  predicate OnRoster(ps: seq<Person>, id: Id) {
    exists i :: 0 <= i < |ps| && ps[i].id == id
  }

  /** The roster membership the balance computation sees is the roster's. */
  lemma OnRosterInRoster(ps: seq<Person>, id: Id)
    ensures OnRoster(ps, id) <==> InRoster(id, MembersOf(ps))
  {
    var ms := MembersOf(ps);
    if InRoster(id, ms) {
      var i :| 0 <= i < |ms| && ms[i].id == id;
      assert ps[i].id == id;
    }
  }

  class SharedAccount {
    const id: Id
    var name: string
    var kind: Distribution
    var people: seq<Person>
    var expenses: seq<Expense>

    /** What every operation keeps: at least two people, no two with one
        identifier, and every expense paid by one of them. */
    predicate Valid()
      reads this
    {
      |people| >= 2 && DistinctPeople(people) &&
      forall e :: e in expenses ==> e.payer.None? || OnRoster(people, e.payer.value)
    }

    /** The roster as the balance computation sees it. */
    function Roster(): (ms: seq<Member>)
      reads this, people
      ensures ms == MembersOf(people)
    {
      MembersOf(people)
    }

    /** Every balance is the from-scratch fold of the history. */
    predicate Settled()
      reads this, people
    {
      forall i :: 0 <= i < |people| ==> people[i].balance == BalanceOf(expenses, Member(people[i].id, people[i].share))
    }

    constructor (id: Id, name: string, kind: Distribution, people: seq<Person>)
      requires |people| >= 2 && DistinctPeople(people)
      ensures this.id == id && this.name == name && this.kind == kind
      ensures this.people == people && expenses == [] && Valid()
    {
      this.id := id;
      this.name := name;
      this.kind := kind;
      this.people := people;
      expenses := [];
    }

    /** The first half of `recalcularSaldos`: every balance back to 0. */
    method ResetBalances()
      requires DistinctPeople(people)
      modifies people
      ensures forall t :: 0 <= t < |people| ==> people[t].balance == 0.0
      ensures forall t :: 0 <= t < |people| ==> people[t].share == old(people[t].share) && people[t].name == old(people[t].name)
    {
      var i := 0;
      while i < |people|
        invariant 0 <= i <= |people|
        invariant forall t :: 0 <= t < i ==> people[t].balance == 0.0
        invariant forall t :: 0 <= t < |people| ==> people[t].share == old(people[t].share) && people[t].name == old(people[t].name)
      {
        people[i].SetBalance(0.0);
        i := i + 1;
      }
    }

    /** The inner loop of `recalcularSaldos` for one expense with a payer:
        the payer gains the amount less their portion, everyone else loses
        their portion. */
    method ApplyExpense(e: Expense)
      requires DistinctPeople(people) && e.payer.Some?
      modifies people
      ensures forall t :: 0 <= t < |people| ==>
        people[t].balance == old(people[t].balance) + Delta(e, Member(people[t].id, people[t].share))
      ensures forall t :: 0 <= t < |people| ==> people[t].share == old(people[t].share) && people[t].name == old(people[t].name)
    {
      var j := 0;
      while j < |people|
        invariant 0 <= j <= |people|
        invariant forall t :: 0 <= t < |people| ==> people[t].share == old(people[t].share) && people[t].name == old(people[t].name)
        invariant forall t :: 0 <= t < j ==>
          people[t].balance == old(people[t].balance) + Delta(e, Member(people[t].id, people[t].share))
        invariant forall t :: j <= t < |people| ==> people[t].balance == old(people[t].balance)
      {
        var p := people[j];
        var portion := Contribution(e, p.share);
        if p.id == e.payer.value {
          p.SetBalance(p.balance + e.amount - portion);
        } else {
          p.SetBalance(p.balance - portion);
        }
        j := j + 1;
      }
    }

    /** `recalcularSaldos`: every balance back to 0, then each expense with
        a payer applied in order, so that every balance ends as the fold of
        the whole history. */
    method Recalculate()
      requires Valid()
      modifies people
      ensures Valid() && Settled() && Roster() == old(Roster())
      ensures forall i :: 0 <= i < |people| ==> people[i].name == old(people[i].name)
    {
      ghost var roster := Roster();
      ResetBalances();
      var k := 0;
      while k < |expenses|
        invariant 0 <= k <= |expenses|
        invariant forall t :: 0 <= t < |people| ==> people[t].share == roster[t].share && people[t].name == old(people[t].name)
        invariant forall t :: 0 <= t < |people| ==> people[t].balance == BalanceOf(expenses[..k], roster[t])
      {
        var e := expenses[k];
        forall t | 0 <= t < |people|
          ensures BalanceOf(expenses[..k + 1], roster[t]) == BalanceOf(expenses[..k], roster[t]) + Delta(e, roster[t])
        {
          BalanceOfPrefix(expenses, k, roster[t]);
        }
        if e.payer.Some? {
          ApplyExpense(e);
        }
        k := k + 1;
      }
      assert expenses[..k] == expenses;
      assert Roster() == roster;
    }

    /** `agregarGasto`: a payer outside the roster is refused before
        anything changes; otherwise the expense, with its payer set, goes at
        the end of the history and every balance is recomputed. */
    method AddExpense(e: Expense, payer: Person) returns (s: Status)
      requires Valid()
      modifies this, people
      ensures people == old(people) && Valid() && Roster() == old(Roster())
      ensures !InRoster(payer.id, old(Roster())) ==> s == Fail(PayerNotInAccount) && expenses == old(expenses)
      ensures !InRoster(payer.id, old(Roster())) ==> forall i :: 0 <= i < |people| ==> people[i].balance == old(people[i].balance)
      ensures InRoster(payer.id, old(Roster())) ==> s == Done && expenses == old(expenses) + [e.(payer := Some(payer.id))] && Settled()
    {
      OnRosterInRoster(people, payer.id);
      if !OnRoster(people, payer.id) {
        return Fail(PayerNotInAccount);
      }
      expenses := expenses + [e.(payer := Some(payer.id))];
      Recalculate();
      s := Done;
    }

    /** `eliminarGasto`: the first expense with the identifier leaves the
        history and every balance is recomputed; without one the history is
        unchanged, and so is every balance that was up to date. */
    method RemoveExpense(e: Expense)
      requires Valid()
      modifies this, people
      ensures people == old(people) && Valid() && Settled() && Roster() == old(Roster())
      ensures expenses == WithoutFirst(old(expenses), e.id)
      ensures old(Settled()) && (forall i :: 0 <= i < |old(expenses)| ==> old(expenses)[i].id != e.id) ==>
        forall i :: 0 <= i < |people| ==> people[i].balance == old(people[i].balance)
    {
      var rest := WithoutFirst(expenses, e.id);
      forall x | x in rest ensures x in expenses {
      }
      expenses := rest;
      Recalculate();
    }

    /** `calcularTotalGastos`: the sum of the history's amounts. */
    function TotalExpenses(): (t: real)
      reads this
      ensures t == Total(expenses) && t >= 0.0
    {
      Total(expenses)
    }

    /** `obtenerGastosDe`: the expenses paid by this person, that is by
        someone with their identifier, in order. */
    function ExpensesOf(p: Person): (r: seq<Expense>)
      reads this
      ensures r == Seqs.Filter(expenses, (e: Expense) => e.payer == Some(p.id))
      ensures forall e :: e in r <==> e in expenses && e.payer == Some(p.id)
    {
      var pid := p.id;
      Seqs.Filter(expenses, (e: Expense) => e.payer == Some(pid))
    }
  }

  /** The sum of the people's balances. */
  function BalanceTotal(ps: seq<Person>): real
    reads ps
    decreases |ps|
  {
    if |ps| == 0 then 0.0 else BalanceTotal(ps[..|ps| - 1]) + ps[|ps| - 1].balance
  }

  /** Balances that are the folds of a history add up as the folds do. */
  lemma {:induction false} BalanceTotalIsSum(ps: seq<Person>, es: seq<Expense>)
    requires forall i :: 0 <= i < |ps| ==> ps[i].balance == BalanceOf(es, Member(ps[i].id, ps[i].share))
    ensures BalanceTotal(ps) == SumBalances(es, MembersOf(ps))
    decreases |ps|
  {
    if |ps| > 0 {
      BalanceTotalIsSum(ps[..|ps| - 1], es);
      assert MembersOf(ps)[..|ps| - 1] == MembersOf(ps[..|ps| - 1]);
    }
  }

  /** An up-to-date account's balances add up to what was paid less what
      the participants' percentages bear of it: to 0 when the percentages
      sum to 100, so that what some are owed the others owe, and to within
      0.01 percent of what was paid under the tolerance of a weighted
      account. */
  lemma SettledBalancesSum(a: SharedAccount)
    requires a.Valid() && a.Settled()
    ensures BalanceTotal(a.people) == PaidTotal(a.expenses) - PaidPortions(a.expenses, a.Roster())
    ensures SumShares(a.Roster()) == 100.0 ==> BalanceTotal(a.people) == 0.0
    ensures 99.99 <= SumShares(a.Roster()) <= 100.01 ==>
      -0.0001 * PaidTotal(a.expenses) <= BalanceTotal(a.people) <= 0.0001 * PaidTotal(a.expenses)
  {
    var ms := MembersOf(a.people);
    assert BalanceTotal(a.people) == SumBalances(a.expenses, ms) by {
      BalanceTotalIsSum(a.people, a.expenses);
    }
    assert DistinctIds(ms) by {
      forall i, j | 0 <= i < j < |ms| ensures ms[i].id != ms[j].id {
        assert ms[i].id == a.people[i].id && ms[j].id == a.people[j].id;
      }
    }
    assert PaidWithin(a.expenses, ms) by {
      forall e | e in a.expenses ensures e.payer.None? || InRoster(e.payer.value, ms) {
        if e.payer.Some? {
          OnRosterInRoster(a.people, e.payer.value);
        }
      }
    }
    BalancesSum(a.expenses, ms);
    ZeroSum(a.expenses, ms);
    assert a.Roster() == ms;
  }

  /** `new CuentaCompartida(nombre, tipo, personas)`: the identifier is
      drawn first; fewer than two people are refused; a weighted account
      needs percentages summing to 100 within 0.01; an equal account sets
      every person's percentage to 100 / n. */
  method NewAccount(ids: IdSupply, name: string, kind: Distribution, people: seq<Person>)
      returns (r: Result<SharedAccount>)
    requires DistinctPeople(people)
    modifies ids, people
    ensures ids.next == old(ids.next) + 1
    ensures |people| < 2 ==> r == Err(TooFewPeople)
    ensures |people| >= 2 && kind == Weighted && !SharesAddUp(SumShares(old(MembersOf(people)))) ==>
      r == Err(SharesDoNotSumTo100)
    ensures r.Ok? <==> |people| >= 2 && (kind == Equal || SharesAddUp(SumShares(old(MembersOf(people)))))
    ensures r.Ok? ==> fresh(r.value) && r.value.Valid() && r.value.id == old(ids.next)
    ensures r.Ok? ==> r.value.people == people && r.value.expenses == [] && r.value.kind == kind && r.value.name == name
    ensures r.Ok? && kind == Equal ==> forall i :: 0 <= i < |people| ==> people[i].share == 100.0 / (|people| as real)
    ensures r.Err? || kind == Weighted ==> MembersOf(people) == old(MembersOf(people))
    ensures forall i :: 0 <= i < |people| ==> people[i].balance == old(people[i].balance) && people[i].name == old(people[i].name)
    ensures r.Err? || kind == Weighted ==> forall i :: 0 <= i < |people| ==> people[i].share == old(people[i].share)
  {
    var id := ids.Fresh();
    if |people| < 2 {
      return Err(TooFewPeople);
    }
    if kind == Weighted {
      var total := SumShares(MembersOf(people));
      if !SharesAddUp(total) {
        return Err(SharesDoNotSumTo100);
      }
    } else {
      SplitEqually(people);
    }
    var account := new SharedAccount(id, name, kind, people);
    r := Ok(account);
  }

  /** `asignarPorcentajesEquitativos`: every person bears 100 / n percent,
      which `setPorcentajeGasto` accepts. */
  method SplitEqually(people: seq<Person>)
    requires |people| >= 1 && DistinctPeople(people)
    modifies people
    ensures forall t :: 0 <= t < |people| ==> people[t].share == 100.0 / (|people| as real)
    ensures forall t :: 0 <= t < |people| ==> people[t].balance == old(people[t].balance) && people[t].name == old(people[t].name)
  {
    var n := |people| as real;
    var p := 100.0 / n;
    assert p <= 100.0 by {
      assert p * n == 100.0;
    }
    var i := 0;
    while i < |people|
      invariant 0 <= i <= |people|
      invariant forall t :: 0 <= t < i ==> people[t].share == p
      invariant forall t :: 0 <= t < |people| ==> people[t].balance == old(people[t].balance) && people[t].name == old(people[t].name)
    {
      var _ := people[i].SetShare(p);
      i := i + 1;
    }
  }
}
