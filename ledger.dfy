/** The arithmetic of a shared account's balances, as pure functions of the
    roster (each participant's identifier and percentage) and the expense
    history. `CuentaCompartida.recalcularSaldos` computes exactly these
    values into the participants' balance fields. */
module Ledgers {
  import opened Wrappers
  import opened Ids
  import opened Calendar
  import opened Expenses
  import Seqs

  /** What the balance computation reads of a participant. */
  datatype Member = Member(id: Id, share: real)

  /** What one expense does to one participant's balance: the payer gains
      the amount less their own portion, everyone else loses their portion,
      and an expense without a payer changes nothing. */
  function Delta(e: Expense, m: Member): (d: real)
    ensures e.payer.None? ==> d == 0.0
    ensures e.payer == Some(m.id) ==> d == e.amount - Contribution(e, m.share)
    ensures e.payer.Some? && e.payer != Some(m.id) ==> d == -Contribution(e, m.share)
  {
    if e.payer.None? then 0.0
    else if e.payer.value == m.id then e.amount - Contribution(e, m.share)
    else -Contribution(e, m.share)
  }

  /** A participant's balance after every expense of the history, in order,
      starting from 0. */
  function BalanceOf(es: seq<Expense>, m: Member): real
    decreases |es|
  {
    if |es| == 0 then 0.0 else BalanceOf(es[..|es| - 1], m) + Delta(es[|es| - 1], m)
  }

  /** One more expense of a history adds its delta to the balance. */
  lemma BalanceOfPrefix(es: seq<Expense>, k: nat, m: Member)
    requires k < |es|
    ensures BalanceOf(es[..k + 1], m) == BalanceOf(es[..k], m) + Delta(es[k], m)
  {
    assert es[..k + 1][..k] == es[..k];
  }

  /** The balance of a concatenated history is the sum of the balances of
      its parts. */
  lemma {:induction false} BalanceAppend(a: seq<Expense>, b: seq<Expense>, m: Member)
    ensures BalanceOf(a + b, m) == BalanceOf(a, m) + BalanceOf(b, m)
    decreases |b|
  {
    if |b| == 0 {
      assert a + b == a;
    } else {
      BalanceAppend(a, b[..|b| - 1], m);
      assert (a + b)[..|a + b| - 1] == a + b[..|b| - 1];
      assert (a + b)[|a + b| - 1] == b[|b| - 1];
    }
  }

  /** Removing the expense at position `k` takes back exactly its effect. */
  lemma BalanceWithout(es: seq<Expense>, k: nat, m: Member)
    requires k < |es|
    ensures BalanceOf(es[..k] + es[k + 1..], m) == BalanceOf(es, m) - Delta(es[k], m)
  {
    assert es == es[..k] + [es[k]] + es[k + 1..];
    BalanceAppend(es[..k] + [es[k]], es[k + 1..], m);
    BalanceAppend(es[..k], [es[k]], m);
    BalanceAppend(es[..k], es[k + 1..], m);
    assert BalanceOf([es[k]], m) == Delta(es[k], m) by {
      assert [es[k]][..0] == [];
    }
  }

  /** Balances depend on the multiset of expenses only: the order in which
      they were added does not matter. */
  lemma {:induction false} BalanceOrderIrrelevant(es: seq<Expense>, fs: seq<Expense>, m: Member)
    requires multiset(es) == multiset(fs)
    ensures BalanceOf(es, m) == BalanceOf(fs, m)
    decreases |es|
  {
    if |es| == 0 {
      assert |fs| == |multiset(fs)| == 0;
    } else {
      var x := es[|es| - 1];
      assert x in multiset(fs) by {
        assert x in multiset(es);
      }
      var k :| 0 <= k < |fs| && fs[k] == x;
      var rest := fs[..k] + fs[k + 1..];
      Seqs.MultisetWithoutLast(es, fs, k);
      BalanceOrderIrrelevant(es[..|es| - 1], rest, m);
      BalanceWithout(fs, k, m);
    }
  }

  /** The sum of the roster's percentages. */
  function SumShares(ms: seq<Member>): real
    decreases |ms|
  {
    if |ms| == 0 then 0.0 else SumShares(ms[..|ms| - 1]) + ms[|ms| - 1].share
  }

  /** The sum of every participant's balance. */
  function SumBalances(es: seq<Expense>, ms: seq<Member>): real
    decreases |ms|
  {
    if |ms| == 0 then 0.0 else SumBalances(es, ms[..|ms| - 1]) + BalanceOf(es, ms[|ms| - 1])
  }

  /** What one expense adds to the sum of all balances. */
  function SumDeltas(e: Expense, ms: seq<Member>): real
    decreases |ms|
  {
    if |ms| == 0 then 0.0 else SumDeltas(e, ms[..|ms| - 1]) + Delta(e, ms[|ms| - 1])
  }

  /** The total of the expenses that have a payer. */
  function PaidTotal(es: seq<Expense>): (t: real)
    ensures t >= 0.0
    decreases |es|
  {
    if |es| == 0 then 0.0
    else PaidTotal(es[..|es| - 1]) + (if es[|es| - 1].payer.Some? then es[|es| - 1].amount else 0.0)
  }

  /** One more expense adds its amount to the paid total when it has a
      payer, and nothing otherwise. */
  lemma PaidTotalAppend(es: seq<Expense>, x: Expense)
    ensures PaidTotal(es + [x]) == PaidTotal(es) + (if x.payer.Some? then x.amount else 0.0)
  {
    var s := es + [x];
    assert s[..|s| - 1] == es && s[|s| - 1] == x;
  }

  /** No two participants share an identifier. */
  predicate DistinctIds(ms: seq<Member>) {
    forall i, j :: 0 <= i < j < |ms| ==> ms[i].id != ms[j].id
  }

  /** Some participant has this identifier. */
  predicate InRoster(id: Id, ms: seq<Member>) {
    exists i :: 0 <= i < |ms| && ms[i].id == id
  }

  /** Every expense of the history is paid by a participant, or by nobody. */
  predicate PaidWithin(es: seq<Expense>, ms: seq<Member>) {
    forall e :: e in es ==> e.payer.None? || InRoster(e.payer.value, ms)
  }

  /** The portions of one expense that the whole roster bears. */
  function Portions(e: Expense, ms: seq<Member>): real
    decreases |ms|
  {
    if |ms| == 0 then 0.0 else Portions(e, ms[..|ms| - 1]) + Contribution(e, ms[|ms| - 1].share)
  }

  /** Portions of one amount add up as their percentages do. */
  lemma PortionsAdd(a: real, s: real, t: real, u: real, x: real, y: real)
    requires x == a * (s / 100.0) && y == a * (t / 100.0) && u == s + t
    ensures x + y == a * (u / 100.0)
  {
  }

  /** The roster bears the expense times its percentage total. */
  lemma {:induction false} PortionsTotal(e: Expense, ms: seq<Member>)
    ensures Portions(e, ms) == e.amount * (SumShares(ms) / 100.0)
    decreases |ms|
  {
    if |ms| > 0 {
      var init, last := ms[..|ms| - 1], ms[|ms| - 1];
      PortionsTotal(e, init);
      PortionsAdd(e.amount, SumShares(init), last.share, SumShares(ms), Portions(e, init), Contribution(e, last.share));
    }
  }

  /** One expense changes the sum of all balances by its amount less the
      roster's portions when a participant paid it, and not at all when
      nobody did. */
  lemma {:induction false} SumDeltasOne(e: Expense, ms: seq<Member>)
    requires DistinctIds(ms)
    requires e.payer.Some? ==> InRoster(e.payer.value, ms)
    ensures e.payer.None? ==> SumDeltas(e, ms) == 0.0
    ensures e.payer.Some? ==> SumDeltas(e, ms) == e.amount - Portions(e, ms)
    decreases |ms|
  {
    if |ms| > 0 {
      var init, last := ms[..|ms| - 1], ms[|ms| - 1];
      if e.payer.Some? && e.payer.value == last.id {
        forall i | 0 <= i < |init| ensures init[i].id != e.payer.value {
          assert init[i] == ms[i];
        }
        SumDeltasNone(e, init);
      } else {
        if e.payer.Some? {
          var i :| 0 <= i < |ms| && ms[i].id == e.payer.value;
          assert i < |init| && init[i] == ms[i];
        }
        assert DistinctIds(init) by {
          forall i, j | 0 <= i < j < |init| ensures init[i].id != init[j].id {
            assert init[i] == ms[i] && init[j] == ms[j];
          }
        }
        SumDeltasOne(e, init);
      }
    }
  }

  /** An expense paid by someone outside the roster only takes every
      participant's portion. */
  lemma {:induction false} SumDeltasNone(e: Expense, ms: seq<Member>)
    requires e.payer.Some? && !InRoster(e.payer.value, ms)
    ensures SumDeltas(e, ms) == -Portions(e, ms)
    decreases |ms|
  {
    if |ms| > 0 {
      var init := ms[..|ms| - 1];
      forall i | 0 <= i < |init| ensures init[i].id != e.payer.value {
        assert init[i] == ms[i];
      }
      SumDeltasNone(e, init);
    }
  }

  /** Adding one expense to the history adds its deltas to the sum of the
      balances. */
  lemma {:induction false} SumBalancesStep(es: seq<Expense>, x: Expense, ms: seq<Member>)
    ensures SumBalances(es + [x], ms) == SumBalances(es, ms) + SumDeltas(x, ms)
    decreases |ms|
  {
    if |ms| > 0 {
      SumBalancesStep(es, x, ms[..|ms| - 1]);
      var s := es + [x];
      assert s[..|s| - 1] == es && s[|s| - 1] == x;
    }
  }

  /** Nobody has a balance before the first expense. */
  lemma {:induction false} SumBalancesEmpty(ms: seq<Member>)
    ensures SumBalances([], ms) == 0.0
    decreases |ms|
  {
    if |ms| > 0 {
      SumBalancesEmpty(ms[..|ms| - 1]);
    }
  }

  /** The roster's portions of every expense that has a payer. */
  function PaidPortions(es: seq<Expense>, ms: seq<Member>): real
    decreases |es|
  {
    if |es| == 0 then 0.0
    else PaidPortions(es[..|es| - 1], ms) + (if es[|es| - 1].payer.Some? then Portions(es[|es| - 1], ms) else 0.0)
  }

  /** One more expense adds its portions when it has a payer. */
  lemma PaidPortionsAppend(es: seq<Expense>, x: Expense, ms: seq<Member>)
    ensures PaidPortions(es + [x], ms) == PaidPortions(es, ms) + (if x.payer.Some? then Portions(x, ms) else 0.0)
  {
    var s := es + [x];
    assert s[..|s| - 1] == es && s[|s| - 1] == x;
  }

  /** The balances add up to what was paid less what the roster bears of
      it. */
  lemma {:induction false} BalancesSum(es: seq<Expense>, ms: seq<Member>)
    requires DistinctIds(ms) && PaidWithin(es, ms)
    ensures SumBalances(es, ms) == PaidTotal(es) - PaidPortions(es, ms)
    decreases |es|
  {
    if |es| == 0 {
      SumBalancesEmpty(ms);
    } else {
      var init, x := es[..|es| - 1], es[|es| - 1];
      assert es == init + [x];
      forall y | y in init ensures y in es {
        var i :| 0 <= i < |init| && init[i] == y;
        assert es[i] == y;
      }
      assert x in es;
      BalancesSum(init, ms);
      SumBalancesStep(init, x, ms);
      SumDeltasOne(x, ms);
      PaidTotalAppend(init, x);
      PaidPortionsAppend(init, x, ms);
    }
  }

  /** Under percentages summing to within 0.01 of 100, the roster bears
      each expense to within 0.01 percent of its amount. */
  lemma PortionsNear(e: Expense, ms: seq<Member>)
    requires 99.99 <= SumShares(ms) <= 100.01
    ensures 0.9999 * e.amount <= Portions(e, ms) <= 1.0001 * e.amount
  {
    PortionsTotal(e, ms);
    NonNegativeProduct(e.amount, SumShares(ms) / 100.0 - 0.9999);
    NonNegativeProduct(e.amount, 1.0001 - SumShares(ms) / 100.0);
  }

  /** A product of two non-negative numbers is non-negative. */
  lemma NonNegativeProduct(a: real, b: real)
    requires a >= 0.0 && b >= 0.0
    ensures a * b >= 0.0
  {
  }

  /** Percentages summing to exactly 100 bear the whole of every paid
      expense; percentages within the 0.01 tolerance a weighted account is
      built with bear it to within 0.01 percent. */
  lemma {:induction false} PaidPortionsCover(es: seq<Expense>, ms: seq<Member>)
    ensures SumShares(ms) == 100.0 ==> PaidPortions(es, ms) == PaidTotal(es)
    ensures 99.99 <= SumShares(ms) <= 100.01 ==>
      0.9999 * PaidTotal(es) <= PaidPortions(es, ms) <= 1.0001 * PaidTotal(es)
    decreases |es|
  {
    if |es| > 0 {
      var init, x := es[..|es| - 1], es[|es| - 1];
      PaidPortionsCover(init, ms);
      PortionsTotal(x, ms);
      if 99.99 <= SumShares(ms) <= 100.01 {
        PortionsNear(x, ms);
      }
    }
  }

  /** With the percentages summing to exactly 100 the balances sum to 0:
      what some are owed, others owe. Within the 0.01 tolerance a weighted
      account is built with, they sum to at most 0.01 percent of what was
      paid, either way. */
  lemma ZeroSum(es: seq<Expense>, ms: seq<Member>)
    requires DistinctIds(ms) && PaidWithin(es, ms)
    ensures SumShares(ms) == 100.0 ==> SumBalances(es, ms) == 0.0
    ensures 99.99 <= SumShares(ms) <= 100.01 ==>
      -0.0001 * PaidTotal(es) <= SumBalances(es, ms) <= 0.0001 * PaidTotal(es)
  {
    BalancesSum(es, ms);
    PaidPortionsCover(es, ms);
  }

  /** A roster of `n` participants sharing equally. */
  function EqualShares(ids: seq<Id>): (ms: seq<Member>)
    requires |ids| > 0
    ensures |ms| == |ids| && forall i :: 0 <= i < |ms| ==> ms[i] == Member(ids[i], 100.0 / (|ids| as real))
  {
    seq(|ids|, i requires 0 <= i < |ids| => Member(ids[i], 100.0 / (|ids| as real)))
  }

  /** The percentages of `k` participants each bearing `p` sum to `k * p`. */
  lemma {:induction false} SumSharesConstant(ms: seq<Member>, p: real)
    requires forall i :: 0 <= i < |ms| ==> ms[i].share == p
    ensures SumShares(ms) == (|ms| as real) * p
    decreases |ms|
  {
    if |ms| > 0 {
      SumSharesConstant(ms[..|ms| - 1], p);
    }
  }

  /** The equal split gives percentages summing to exactly 100, so an equal
      account's balances always sum to 0. */
  lemma EqualSplitSumsTo100(ids: seq<Id>)
    requires |ids| > 0
    ensures SumShares(EqualShares(ids)) == 100.0
  {
    var n := |ids| as real;
    SumSharesConstant(EqualShares(ids), 100.0 / n);
    assert n * (100.0 / n) == 100.0;
  }

  /** Equal split, A pays 100: A is owed 50 and B owes 50. */
  lemma EqualSplitExample(d: Date)
    ensures var e := Expense(7, 100.0, d, "cena", None, Some(1));
            BalanceOf([e], Member(1, 50.0)) == 50.0 && BalanceOf([e], Member(2, 50.0)) == -50.0
  {
    var e := Expense(7, 100.0, d, "cena", None, Some(1));
    assert [e][..0] == [];
  }

  /** A 70/30 split where B, at 30 percent, pays 100: A owes 70 and B is
      owed 70. */
  lemma WeightedExample(d: Date)
    ensures var e := Expense(7, 100.0, d, "compra", None, Some(2));
            BalanceOf([e], Member(1, 70.0)) == -70.0 && BalanceOf([e], Member(2, 30.0)) == 70.0
  {
    var e := Expense(7, 100.0, d, "compra", None, Some(2));
    assert [e][..0] == [];
  }
}
