/** The expense records loaded by the set screen and the two totals the
    screen derives from them (`totalExpense` and `totalRemaining`). Amounts
    are integers (say, cents) rather than IEEE-754 doubles. */
module Expenses {
  import opened Wrappers

  /** One record of the "expenses" collection: its id, its optional amount and
      whether it has been settled. */
  datatype Expense = Expense(id: string, amount: Option<int>, done: bool)

  /** JavaScript truthiness of an amount: a missing amount and zero are falsy. */
  predicate Falsy(amount: Option<int>) {
    amount.None? || amount.value == 0
  }

  /** What one expense adds to a total: nothing when its amount is falsy. */
  function Contribution(e: Expense): int {
    if Falsy(e.amount) then 0 else e.amount.value
  }

  /** The sum of the contributions, accumulated from the front as the
      `forEach` loop does. */
  function Sum(es: seq<Expense>): int {
    if es == [] then 0 else Sum(es[..|es| - 1]) + Contribution(es[|es| - 1])
  }

  /** The expenses that are not done, in their original order (the
      `filter((expense) => !expense.done)` step). */
  function Pending(es: seq<Expense>): (r: seq<Expense>)
    ensures |r| <= |es|
  {
    if es == [] then []
    else Pending(es[..|es| - 1]) + (if es[|es| - 1].done then [] else [es[|es| - 1]])
  }

  /** The expenses that are done, in their original order. */
  function Settled(es: seq<Expense>): (r: seq<Expense>)
    ensures |r| <= |es|
  {
    if es == [] then []
    else Settled(es[..|es| - 1]) + (if es[|es| - 1].done then [es[|es| - 1]] else [])
  }

  /** The value of `totalExpense`. */
  function Total(es: seq<Expense>): int {
    Sum(es)
  }

  /** The value of `totalRemaining`. */
  function Remaining(es: seq<Expense>): int {
    Sum(Pending(es))
  }

  /** Every amount that is present is non-negative. */
  predicate NonNegative(es: seq<Expense>) {
    forall e :: e in es && e.amount.Some? ==> e.amount.value >= 0
  }

  /** The `totalExpense` loop: starts at 0 and adds every truthy amount. */
  method TotalExpense(expenses: seq<Expense>) returns (total: int)
    ensures total == Total(expenses)
  {
    total := 0;
    var i := 0;
    while i < |expenses|
      invariant 0 <= i <= |expenses|
      invariant total == Sum(expenses[..i])
    {
      var expense := expenses[i];
      assert expenses[..i + 1][..i] == expenses[..i];
      if !Falsy(expense.amount) {
        total := total + expense.amount.value;
      }
      i := i + 1;
    }
    assert expenses[..i] == expenses;
  }

  /** The `totalRemaining` computation: the same loop over the expenses that
      are not done. */
  method TotalRemaining(expenses: seq<Expense>) returns (total: int)
    ensures total == Remaining(expenses)
    ensures total == Total(expenses) - Sum(Settled(expenses))
  {
    var pending := Pending(expenses);
    total := TotalExpense(pending);
    Partition(expenses);
  }

  // ---------------------------------------------------------------------
  // Properties of the folds

  lemma {:induction false} SumAppend(a: seq<Expense>, b: seq<Expense>)
    ensures Sum(a + b) == Sum(a) + Sum(b)
    decreases |b|
  {
    if b == [] {
      assert a + b == a;
    } else {
      var n := |b| - 1;
      assert (a + b)[..|a + b| - 1] == a + b[..n];
      SumAppend(a, b[..n]);
    }
  }

  /** The filter keeps every occurrence of an open expense and drops every
      occurrence of a done one. */
  lemma {:induction false} PendingMultiset(es: seq<Expense>, e: Expense)
    ensures multiset(Pending(es))[e] == if e.done then 0 else multiset(es)[e]
  {
    if es != [] {
      var n := |es| - 1;
      assert es == es[..n] + [es[n]];
      PendingMultiset(es[..n], e);
    }
  }

  /** The done expenses keep every occurrence of a done expense and no
      occurrence of an open one. */
  lemma {:induction false} SettledMultiset(es: seq<Expense>, e: Expense)
    ensures multiset(Settled(es))[e] == if e.done then multiset(es)[e] else 0
  {
    if es != [] {
      var n := |es| - 1;
      assert es == es[..n] + [es[n]];
      SettledMultiset(es[..n], e);
    }
  }

  /** The open expenses are exactly the loaded ones not done, and the done
      ones exactly those done. */
  lemma {:induction false} FilterMembers(es: seq<Expense>)
    ensures forall e :: e in Pending(es) <==> e in es && !e.done
    ensures forall e :: e in Settled(es) <==> e in es && e.done
  {
    if es != [] {
      var n := |es| - 1;
      assert es == es[..n] + [es[n]];
      FilterMembers(es[..n]);
    }
  }

  /** Appending one expense to a list appends it to exactly one of the two
      filtered lists. */
  lemma FilterSnoc(s: seq<Expense>, x: Expense)
    ensures Pending(s + [x]) == Pending(s) + (if x.done then [] else [x])
    ensures Settled(s + [x]) == Settled(s) + (if x.done then [x] else [])
  {
    assert (s + [x])[..|s|] == s;
  }

  /** Filtering keeps the order: the open (and the done) expenses of a
      concatenation are those of the first part followed by those of the
      second. */
  lemma {:induction false} FilterAppend(a: seq<Expense>, b: seq<Expense>)
    ensures Pending(a + b) == Pending(a) + Pending(b)
    ensures Settled(a + b) == Settled(a) + Settled(b)
    decreases |b|
  {
    if b == [] {
      assert a + b == a;
    } else {
      var n := |b| - 1;
      var x := b[n];
      assert b == b[..n] + [x];
      assert a + b == (a + b[..n]) + [x];
      FilterAppend(a, b[..n]);
      FilterSnoc(a + b[..n], x);
      FilterSnoc(b[..n], x);
    }
  }

  /** The total is zero when every amount is missing or zero; in particular
      for the empty list. */
  lemma {:induction false} AllFalsyTotalZero(es: seq<Expense>)
    requires forall e :: e in es ==> Falsy(e.amount)
    ensures Total(es) == 0
  {
    if es != [] {
      var n := |es| - 1;
      assert es[n] in es;
      forall e | e in es[..n] ensures Falsy(e.amount) {
        assert e in es;
      }
      AllFalsyTotalZero(es[..n]);
    }
  }

  /** Removing the element at k removes one occurrence from the multiset. */
  lemma MultisetRemoveAt(b: seq<Expense>, k: nat)
    requires k < |b|
    ensures multiset(b[..k] + b[k + 1..]) == multiset(b) - multiset{b[k]}
  {
    assert b == b[..k] + [b[k]] + b[k + 1..];
  }

  /** Removing the element at k removes its contribution from the sum. */
  lemma SumRemoveAt(b: seq<Expense>, k: nat)
    requires k < |b|
    ensures Sum(b) == Sum(b[..k] + b[k + 1..]) + Contribution(b[k])
  {
    var front, back := b[..k], b[k + 1..];
    assert b[..k + 1] + back == b;
    SumAppend(b[..k + 1], back);
    assert b[..k + 1][..k] == front;
    SumAppend(front, back);
  }

  lemma SumSingleton(x: Expense)
    ensures Sum([x]) == Contribution(x)
  {
    assert [x][..0] == [];
  }

  /** The total does not depend on the order of the loaded list. */
  lemma {:induction false} TotalPermutation(a: seq<Expense>, b: seq<Expense>)
    requires multiset(a) == multiset(b)
    ensures Total(a) == Total(b)
    decreases |a|
  {
    if a == [] {
      assert |b| == |multiset(b)| == 0;
    } else {
      var n := |a| - 1;
      var x := a[n];
      assert x in multiset(b);
      var k :| 0 <= k < |b| && b[k] == x;
      MultisetRemoveAt(a, n);
      MultisetRemoveAt(b, k);
      assert a[..n] + a[n + 1..] == a[..n];
      TotalPermutation(a[..n], b[..k] + b[k + 1..]);
      SumRemoveAt(b, k);
    }
  }

  /** The total splits into what remains and what is settled. */
  lemma {:induction false} Partition(es: seq<Expense>)
    ensures Total(es) == Remaining(es) + Sum(Settled(es))
  {
    if es != [] {
      var n := |es| - 1;
      var x := es[n];
      assert es == es[..n] + [x];
      Partition(es[..n]);
      FilterSnoc(es[..n], x);
      SumAppend(Pending(es[..n]), if x.done then [] else [x]);
      SumAppend(Settled(es[..n]), if x.done then [x] else []);
      SumSingleton(x);
      assert Sum([]) == 0;
    }
  }

  /** With no expense done, what remains is the whole total. */
  lemma {:induction false} NoneDoneRemainingIsTotal(es: seq<Expense>)
    requires forall e :: e in es ==> !e.done
    ensures Remaining(es) == Total(es)
  {
    Partition(es);
    FilterMembers(es);
    assert Settled(es) == [];
  }

  /** With every expense done, nothing remains. */
  lemma AllDoneNothingRemains(es: seq<Expense>)
    requires forall e :: e in es ==> e.done
    ensures Remaining(es) == 0
  {
    FilterMembers(es);
    assert forall e :: e !in Pending(es);
  }

  /** With non-negative amounts a sum is positive exactly when some expense
      contributes a positive amount, and otherwise it is zero. */
  lemma {:induction false} SumPositive(es: seq<Expense>)
    requires NonNegative(es)
    ensures Sum(es) >= 0
    ensures Sum(es) > 0 <==> exists e :: e in es && Contribution(e) > 0
  {
    if es != [] {
      var n := |es| - 1;
      assert es == es[..n] + [es[n]];
      assert NonNegative(es[..n]) by {
        forall e | e in es[..n] && e.amount.Some? ensures e.amount.value >= 0 {
          assert e in es;
        }
      }
      SumPositive(es[..n]);
      assert es[n] in es;
      if exists e :: e in es && Contribution(e) > 0 {
        var e :| e in es && Contribution(e) > 0;
        if e != es[n] {
          assert e in es[..n];
        }
      }
    }
  }

  /** With non-negative amounts, what remains never exceeds the total, and
      both are non-negative. */
  lemma RemainingAtMostTotal(es: seq<Expense>)
    requires NonNegative(es)
    ensures 0 <= Remaining(es) <= Total(es)
  {
    Partition(es);
    FilterMembers(es);
    SumPositive(Pending(es));
    SumPositive(Settled(es));
  }

  /** The source accepts negative amounts, and then the bound fails: one
      settled expense of -5 leaves 0 remaining of a total of -5. */
  lemma NegativeAmountBreaksBound()
    ensures var es := [Expense("a", Some(-5), true)];
      Remaining(es) == 0 && Total(es) == -5 && Remaining(es) > Total(es)
  {
    var es := [Expense("a", Some(-5), true)];
    assert es[..0] == [];
  }
}
