/**
 * The expense summary of a travel plan: the total of the plan's expenses and, per category,
 * the total of the expenses recorded under it. Amounts are exact reals here.
 */
module ExpenseSummary {
  import opened Basics

  /** An expense row as the summary reads it: its category key and its amount. */
  datatype Expense = Expense(category: string, amount: real)

  /** The rows the query returned, or none when it returned no data. */
  function Rows(data: Option<seq<Expense>>): seq<Expense>
  {
    match data
    case Some(rows) => rows
    case None => []
  }

  /** What `e` contributes to a sum over every category (`only` is `None`) or over one category. */
  function Counted(e: Expense, only: Option<string>): real
  {
    if only.None? || e.category == only.value then e.amount else 0.0
  }

  /** The sum of the counted amounts, added from the first expense to the last. */
  function Sum(expenses: seq<Expense>, only: Option<string>): real
  {
    if expenses == [] then 0.0
    else Sum(expenses[..|expenses| - 1], only) + Counted(expenses[|expenses| - 1], only)
  }

  /** The amount of all expenses. */
  function Total(expenses: seq<Expense>): real
  {
    Sum(expenses, None)
  }

  /** The amount of the expenses recorded under category `c`. */
  function CategoryTotal(expenses: seq<Expense>, c: string): real
  {
    Sum(expenses, Some(c))
  }

  /** The categories that occur in the list. */
  function Categories(expenses: seq<Expense>): set<string>
  {
    set e | e in expenses :: e.category
  }

  /** The sum of the category totals of `keys`, one after another. */
  function SumOfCategoryTotals(expenses: seq<Expense>, keys: seq<string>): real
  {
    if keys == [] then 0.0
    else SumOfCategoryTotals(expenses, keys[..|keys| - 1]) + CategoryTotal(expenses, keys[|keys| - 1])
  }

  /**
   * The summary of the rows a query returned: `total` is the sum of all amounts, and
   * `byCategory` has exactly the categories that occur as keys, each mapped to the sum of
   * the amounts recorded under it. No rows give a total of 0 and an empty map.
   */
  method Summarize(data: Option<seq<Expense>>) returns (total: real, byCategory: map<string, real>)
    ensures total == Total(Rows(data))
    ensures byCategory.Keys == Categories(Rows(data))
    ensures forall c :: c in byCategory ==> byCategory[c] == CategoryTotal(Rows(data), c)
    ensures Rows(data) == [] ==> total == 0.0 && byCategory == map[]
    ensures data.None? ==> total == 0.0 && byCategory == map[]
  {
    var expenses := if data.Some? then data.value else [];
    total := 0.0;
    for i := 0 to |expenses|
      invariant total == Total(expenses[..i])
    {
      PrefixStep(expenses, i);
      total := total + expenses[i].amount;
    }
    assert expenses[..|expenses|] == expenses;
    byCategory := map[];
    for i := 0 to |expenses|
      invariant byCategory.Keys == Categories(expenses[..i])
      invariant forall c :: c in byCategory ==> byCategory[c] == CategoryTotal(expenses[..i], c)
    {
      var e := expenses[i];
      PrefixStep(expenses, i);
      CategoryTotalStep(expenses[..i], e);
      byCategory := byCategory[e.category := (if e.category in byCategory then byCategory[e.category] else 0.0) + e.amount];
    }
  }

  /** Appending an expense adds its amount to its own category and leaves the other categories as they were. */
  lemma CategoryTotalStep(expenses: seq<Expense>, e: Expense)
    ensures Categories(expenses + [e]) == Categories(expenses) + {e.category}
    ensures CategoryTotal(expenses + [e], e.category) == CategoryTotal(expenses, e.category) + e.amount
    ensures forall c :: c != e.category ==> CategoryTotal(expenses + [e], c) == CategoryTotal(expenses, c)
    ensures e.category !in Categories(expenses) ==> CategoryTotal(expenses, e.category) == 0.0
  {
    assert (expenses + [e])[..|expenses|] == expenses;
    if e.category !in Categories(expenses) {
      AbsentCategoryTotal(expenses, e.category);
    }
  }

  /** A category that does not occur totals 0. */
  lemma {:induction false} AbsentCategoryTotal(expenses: seq<Expense>, c: string)
    requires c !in Categories(expenses)
    ensures CategoryTotal(expenses, c) == 0.0
  {
    if expenses != [] {
      var front := expenses[..|expenses| - 1];
      assert forall e :: e in front ==> e in expenses;
      AbsentCategoryTotal(front, c);
    }
  }

  /** The sum over a concatenation is the sum of the two parts. */
  lemma {:induction false} SumAppend(a: seq<Expense>, b: seq<Expense>, only: Option<string>)
    ensures Sum(a + b, only) == Sum(a, only) + Sum(b, only)
    decreases |b|
  {
    if b != [] {
      var front := b[..|b| - 1];
      assert (a + b)[..|a + b| - 1] == a + front;
      assert (a + b)[|a + b| - 1] == b[|b| - 1];
      SumAppend(a, front, only);
    } else {
      assert a + b == a;
    }
  }

  /** Taking one expense out of the list removes exactly its contribution. */
  lemma SumRemove(expenses: seq<Expense>, i: nat, only: Option<string>)
    requires i < |expenses|
    ensures Sum(expenses, only) == Sum(expenses[..i] + expenses[i + 1..], only) + Counted(expenses[i], only)
  {
    assert expenses == expenses[..i] + ([expenses[i]] + expenses[i + 1..]);
    SumAppend(expenses[..i], [expenses[i]] + expenses[i + 1..], only);
    SumAppend([expenses[i]], expenses[i + 1..], only);
    SumAppend(expenses[..i], expenses[i + 1..], only);
    assert Sum([expenses[i]], only) == Counted(expenses[i], only) by {
      assert [expenses[i]][..0] == [];
    }
  }

  /** Sums do not depend on the order of the expenses. */
  lemma {:induction false} SumPermutation(a: seq<Expense>, b: seq<Expense>, only: Option<string>)
    requires multiset(a) == multiset(b)
    ensures Sum(a, only) == Sum(b, only)
    decreases |b|
  {
    if b == [] {
      assert |a| == |multiset(a)| == 0;
    } else {
      var last := b[|b| - 1];
      var front := b[..|b| - 1];
      assert b == front + [last];
      assert last in multiset(a);
      var i :| 0 <= i < |a| && a[i] == last;
      var rest := a[..i] + a[i + 1..];
      RemoveOne(a, i, front);
      SumRemove(a, i, only);
      SumPermutation(rest, front, only);
    }
  }

  /** Removing the same element from two lists with equal multisets leaves equal multisets. */
  lemma RemoveOne<T>(a: seq<T>, i: nat, front: seq<T>)
    requires i < |a| && multiset(a) == multiset(front + [a[i]])
    ensures multiset(a[..i] + a[i + 1..]) == multiset(front)
  {
    var x := a[i];
    var r, f := multiset(a[..i] + a[i + 1..]), multiset(front);
    assert a == a[..i] + [x] + a[i + 1..];
    assert r + multiset{x} == f + multiset{x} by {
      assert multiset(a) == r + multiset{x};
      assert multiset(front + [x]) == f + multiset{x};
    }
    forall y ensures r[y] == f[y] {
      assert (r + multiset{x})[y] == (f + multiset{x})[y];
    }
  }

  /** Reordering the expense list leaves the whole summary unchanged. */
  lemma SummaryIgnoresOrder(a: seq<Expense>, b: seq<Expense>)
    requires multiset(a) == multiset(b)
    ensures Total(a) == Total(b)
    ensures Categories(a) == Categories(b)
    ensures forall c :: CategoryTotal(a, c) == CategoryTotal(b, c)
  {
    SumPermutation(a, b, None);
    forall c {
      SumPermutation(a, b, Some(c));
    }
    forall x | x in Categories(a) ensures x in Categories(b) {
      var e :| e in a && e.category == x;
      assert e in multiset(b);
    }
    forall x | x in Categories(b) ensures x in Categories(a) {
      var e :| e in b && e.category == x;
      assert e in multiset(a);
    }
  }

  /** Adding an expense whose category is among `keys` adds its amount once to the sum of the category totals. */
  lemma {:induction false} SumOfCategoryTotalsStep(expenses: seq<Expense>, e: Expense, keys: seq<string>)
    requires Distinct(keys)
    ensures SumOfCategoryTotals(expenses + [e], keys) ==
      SumOfCategoryTotals(expenses, keys) + (if e.category in keys then e.amount else 0.0)
  {
    CategoryTotalStep(expenses, e);
    if keys != [] {
      var front := keys[..|keys| - 1];
      assert Distinct(front);
      assert e.category in keys <==> e.category in front || e.category == keys[|keys| - 1];
      SumOfCategoryTotalsStep(expenses, e, front);
    }
  }

  /** The category totals of any listing of the categories, each once, add up to the total. */
  lemma {:induction false} CategoryTotalsAddUpToTotal(expenses: seq<Expense>, keys: seq<string>)
    requires Distinct(keys)
    requires forall c :: c in Categories(expenses) ==> c in keys
    ensures SumOfCategoryTotals(expenses, keys) == Total(expenses)
  {
    if expenses == [] {
      SumOfEmptyTotals(keys);
    } else {
      var front := expenses[..|expenses| - 1];
      var e := expenses[|expenses| - 1];
      assert expenses == front + [e];
      assert forall x :: x in front ==> x in expenses;
      assert e.category in Categories(expenses);
      CategoryTotalsAddUpToTotal(front, keys);
      SumOfCategoryTotalsStep(front, e, keys);
    }
  }

  /** With no expenses every category totals 0. */
  lemma {:induction false} SumOfEmptyTotals(keys: seq<string>)
    ensures SumOfCategoryTotals([], keys) == 0.0
  {
    if keys != [] {
      SumOfEmptyTotals(keys[..|keys| - 1]);
    }
  }
}
