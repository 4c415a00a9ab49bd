/** The records the expense tracker keeps, its fixed category table, and the two
    list combinators (filter and the amount-summing reduce) that every derived
    figure is built from. */
module Ledger {

  /** Whether a transaction takes money out or brings it in. */
  datatype Kind = Expense | Income

  /** One recorded transaction. The amount is an exact number: the sign of the
      effect on the balance is carried by `kind`, and nothing forces the amount
      itself to be non-negative. The category is a plain name, matched against
      the category table by string equality. */
  datatype Transaction = Transaction(
    id: string,
    amount: real,
    category: string,
    description: string,
    date: string,
    kind: Kind)

  /** A row of the static category table: name, chart colour and icon. */
  datatype Category = Category(name: string, color: string, icon: string)

  /** The six categories, in the order the breakdown follows. */
  const Categories: seq<Category> := [
    Category("Food", "#ef4444", "\U{1F37D}\U{FE0F}"),
    Category("Travel", "#f59e0b", "\U{2708}\U{FE0F}"),
    Category("Shopping", "#8b5cf6", "\U{1F6D2}"),
    Category("Bills", "#10b981", "\U{1F4C4}"),
    Category("Entertainment", "#06b6d4", "\U{1F3AC}"),
    Category("Other", "#6b7280", "\U{1F4E6}")
  ]

  /** Some row of the table is called `n`. */
  predicate Listed(cs: seq<Category>, n: string) {
    exists i :: 0 <= i < |cs| && cs[i].name == n
  }

  /** No two rows of the table share a name. */
  predicate DistinctNames(cs: seq<Category>) {
    forall i, j :: 0 <= i < j < |cs| ==> cs[i].name != cs[j].name
  }

  /** The position of the first row called `n`, or `|cs|` when there is none. */
  function IndexIn(cs: seq<Category>, n: string): (k: nat)
    ensures k <= |cs|
    ensures k < |cs| <==> Listed(cs, n)
    ensures k < |cs| ==> cs[k].name == n
    ensures forall i :: 0 <= i < k ==> cs[i].name != n
  {
    if cs == [] then 0
    else if cs[0].name == n then 0
    else
      var k := 1 + IndexIn(cs[1..], n);
      assert Listed(cs, n) ==> Listed(cs[1..], n) by {
        if Listed(cs, n) {
          var i :| 0 <= i < |cs| && cs[i].name == n;
          assert cs[1..][i - 1].name == n;
        }
      }
      k
  }

  /** The six names of the table are pairwise different. */
  lemma CategoryNamesDistinct()
    ensures DistinctNames(Categories)
  {
  }

  /** Array.prototype.filter: the elements that `keep`, in their original order. */
  function Filter<T>(s: seq<T>, keep: T -> bool): (r: seq<T>)
    ensures |r| <= |s|
  {
    if s == [] then []
    else if keep(s[0]) then [s[0]] + Filter(s[1..], keep)
    else Filter(s[1..], keep)
  }

  /** `reduce((sum, t) => sum + t.amount, 0)` over exact numbers. */
  function Sum(ts: seq<Transaction>): real {
    if ts == [] then 0.0 else ts[0].amount + Sum(ts[1..])
  }

  /** Filtering a concatenation filters each part: the filter keeps relative order. */
  lemma {:induction false} FilterAppend<T>(a: seq<T>, b: seq<T>, keep: T -> bool)
    ensures Filter(a + b, keep) == Filter(a, keep) + Filter(b, keep)
  {
    if a == [] {
      assert a + b == b;
    } else {
      assert (a + b)[1..] == a[1..] + b;
      FilterAppend(a[1..], b, keep);
    }
  }

  /** An element is kept exactly as often as it occurs, if it passes, and never otherwise. */
  lemma {:induction false} FilterCount<T>(s: seq<T>, keep: T -> bool, x: T)
    ensures multiset(Filter(s, keep))[x] == if keep(x) then multiset(s)[x] else 0
  {
    if s != [] {
      assert s == [s[0]] + s[1..];
      FilterCount(s[1..], keep, x);
    }
  }

  /** What a filter returns, element by element: every passing element as often
      as it occurs in the input, and nothing else. */
  lemma FilterCounts<T>(s: seq<T>, keep: T -> bool)
    ensures forall x :: multiset(Filter(s, keep))[x] == if keep(x) then multiset(s)[x] else 0
    ensures forall x :: x in Filter(s, keep) <==> x in s && keep(x)
  {
    forall x
      ensures multiset(Filter(s, keep))[x] == if keep(x) then multiset(s)[x] else 0
    {
      FilterCount(s, keep, x);
    }
  }

  /** One step of a filter over a list with a known first element. */
  lemma FilterCons<T>(x: T, s: seq<T>, keep: T -> bool)
    ensures Filter([x] + s, keep) == if keep(x) then [x] + Filter(s, keep) else Filter(s, keep)
  {
    assert ([x] + s)[0] == x && ([x] + s)[1..] == s;
  }

  /** A one-element list filtered by any test. */
  lemma FilterOne<T>(x: T, keep: T -> bool)
    ensures Filter([x], keep) == if keep(x) then [x] else []
  {
    FilterCons(x, [], keep);
  }

  /** A four-element list filtered by any test, element by element. */
  lemma FilterFour<T>(a: T, b: T, c: T, d: T, keep: T -> bool)
    ensures Filter([a, b, c, d], keep) ==
      (if keep(a) then [a] else []) + (if keep(b) then [b] else []) +
      (if keep(c) then [c] else []) + (if keep(d) then [d] else [])
  {
    assert [a, b, c, d] == [a] + [b] + [c] + [d];
    FilterAppend([a] + [b] + [c], [d], keep);
    FilterAppend([a] + [b], [c], keep);
    FilterAppend([a], [b], keep);
    FilterOne(a, keep);
    FilterOne(b, keep);
    FilterOne(c, keep);
    FilterOne(d, keep);
  }

  /** A six-element list is two three-element lists put together. */
  lemma SixElements<T>(s: seq<T>)
    requires |s| == 6
    ensures s == [s[0], s[1], s[2]] + [s[3], s[4], s[5]]
  {
  }

  /** When every element passes, the filter returns its input unchanged. */
  lemma {:induction false} FilterKeepsAll<T>(s: seq<T>, keep: T -> bool)
    requires forall i :: 0 <= i < |s| ==> keep(s[i])
    ensures Filter(s, keep) == s
  {
    if s != [] {
      FilterKeepsAll(s[1..], keep);
    }
  }

  /** When no element passes, the filter returns nothing. */
  lemma {:induction false} FilterDropsAll<T>(s: seq<T>, keep: T -> bool)
    requires forall i :: 0 <= i < |s| ==> !keep(s[i])
    ensures Filter(s, keep) == []
  {
    if s != [] {
      FilterDropsAll(s[1..], keep);
    }
  }

  /** The sum of a concatenation is the sum of the parts. */
  lemma {:induction false} SumAppend(a: seq<Transaction>, b: seq<Transaction>)
    ensures Sum(a + b) == Sum(a) + Sum(b)
  {
    if a == [] {
      assert a + b == b;
    } else {
      assert (a + b)[1..] == a[1..] + b;
      SumAppend(a[1..], b);
    }
  }

  /** A sum of transactions whose amounts are all non-negative is non-negative. */
  lemma {:induction false} SumNonNegative(ts: seq<Transaction>)
    requires forall i :: 0 <= i < |ts| ==> ts[i].amount >= 0.0
    ensures Sum(ts) >= 0.0
  {
    if ts != [] {
      SumNonNegative(ts[1..]);
    }
  }

  /** Summing the transactions that pass a stricter test gives no more than
      summing those that pass a weaker one, when every amount the weaker test
      admits is non-negative. */
  lemma {:induction false} SumFilterMonotone(ts: seq<Transaction>, strict: Transaction -> bool, loose: Transaction -> bool)
    requires forall t :: strict(t) ==> loose(t)
    requires forall i :: 0 <= i < |ts| && loose(ts[i]) ==> ts[i].amount >= 0.0
    ensures Sum(Filter(ts, strict)) <= Sum(Filter(ts, loose))
  {
    if ts != [] {
      SumFilterMonotone(ts[1..], strict, loose);
    }
  }
}
