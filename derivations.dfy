/** The figures the dashboard recomputes from the transaction list on every
    render: the two totals, the balance, today's spending, the per-category
    breakdown shown in the chart, and the capped list of recent entries. */
module Derivations {
  import opened Ledger

  /** The test `t.type === k`. */
  function KindIs(k: Kind): Transaction -> bool {
    (t: Transaction) => t.kind == k
  }

  /** The test `t.type === 'expense' && t.date === today`. */
  function ExpenseOn(today: string): Transaction -> bool {
    (t: Transaction) => t.kind == Expense && t.date == today
  }

  /** The test `t.type === 'expense' && t.category === name`. */
  function ExpenseIn(name: string): Transaction -> bool {
    (t: Transaction) => t.kind == Expense && t.category == name
  }

  /** `transactions.filter(t => t.type === k)`. */
  function OfKind(ts: seq<Transaction>, k: Kind): seq<Transaction> {
    Filter(ts, KindIs(k))
  }

  /** `transactions.filter(t => t.type === 'expense' && t.date === today)`. */
  function ExpensesOn(ts: seq<Transaction>, today: string): seq<Transaction> {
    Filter(ts, ExpenseOn(today))
  }

  /** `transactions.filter(t => t.type === 'expense' && t.category === name)`. */
  function ExpensesIn(ts: seq<Transaction>, name: string): seq<Transaction> {
    Filter(ts, ExpenseIn(name))
  }

  /** The type filter keeps the transactions of that type, each as often as it
      occurs, and no other. */
  lemma OfKindSelects(ts: seq<Transaction>, k: Kind)
    ensures forall x :: multiset(OfKind(ts, k))[x] == if x.kind == k then multiset(ts)[x] else 0
  {
    FilterCounts(ts, KindIs(k));
  }

  /** The today filter keeps the expenses dated `today`, each as often as it
      occurs, and no other. */
  lemma ExpensesOnSelects(ts: seq<Transaction>, today: string)
    ensures forall x :: multiset(ExpensesOn(ts, today))[x] == (if x.kind == Expense && x.date == today then multiset(ts)[x] else 0)
  {
    FilterCounts(ts, ExpenseOn(today));
  }

  /** The category filter keeps the expenses filed under `name`, each as often as
      it occurs, and no other. */
  lemma ExpensesInSelects(ts: seq<Transaction>, name: string)
    ensures forall x :: multiset(ExpensesIn(ts, name))[x] == (if x.kind == Expense && x.category == name then multiset(ts)[x] else 0)
  {
    FilterCounts(ts, ExpenseIn(name));
  }

  function TotalOf(ts: seq<Transaction>, k: Kind): real {
    Sum(OfKind(ts, k))
  }

  function TotalIncome(ts: seq<Transaction>): real {
    TotalOf(ts, Income)
  }

  function TotalExpenses(ts: seq<Transaction>): real {
    TotalOf(ts, Expense)
  }

  function Balance(ts: seq<Transaction>): real {
    TotalIncome(ts) - TotalExpenses(ts)
  }

  function TodayExpenses(ts: seq<Transaction>, today: string): real {
    Sum(ExpensesOn(ts, today))
  }

  /** The amount a transaction moves the balance by: up for income, down for an expense. */
  function Signed(t: Transaction): real {
    if t.kind == Income then t.amount else -t.amount
  }

  /** The net effect of a list of transactions, accumulated entry by entry. */
  function NetFlow(ts: seq<Transaction>): real {
    if ts == [] then 0.0 else Signed(ts[0]) + NetFlow(ts[1..])
  }

  /** Prepending one transaction changes the total of its own kind by its amount
      and leaves the total of the other kind alone. */
  lemma {:induction false} TotalOfPrepend(t: Transaction, ts: seq<Transaction>, k: Kind)
    ensures TotalOf([t] + ts, k) == TotalOf(ts, k) + (if t.kind == k then t.amount else 0.0)
  {
    assert ([t] + ts)[0] == t;
    assert ([t] + ts)[1..] == ts;
  }

  /** The balance is the net flow: every income counted up, every expense down. */
  lemma {:induction false} BalanceIsNetFlow(ts: seq<Transaction>)
    ensures Balance(ts) == NetFlow(ts)
  {
    if ts != [] {
      assert ts == [ts[0]] + ts[1..];
      TotalOfPrepend(ts[0], ts[1..], Income);
      TotalOfPrepend(ts[0], ts[1..], Expense);
      BalanceIsNetFlow(ts[1..]);
    }
  }

  /** Every transaction is either income or expense, so the two totals together
      account for the whole list. */
  lemma {:induction false} TotalsPartition(ts: seq<Transaction>)
    ensures TotalIncome(ts) + TotalExpenses(ts) == Sum(ts)
  {
    if ts != [] {
      assert ts == [ts[0]] + ts[1..];
      TotalOfPrepend(ts[0], ts[1..], Income);
      TotalOfPrepend(ts[0], ts[1..], Expense);
      TotalsPartition(ts[1..]);
    }
  }

  /** Every expense has a non-negative amount. */
  predicate ExpenseAmountsNonNegative(ts: seq<Transaction>) {
    forall i :: 0 <= i < |ts| && ts[i].kind == Expense ==> ts[i].amount >= 0.0
  }

  /** Every expense in `ts` is filed under a name the table lists. */
  predicate ExpensesListed(cs: seq<Category>, ts: seq<Transaction>) {
    forall i :: 0 <= i < |ts| && ts[i].kind == Expense ==> Listed(cs, ts[i].category)
  }

  /** A filter keeps every expense filed under a listed name. */
  lemma ExpensesListedFilter(cs: seq<Category>, ts: seq<Transaction>, keep: Transaction -> bool)
    requires ExpensesListed(cs, ts)
    ensures ExpensesListed(cs, Filter(ts, keep))
  {
    var r := Filter(ts, keep);
    FilterCounts(ts, keep);
    forall i | 0 <= i < |r| && r[i].kind == Expense
      ensures Listed(cs, r[i].category)
    {
      assert r[i] in ts;
      var j :| 0 <= j < |ts| && ts[j] == r[i];
    }
  }

  /** Putting in front a transaction filed under a listed name keeps every
      expense filed under a listed name. */
  lemma ExpensesListedCons(cs: seq<Category>, t: Transaction, ts: seq<Transaction>)
    requires ExpensesListed(cs, ts) && Listed(cs, t.category)
    ensures ExpensesListed(cs, [t] + ts)
  {
    assert forall i :: 1 <= i < |[t] + ts| ==> ([t] + ts)[i] == ts[i - 1];
  }

  /** Today's spending is part of all spending: with non-negative expense
      amounts it never exceeds the expense total. */
  lemma TodayWithinTotal(ts: seq<Transaction>, today: string)
    requires ExpenseAmountsNonNegative(ts)
    ensures 0.0 <= TodayExpenses(ts, today) <= TotalExpenses(ts)
  {
    SumFilterMonotone(ts, ExpenseOn(today), KindIs(Expense));
    var e := Filter(ts, ExpenseOn(today));
    forall i | 0 <= i < |e|
      ensures e[i].amount >= 0.0
    {
      FilterCounts(ts, ExpenseOn(today));
      assert e[i] in ts;
    }
    SumNonNegative(e);
  }

  // ---------------------------------------------------------------------------
  // Per-category breakdown

  /** One entry of the breakdown: `{name, value, color, icon}`. */
  datatype Slice = Slice(name: string, value: real, color: string, icon: string)

  function CategoryExpenses(ts: seq<Transaction>, name: string): real {
    Sum(ExpensesIn(ts, name))
  }

  /** The entry `categories.map` builds for one category. */
  function SliceOf(ts: seq<Transaction>, c: Category): Slice {
    Slice(c.name, CategoryExpenses(ts, c.name), c.color, c.icon)
  }

  /** `cs.map(category => ...)`: one entry per category, in table order. */
  function MapSlices(cs: seq<Category>, ts: seq<Transaction>): (r: seq<Slice>)
    ensures |r| == |cs|
    ensures forall i :: 0 <= i < |cs| ==> r[i] == SliceOf(ts, cs[i])
  {
    if cs == [] then []
    else
      var rest := MapSlices(cs[1..], ts);
      assert forall i :: 1 <= i < |cs| ==> cs[i] == cs[1..][i - 1];
      [SliceOf(ts, cs[0])] + rest
  }

  /** The test `item.value > 0`. */
  predicate IsShown(s: Slice) {
    s.value > 0.0
  }

  /** The breakdown over a given category table. */
  function Breakdown(cs: seq<Category>, ts: seq<Transaction>): seq<Slice> {
    Filter(MapSlices(cs, ts), IsShown)
  }

  /** `expensesByCategory`: the breakdown over the six categories. */
  function ExpensesByCategory(ts: seq<Transaction>): seq<Slice> {
    Breakdown(Categories, ts)
  }

  function SliceTotal(ss: seq<Slice>): real {
    if ss == [] then 0.0 else ss[0].value + SliceTotal(ss[1..])
  }

  /** The breakdown holds exactly the table entries whose expense sum is positive. */
  lemma BreakdownEntries(cs: seq<Category>, ts: seq<Transaction>)
    ensures forall s :: s in Breakdown(cs, ts) <==> s.value > 0.0 && exists c :: c in cs && s == SliceOf(ts, c)
  {
    var m := MapSlices(cs, ts);
    FilterCounts(m, IsShown);
    forall s
      ensures s in m <==> exists c :: c in cs && s == SliceOf(ts, c)
    {
      if s in m {
        var i :| 0 <= i < |m| && m[i] == s;
        assert cs[i] in cs;
      }
      if c :| c in cs && s == SliceOf(ts, c) {
        var i :| 0 <= i < |cs| && cs[i] == c;
        assert m[i] == s;
      }
    }
  }

  /** The breakdown over a non-empty table: the first category's entry if it is
      shown, then the breakdown over the rest. */
  lemma BreakdownCons(cs: seq<Category>, ts: seq<Transaction>)
    requires cs != []
    ensures Breakdown(cs, ts) ==
      (if IsShown(SliceOf(ts, cs[0])) then [SliceOf(ts, cs[0])] else []) + Breakdown(cs[1..], ts)
  {
    var m := MapSlices(cs, ts);
    assert m[0] == SliceOf(ts, cs[0]) && m[1..] == MapSlices(cs[1..], ts);
  }

  /** Every entry of the breakdown over the rest of a table of distinct names sits
      one place further down in the whole table, and after its first row. */
  lemma BreakdownRestIndex(cs: seq<Category>, ts: seq<Transaction>, s: Slice)
    requires cs != [] && DistinctNames(cs)
    requires s in Breakdown(cs[1..], ts)
    ensures IndexIn(cs, s.name) == 1 + IndexIn(cs[1..], s.name) >= 1
  {
    var rest := cs[1..];
    BreakdownEntries(rest, ts);
    var c :| c in rest && s == SliceOf(ts, c);
    var k :| 0 <= k < |rest| && rest[k] == c;
    assert cs[k + 1].name == s.name;
  }

  /** The entries' names appear in `cs` in strictly increasing positions. */
  predicate InTableOrder(cs: seq<Category>, r: seq<Slice>) {
    forall i, j :: 0 <= i < j < |r| ==> IndexIn(cs, r[i].name) < IndexIn(cs, r[j].name)
  }

  /** Order over the rest of a table carries over to the whole table when every
      entry's position moves down by one row. */
  lemma OrderShift(cs: seq<Category>, rest: seq<Slice>)
    requires cs != []
    requires InTableOrder(cs[1..], rest)
    requires forall k :: 0 <= k < |rest| ==> IndexIn(cs, rest[k].name) == 1 + IndexIn(cs[1..], rest[k].name)
    ensures InTableOrder(cs, rest)
    ensures forall k :: 0 <= k < |rest| ==> IndexIn(cs, rest[k].name) > 0
  {
  }

  /** An entry for the first row may go in front of entries for later rows. */
  lemma OrderCons(cs: seq<Category>, h: Slice, rest: seq<Slice>)
    requires InTableOrder(cs, rest)
    requires forall k :: 0 <= k < |rest| ==> IndexIn(cs, rest[k].name) > 0
    requires IndexIn(cs, h.name) == 0
    ensures InTableOrder(cs, [h] + rest)
  {
    var r := [h] + rest;
    forall i, j | 0 <= i < j < |r|
      ensures IndexIn(cs, r[i].name) < IndexIn(cs, r[j].name)
    {
      assert r[j] == rest[j - 1];
      if i > 0 {
        assert r[i] == rest[i - 1];
      }
    }
  }

  /** With distinct names, the breakdown follows the table order. */
  lemma {:induction false} BreakdownOrdered(cs: seq<Category>, ts: seq<Transaction>)
    requires DistinctNames(cs)
    ensures InTableOrder(cs, Breakdown(cs, ts))
  {
    if cs != [] {
      var rest := Breakdown(cs[1..], ts);
      BreakdownOrdered(cs[1..], ts);
      BreakdownCons(cs, ts);
      forall k | 0 <= k < |rest|
        ensures IndexIn(cs, rest[k].name) == 1 + IndexIn(cs[1..], rest[k].name)
      {
        BreakdownRestIndex(cs, ts, rest[k]);
      }
      OrderShift(cs, rest);
      if IsShown(SliceOf(ts, cs[0])) {
        OrderCons(cs, SliceOf(ts, cs[0]), rest);
      } else {
        assert Breakdown(cs, ts) == rest;
      }
    }
  }

  /** What the chart shows: the categories with a positive expense sum, each
      with that sum and the table's colour and icon, in table order. */
  lemma ExpensesByCategoryShape(ts: seq<Transaction>)
    ensures forall s :: s in ExpensesByCategory(ts) <==>
      s.value > 0.0 && exists c :: c in Categories && s == SliceOf(ts, c)
    ensures InTableOrder(Categories, ExpensesByCategory(ts))
  {
    BreakdownEntries(Categories, ts);
    CategoryNamesDistinct();
    BreakdownOrdered(Categories, ts);
  }

  /** Leaving out entries of value zero does not change the sum of the entries. */
  lemma {:induction false} ShownTotal(ss: seq<Slice>)
    requires forall i :: 0 <= i < |ss| ==> ss[i].value >= 0.0
    ensures SliceTotal(Filter(ss, IsShown)) == SliceTotal(ss)
  {
    if ss != [] {
      ShownTotal(ss[1..]);
    }
  }

  /** A name is listed in a non-empty table when the first row or one of the
      later rows carries it; with distinct names, not both. */
  lemma ListedCons(cs: seq<Category>, n: string)
    requires cs != [] && DistinctNames(cs)
    ensures Listed(cs, n) <==> cs[0].name == n || Listed(cs[1..], n)
    ensures cs[0].name == n ==> !Listed(cs[1..], n)
    ensures DistinctNames(cs[1..])
  {
    if Listed(cs, n) && cs[0].name != n {
      var i :| 0 <= i < |cs| && cs[i].name == n;
      assert cs[1..][i - 1].name == n;
    }
    if Listed(cs[1..], n) {
      var i :| 0 <= i < |cs[1..]| && cs[1..][i].name == n;
      assert cs[i + 1].name == n;
    }
  }

  /** A category's expense sum counts the first transaction when it is an
      expense filed under that category, and then the rest. */
  lemma CategoryExpensesFirst(ts: seq<Transaction>, n: string)
    requires ts != []
    ensures CategoryExpenses(ts, n) ==
      (if ts[0].kind == Expense && ts[0].category == n then ts[0].amount else 0.0) + CategoryExpenses(ts[1..], n)
  {
  }

  /** Adding up the category sums over a table of distinct names counts the first
      transaction once if it is an expense of a listed category, and not otherwise. */
  lemma {:induction false} MapSlicesFirst(cs: seq<Category>, ts: seq<Transaction>)
    requires DistinctNames(cs) && ts != []
    ensures SliceTotal(MapSlices(cs, ts)) ==
      (if ts[0].kind == Expense && Listed(cs, ts[0].category) then ts[0].amount else 0.0)
      + SliceTotal(MapSlices(cs, ts[1..]))
  {
    if cs != [] {
      ListedCons(cs, ts[0].category);
      MapSlicesFirst(cs[1..], ts);
      CategoryExpensesFirst(ts, cs[0].name);
    }
  }

  /** The expense total counts the first transaction when it is an expense, and
      then the rest. */
  lemma TotalExpensesFirst(ts: seq<Transaction>)
    requires ts != []
    ensures TotalExpenses(ts) ==
      (if ts[0].kind == Expense then ts[0].amount else 0.0) + TotalExpenses(ts[1..])
  {
    assert ts == [ts[0]] + ts[1..];
    TotalOfPrepend(ts[0], ts[1..], Expense);
  }

  lemma ExpensesListedTail(cs: seq<Category>, ts: seq<Transaction>)
    requires ts != [] && ExpensesListed(cs, ts)
    ensures ExpensesListed(cs, ts[1..])
    ensures ts[0].kind == Expense ==> Listed(cs, ts[0].category)
  {
    assert forall i :: 0 <= i < |ts[1..]| ==> ts[1..][i] == ts[i + 1];
  }

  /** When every expense is filed under a listed category, the category sums
      add up to the expense total. */
  lemma {:induction false} CategorySumsCoverExpenses(cs: seq<Category>, ts: seq<Transaction>)
    requires DistinctNames(cs) && ExpensesListed(cs, ts)
    ensures SliceTotal(MapSlices(cs, ts)) == TotalExpenses(ts)
  {
    if ts == [] {
      NoTransactionsNoSlices(cs);
    } else {
      ExpensesListedTail(cs, ts);
      MapSlicesFirst(cs, ts);
      CategorySumsCoverExpenses(cs, ts[1..]);
      TotalExpensesFirst(ts);
    }
  }

  /** With no transactions every category's slice is worth nothing. */
  lemma {:induction false} NoTransactionsNoSlices(cs: seq<Category>)
    ensures SliceTotal(MapSlices(cs, [])) == 0.0
  {
    if cs != [] {
      NoTransactionsNoSlices(cs[1..]);
      assert MapSlices(cs, [])[1..] == MapSlices(cs[1..], []);
    }
  }

  /** The chart accounts for all spending: when every expense is non-negative and
      filed under one of the six categories, the shown values add up to the
      expense total. */
  lemma BreakdownSumsToTotal(ts: seq<Transaction>)
    requires ExpenseAmountsNonNegative(ts) && ExpensesListed(Categories, ts)
    ensures SliceTotal(ExpensesByCategory(ts)) == TotalExpenses(ts)
  {
    var m := MapSlices(Categories, ts);
    forall i | 0 <= i < |m|
      ensures m[i].value >= 0.0
    {
      var e := ExpensesIn(ts, Categories[i].name);
      ExpensesInSelects(ts, Categories[i].name);
      forall j | 0 <= j < |e|
        ensures e[j].amount >= 0.0
      {
        assert multiset(e)[e[j]] > 0;
      }
      SumNonNegative(e);
    }
    ShownTotal(m);
    CategoryNamesDistinct();
    CategorySumsCoverExpenses(Categories, ts);
  }

  // ---------------------------------------------------------------------------
  // Recent list

  /** The recent-operations list shows at most this many entries. */
  const DisplayCap: nat := 10

  /** `transactions.slice(0, 10)`: the first entries, newest first. */
  function Recent(ts: seq<Transaction>): (r: seq<Transaction>)
    ensures |r| == if |ts| < DisplayCap then |ts| else DisplayCap
    ensures r <= ts
  {
    if |ts| < DisplayCap then ts else ts[..DisplayCap]
  }

  /** A newly prepended transaction is the first one shown, followed by what was
      shown before, minus the oldest entry when the list was full. */
  lemma RecentAfterPrepend(t: Transaction, ts: seq<Transaction>)
    ensures Recent([t] + ts)[0] == t
    ensures Recent([t] + ts)[1..] == Recent(ts)[..|Recent([t] + ts)| - 1]
  {
  }
}
