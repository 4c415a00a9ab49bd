/** The four transactions the dashboard loads when it is first shown, and the
    figures it derives from them. */
module Sample {
  import opened Ledger
  import opened Derivations

  const SampleData: seq<Transaction> := [
    Transaction("1", 850.0, "Food", "Dinner at Mumbai Restaurant", "2025-01-15", Expense),
    Transaction("2", 2500.0, "Travel", "Delhi Metro Card Recharge", "2025-01-14", Expense),
    Transaction("3", 1200.0, "Shopping", "Bangalore Mall Purchase", "2025-01-13", Expense),
    Transaction("4", 75000.0, "Other", "Salary Credit", "2025-01-12", Income)
  ]

  /** Every sample expense is filed under a table category. */
  lemma SampleExpensesListed()
    ensures ExpensesListed(Categories, SampleData)
  {
    assert Categories[0].name == "Food";
    assert Categories[1].name == "Travel";
    assert Categories[2].name == "Shopping";
    assert Categories[5].name == "Other";
  }

  /** A six-element list of slices with exactly the first three shown. */
  lemma ShowFirstThree(m: seq<Slice>)
    requires |m| == 6
    requires forall i :: 0 <= i < 3 ==> IsShown(m[i])
    requires forall i :: 3 <= i < 6 ==> !IsShown(m[i])
    ensures Filter(m, IsShown) == m[..3]
  {
    SixElements(m);
    FilterAppend([m[0], m[1], m[2]], [m[3], m[4], m[5]], IsShown);
    FilterKeepsAll([m[0], m[1], m[2]], IsShown);
    FilterDropsAll([m[3], m[4], m[5]], IsShown);
  }

  lemma SumThree(a: Transaction, b: Transaction, c: Transaction)
    ensures Sum([a, b, c]) == a.amount + b.amount + c.amount
  {
    assert [c][1..] == [];
    assert Sum([c]) == c.amount;
    assert [b, c][1..] == [c];
    assert Sum([b, c]) == b.amount + c.amount;
    assert [a, b, c][1..] == [b, c];
  }

  /** The totals of a list of three expenses followed by one income. */
  lemma ThreeExpensesOneIncome(a: Transaction, b: Transaction, c: Transaction, d: Transaction)
    requires a.kind == Expense && b.kind == Expense && c.kind == Expense && d.kind == Income
    ensures TotalExpenses([a, b, c, d]) == a.amount + b.amount + c.amount
    ensures TotalIncome([a, b, c, d]) == d.amount
  {
    FilterFour(a, b, c, d, KindIs(Expense));
    assert OfKind([a, b, c, d], Expense) == [a, b, c];
    SumThree(a, b, c);
    FilterFour(a, b, c, d, KindIs(Income));
    assert OfKind([a, b, c, d], Income) == [d];
    assert [d][1..] == [];
    assert Sum([d]) == d.amount;
  }

  /** A category's expense sum over three expenses followed by one income, for
      expenses filed under three different categories. */
  lemma ThreeExpensesByCategory(a: Transaction, b: Transaction, c: Transaction, d: Transaction, name: string)
    requires a.kind == Expense && b.kind == Expense && c.kind == Expense && d.kind == Income
    requires a.category != b.category && a.category != c.category && b.category != c.category
    ensures CategoryExpenses([a, b, c, d], name) ==
      if name == a.category then a.amount
      else if name == b.category then b.amount
      else if name == c.category then c.amount
      else 0.0
  {
    FilterFour(a, b, c, d, ExpenseIn(name));
    var e := ExpensesIn([a, b, c, d], name);
    assert [a][1..] == [] && [b][1..] == [] && [c][1..] == [];
    if name == a.category {
      assert e == [a];
      assert Sum([a]) == a.amount;
    } else if name == b.category {
      assert e == [b];
      assert Sum([b]) == b.amount;
    } else if name == c.category {
      assert e == [c];
      assert Sum([c]) == c.amount;
    } else {
      assert e == [];
    }
  }

  /** The cards on the sample data: 4550 spent, 75000 earned, a balance of 70450. */
  lemma SampleTotals()
    ensures TotalExpenses(SampleData) == 4550.0
    ensures TotalIncome(SampleData) == 75000.0
    ensures Balance(SampleData) == 70450.0
  {
    var s := SampleData;
    assert s == [s[0], s[1], s[2], s[3]];
    ThreeExpensesOneIncome(s[0], s[1], s[2], s[3]);
  }

  /** The expense sum of each category name over the sample data. */
  lemma SampleCategoryExpenses(name: string)
    ensures CategoryExpenses(SampleData, name) ==
      if name == "Food" then 850.0
      else if name == "Travel" then 2500.0
      else if name == "Shopping" then 1200.0
      else 0.0
  {
    var s := SampleData;
    assert s == [s[0], s[1], s[2], s[3]];
    ThreeExpensesByCategory(s[0], s[1], s[2], s[3], name);
  }

  /** The six table entries on the sample data, before the `value > 0` filter:
      Food, Travel and Shopping carry their sums, the other three carry 0. */
  lemma SampleSlices()
    ensures |MapSlices(Categories, SampleData)| == 6
    ensures MapSlices(Categories, SampleData)[0] == Slice("Food", 850.0, "#ef4444", "\U{1F37D}\U{FE0F}")
    ensures MapSlices(Categories, SampleData)[1] == Slice("Travel", 2500.0, "#f59e0b", "\U{2708}\U{FE0F}")
    ensures MapSlices(Categories, SampleData)[2] == Slice("Shopping", 1200.0, "#8b5cf6", "\U{1F6D2}")
    ensures forall i :: 3 <= i < 6 ==> MapSlices(Categories, SampleData)[i].value == 0.0
  {
    SampleCategoryExpenses("Food");
    SampleCategoryExpenses("Travel");
    SampleCategoryExpenses("Shopping");
    SampleCategoryExpenses("Bills");
    SampleCategoryExpenses("Entertainment");
    SampleCategoryExpenses("Other");
  }

  /** The chart on the sample data: Food, Travel and Shopping with their sums;
      Bills, Entertainment and Other have none and are left out. */
  lemma SampleBreakdown()
    ensures ExpensesByCategory(SampleData) == [
      Slice("Food", 850.0, "#ef4444", "\U{1F37D}\U{FE0F}"),
      Slice("Travel", 2500.0, "#f59e0b", "\U{2708}\U{FE0F}"),
      Slice("Shopping", 1200.0, "#8b5cf6", "\U{1F6D2}")
    ]
  {
    var m := MapSlices(Categories, SampleData);
    SampleSlices();
    ShowFirstThree(m);
    assert m[..3] == [m[0], m[1], m[2]];
  }
}
