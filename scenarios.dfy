/** Sequences of user actions on one dashboard, and what they do to the list
    and to the derived figures. */
module Scenarios {
  import opened Ledger
  import opened Derivations
  import opened Tracker
  import opened Sample

  /** Submitting an admitted draft adds its amount to the total of its own type
      and leaves the other total as it was. */
  method AddUpdatesTotals(tr: ExpenseTracker, id: string, today: string, parse: string -> real)
    requires tr.Valid() && Admits(tr.draft)
    modifies tr
    ensures tr.transactions == [Commit(old(tr.draft), id, today, parse)] + old(tr.transactions)
    ensures var t := Commit(old(tr.draft), id, today, parse);
      TotalOf(tr.transactions, t.kind) == TotalOf(old(tr.transactions), t.kind) + t.amount
    ensures var t := Commit(old(tr.draft), id, today, parse);
      forall k :: k != t.kind ==> TotalOf(tr.transactions, k) == TotalOf(old(tr.transactions), k)
    ensures |tr.transactions| == |old(tr.transactions)| + 1
  {
    var t := Commit(tr.draft, id, today, parse);
    tr.AddTransaction(id, today, parse);
    TotalOfPrepend(t, old(tr.transactions), Income);
    TotalOfPrepend(t, old(tr.transactions), Expense);
  }

  /** Submitting an admitted draft under an id the list does not hold and then
      deleting that id gives back the list the dashboard started from. The
      balance clause is a corollary of the list equality, stated for the card
      the user sees. */
  method AddThenDeleteRestores(tr: ExpenseTracker, id: string, today: string, parse: string -> real)
    requires tr.Valid() && Admits(tr.draft) && IdAbsent(tr.transactions, id)
    modifies tr
    ensures tr.transactions == old(tr.transactions)
    ensures Balance(tr.transactions) == Balance(old(tr.transactions))
    ensures tr.draft == BlankDraft && !tr.showAddForm
  {
    var t := Commit(tr.draft, id, today, parse);
    tr.AddTransaction(id, today, parse);
    tr.DeleteTransaction(id);
    AddThenDelete(t, old(tr.transactions));
  }

  /** Deleting the four sample rows one by one, by their ids, empties the list. */
  lemma SampleRowsDeleted()
    ensures WithoutId(WithoutId(WithoutId(WithoutId(SampleData, "1"), "2"), "3"), "4") == []
  {
    var s := SampleData;
    assert s == [s[0]] + [s[1], s[2], s[3]];
    AddThenDelete(s[0], [s[1], s[2], s[3]]);
    assert [s[1], s[2], s[3]] == [s[1]] + [s[2], s[3]];
    AddThenDelete(s[1], [s[2], s[3]]);
    assert [s[2], s[3]] == [s[2]] + [s[3]];
    AddThenDelete(s[2], [s[3]]);
    assert [s[3]] == [s[3]] + [];
    AddThenDelete(s[3], []);
  }

  /** The user deletes the four sample rows of a freshly mounted dashboard. */
  method DeleteSampleRows(tr: ExpenseTracker)
    requires tr.Valid() && tr.transactions == SampleData
    modifies tr`transactions
    ensures tr.transactions == [] && tr.Valid()
  {
    tr.DeleteTransaction("1");
    tr.DeleteTransaction("2");
    tr.DeleteTransaction("3");
    tr.DeleteTransaction("4");
    SampleRowsDeleted();
  }

  /** The dashboard as mounted, after the user deletes the four sample rows,
      opens the form, enters a 300 travel expense and submits it on 2025-01-15.
      `parse` stands in for parseFloat on the one text typed here. */
  method TravelExpenseScenario() returns (spentToday: real, chart: seq<Slice>, shown: seq<Transaction>)
    ensures spentToday == 300.0
    ensures chart == [Slice("Travel", 300.0, "#f59e0b", "\U{2708}\U{FE0F}")]
    ensures |shown| == 1 && shown[0].amount == 300.0 && shown[0].category == "Travel"
  {
    var tr := new ExpenseTracker();
    tr.LoadSampleData();
    DeleteSampleRows(tr);
    tr.ToggleAddForm();
    tr.SetDraftAmount("300");
    assert Categories[1].name == "Travel";
    tr.SetDraftCategory("Travel");
    tr.SetDraftDescription("Metro pass");
    var parse := (text: string) => 300.0;
    tr.AddTransaction("1736899200000", "2025-01-15", parse);
    assert !tr.showAddForm && tr.draft == BlankDraft;
    var t := tr.transactions[0];
    assert tr.transactions == [t];
    spentToday := TodayExpenses(tr.transactions, "2025-01-15");
    chart := ExpensesByCategory(tr.transactions);
    SingleExpenseChart(t);
    shown := Recent(tr.transactions);
  }

  /** Spending on the day of the first sample row: an expense added that day is
      counted together with the 850 dinner, and nothing else. */
  lemma SampleDaySpending(t: Transaction)
    requires t.kind == Expense && t.date == "2025-01-15"
    ensures TodayExpenses([t] + SampleData, t.date) == t.amount + 850.0
  {
    var s := SampleData;
    assert s == [s[0], s[1], s[2], s[3]];
    FilterAppend([t], s, ExpenseOn(t.date));
    FilterOne(t, ExpenseOn(t.date));
    FilterFour(s[0], s[1], s[2], s[3], ExpenseOn(t.date));
    assert ExpensesOn([t] + s, t.date) == [t, s[0]];
    assert [t, s[0]][1..] == [s[0]] && [s[0]][1..] == [];
    assert Sum([s[0]]) == 850.0;
    assert Sum([t, s[0]]) == t.amount + 850.0;
  }

  /** The dashboard as mounted, where the user adds a 300 travel expense on
      2025-01-15, the date of the sample dinner: today's spending is 1150, the
      expense total 4850, the balance 70150, and the list holds five entries. */
  method SampleDayScenario() returns (spentToday: real, spent: real, balance: real, count: nat)
    ensures spentToday == 1150.0 && spent == 4850.0 && balance == 70150.0 && count == 5
  {
    var tr := new ExpenseTracker();
    tr.LoadSampleData();
    tr.ToggleAddForm();
    tr.SetDraftAmount("300");
    assert Categories[1].name == "Travel";
    tr.SetDraftCategory("Travel");
    tr.SetDraftDescription("Metro pass");
    var parse := (text: string) => 300.0;
    tr.AddTransaction("1736899200000", "2025-01-15", parse);
    var t := tr.transactions[0];
    assert tr.transactions == [t] + SampleData;
    SampleDaySpending(t);
    SampleTotals();
    TotalOfPrepend(t, SampleData, Expense);
    TotalOfPrepend(t, SampleData, Income);
    spentToday := TodayExpenses(tr.transactions, "2025-01-15");
    spent := TotalExpenses(tr.transactions);
    balance := Balance(tr.transactions);
    count := |tr.transactions|;
  }

  /** The chart for a list holding one expense filed under a table category:
      that category's slice when the amount is positive, and nothing otherwise. */
  lemma SingleExpenseChart(t: Transaction)
    requires t.kind == Expense
    ensures TodayExpenses([t], t.date) == t.amount
    ensures TotalExpenses([t]) == t.amount
    ensures t.category == "Travel" ==>
      ExpensesByCategory([t]) == if t.amount > 0.0 then [Slice("Travel", t.amount, "#f59e0b", "\U{2708}\U{FE0F}")] else []
  {
    assert [t][1..] == [];
    assert Filter([t], ExpenseOn(t.date)) == [t];
    assert ExpensesOn([t], t.date) == [t];
    assert Sum([t]) == t.amount;
    assert Filter([t], KindIs(Expense)) == [t];
    if t.category == "Travel" {
      var m := MapSlices(Categories, [t]);
      forall i | 0 <= i < 6
        ensures m[i].value == if i == 1 then t.amount else 0.0
      {
        assert Filter([t], ExpenseIn(Categories[i].name)) == if i == 1 then [t] else [];
      }
      OnlySecondShown(m);
    }
  }

  /** A list of slices where only the second can be shown. */
  lemma OnlySecondShown(m: seq<Slice>)
    requires |m| >= 2
    requires !IsShown(m[0]) && forall i :: 2 <= i < |m| ==> !IsShown(m[i])
    ensures Filter(m, IsShown) == if IsShown(m[1]) then [m[1]] else []
  {
    assert m == [m[0]] + [m[1]] + m[2..];
    FilterAppend([m[0]] + [m[1]], m[2..], IsShown);
    FilterAppend([m[0]], [m[1]], IsShown);
    FilterOne(m[0], IsShown);
    FilterOne(m[1], IsShown);
    FilterDropsAll(m[2..], IsShown);
  }

  /** The gate looks only at whether the texts are empty: an amount text that is
      not a number, or a negative one, gets through. */
  lemma GateAdmitsAnyAmountText()
    ensures Admits(Draft("abc", "Food", "Snacks", Expense))
    ensures Admits(Draft("-200", "Travel", "Refund", Expense))
    ensures !Admits(Draft("", "Travel", "Refund", Expense))
    ensures !Admits(Draft("200", "Travel", "", Expense))
  {
  }

  /** With a negative expense amount, which the gate lets through, the chart no
      longer adds up to the expense total: the non-negativity premise of
      BreakdownSumsToTotal cannot be dropped. */
  lemma NegativeExpenseLeftOutOfChart()
    ensures var t := Transaction("5", -200.0, "Travel", "Refund", "2025-01-15", Expense);
      ExpensesByCategory([t]) == [] && TotalExpenses([t]) == -200.0
  {
    SingleExpenseChart(Transaction("5", -200.0, "Travel", "Refund", "2025-01-15", Expense));
  }
}
