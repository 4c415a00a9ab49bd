/** The component's state and its event handlers: the transaction list, the
    add-form draft, the form and balance visibility flags, and the add, delete,
    cancel, toggle and field-edit handlers that update them. */
module Tracker {
  import opened Ledger
  import opened Derivations
  import Sample

  /** The add form's pending fields: amount and description as typed, category
      and type as selected. */
  datatype Draft = Draft(amount: string, category: string, description: string, kind: Kind)

  /** The draft the form starts with and is reset to after a successful add. */
  const BlankDraft := Draft("", "Food", "", Expense)

  /** The submit gate: both the amount text and the description text are
      non-empty. Nothing else about the amount text is checked. */
  predicate Admits(d: Draft) {
    d.amount != "" && d.description != ""
  }

  /** The transaction a submitted draft becomes. `parse` stands for
      `parseFloat`, `id` for the clock-derived identifier and `today` for the
      current date. */
  function Commit(d: Draft, id: string, today: string, parse: string -> real): Transaction {
    Transaction(id, parse(d.amount), d.category, d.description, today, d.kind)
  }

  /** `transactions.filter(t => t.id !== id)`. */
  function IdIsNot(id: string): Transaction -> bool {
    (t: Transaction) => t.id != id
  }

  /** The list with every entry carrying `id` removed. */
  function WithoutId(ts: seq<Transaction>, id: string): seq<Transaction> {
    Filter(ts, IdIsNot(id))
  }

  /** Deleting keeps each entry with another id as often as it occurs, and none
      with that id. */
  lemma DeleteSelects(ts: seq<Transaction>, id: string)
    ensures forall x :: multiset(WithoutId(ts, id))[x] == if x.id == id then 0 else multiset(ts)[x]
  {
    FilterCounts(ts, IdIsNot(id));
  }

  /** No entry of the list carries `id`. */
  predicate IdAbsent(ts: seq<Transaction>, id: string) {
    forall i :: 0 <= i < |ts| ==> ts[i].id != id
  }

  /** Deleting an id that is not in the list leaves the list as it was; the
      clauses on the totals and today's spending are corollaries of that list
      equality, stated for the figures the dashboard shows. */
  lemma DeleteAbsentId(ts: seq<Transaction>, id: string, today: string)
    requires IdAbsent(ts, id)
    ensures WithoutId(ts, id) == ts
    ensures TotalIncome(WithoutId(ts, id)) == TotalIncome(ts)
    ensures TotalExpenses(WithoutId(ts, id)) == TotalExpenses(ts)
    ensures TodayExpenses(WithoutId(ts, id), today) == TodayExpenses(ts, today)
  {
    FilterKeepsAll(ts, IdIsNot(id));
  }

  /** Deleting works part by part, so the entries that remain keep their order. */
  lemma DeleteKeepsOrder(a: seq<Transaction>, b: seq<Transaction>, id: string)
    ensures WithoutId(a + b, id) == WithoutId(a, id) + WithoutId(b, id)
  {
    FilterAppend(a, b, IdIsNot(id));
  }

  /** Deleting the same id twice is the same as deleting it once. */
  lemma DeleteIdempotent(ts: seq<Transaction>, id: string)
    ensures WithoutId(WithoutId(ts, id), id) == WithoutId(ts, id)
  {
    var r := WithoutId(ts, id);
    DeleteSelects(ts, id);
    forall i | 0 <= i < |r|
      ensures r[i].id != id
    {
      assert multiset(r)[r[i]] > 0;
    }
    DeleteAbsentId(r, id, "");
  }

  /** A transaction prepended with an id the list did not hold is exactly what
      deleting that id takes away again. The clauses on the totals are
      corollaries of the list equality. */
  lemma AddThenDelete(t: Transaction, ts: seq<Transaction>)
    requires IdAbsent(ts, t.id)
    ensures WithoutId([t] + ts, t.id) == ts
    ensures TotalIncome(WithoutId([t] + ts, t.id)) == TotalIncome(ts)
    ensures TotalExpenses(WithoutId([t] + ts, t.id)) == TotalExpenses(ts)
  {
    DeleteKeepsOrder([t], ts, t.id);
    DeleteAbsentId(ts, t.id, "");
    assert [t][1..] == [];
  }

  /** On a dashboard whose state keeps the selector's guarantee, the chart
      accounts for all spending as soon as no expense amount is negative. */
  lemma ChartAccountsForSpending(tr: ExpenseTracker)
    requires tr.Valid() && ExpenseAmountsNonNegative(tr.transactions)
    ensures SliceTotal(ExpensesByCategory(tr.transactions)) == TotalExpenses(tr.transactions)
  {
    BreakdownSumsToTotal(tr.transactions);
  }

  /** The state of one mounted dashboard. */
  class ExpenseTracker {
    var transactions: seq<Transaction>
    var showAddForm: bool
    var draft: Draft
    var balanceVisible: bool

    /** What the category selector guarantees: the draft's category is one of the
        six table names, so every expense that reaches the list is filed under
        one of them. */
    predicate Valid()
      reads this
    {
      Listed(Categories, draft.category) && ExpensesListed(Categories, transactions)
    }

    /** The initial state: no transactions, form hidden, blank draft, balance shown. */
    constructor ()
      ensures transactions == [] && !showAddForm && draft == BlankDraft && balanceVisible
      ensures Valid()
    {
      assert Categories[0].name == BlankDraft.category;
      transactions := [];
      showAddForm := false;
      draft := BlankDraft;
      balanceVisible := true;
    }

    /** The mount effect: the list becomes the sample data. */
    method LoadSampleData()
      requires Valid()
      modifies this`transactions
      ensures transactions == Sample.SampleData
      ensures Valid()
    {
      transactions := Sample.SampleData;
      Sample.SampleExpensesListed();
    }

    /** Submitting the form. A draft the gate rejects changes nothing. An admitted
        draft becomes a transaction placed in front of the list, after which the
        draft is blank again and the form is hidden. */
    method AddTransaction(id: string, today: string, parse: string -> real)
      requires Valid()
      modifies this
      ensures !Admits(old(draft)) ==>
        transactions == old(transactions) && draft == old(draft) && showAddForm == old(showAddForm)
      ensures Admits(old(draft)) ==>
        transactions == [Commit(old(draft), id, today, parse)] + old(transactions) &&
        draft == BlankDraft && !showAddForm
      ensures balanceVisible == old(balanceVisible)
      ensures Valid()
    {
      if !Admits(draft) {
        return;
      }
      var t := Commit(draft, id, today, parse);
      ExpensesListedCons(Categories, t, transactions);
      transactions := [t] + transactions;
      assert Categories[0].name == BlankDraft.category;
      draft := BlankDraft;
      showAddForm := false;
    }

    /** The delete button of one row: every entry with that id goes. */
    method DeleteTransaction(id: string)
      requires Valid()
      modifies this`transactions
      ensures transactions == WithoutId(old(transactions), id)
      ensures Valid()
    {
      ExpensesListedFilter(Categories, transactions, IdIsNot(id));
      transactions := WithoutId(transactions, id);
    }

    /** The eye button on the balance card. */
    method ToggleBalanceVisible()
      requires Valid()
      modifies this`balanceVisible
      ensures balanceVisible == !old(balanceVisible)
      ensures Valid()
    {
      balanceVisible := !balanceVisible;
    }

    /** The "New Operation" button opens the form, or closes it when open. */
    method ToggleAddForm()
      requires Valid()
      modifies this`showAddForm
      ensures showAddForm == !old(showAddForm)
      ensures Valid()
    {
      showAddForm := !showAddForm;
    }

    /** The Cancel button hides the form; the draft is left as it was. */
    method CancelAddForm()
      requires Valid()
      modifies this`showAddForm
      ensures !showAddForm
      ensures Valid()
    {
      showAddForm := false;
    }

    /** The type selector. */
    method SetDraftKind(k: Kind)
      requires Valid()
      modifies this`draft
      ensures draft == old(draft).(kind := k)
      ensures Valid()
    {
      draft := draft.(kind := k);
    }

    /** The amount input, kept as the text typed. */
    method SetDraftAmount(text: string)
      requires Valid()
      modifies this`draft
      ensures draft == old(draft).(amount := text)
      ensures Valid()
    {
      draft := draft.(amount := text);
    }

    /** The category selector, which offers only the six table names. */
    method SetDraftCategory(name: string)
      requires Valid() && Listed(Categories, name)
      modifies this`draft
      ensures draft == old(draft).(category := name)
      ensures Valid()
    {
      draft := draft.(category := name);
    }

    /** The description input. */
    method SetDraftDescription(text: string)
      requires Valid()
      modifies this`draft
      ensures draft == old(draft).(description := text)
      ensures Valid()
    {
      draft := draft.(description := text);
    }
  }
}
