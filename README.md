# Expense tracker dashboard — a Dafny model

This project models the state and derivation layer of the `ExpenseTracker`
dashboard component, written in TypeScript/React. The component keeps an
in-memory list of transactions, newest first, together with a draft for the
"add transaction" form and two visibility flags. On every render it derives
these figures from the list:

- total income;
- total expenses;
- the balance;
- today's spending;
- a per-category breakdown for the pie chart;
- the ten most recent entries for the "Recent Operations" list.

The model is split into five modules:

- `Ledger` (`ledger.dfy`): the `Transaction` record and the `Expense`/`Income`
  kind. It also holds the fixed six-row category table and the two list
  combinators everything is built from: `Filter` (`Array.prototype.filter`)
  and `Sum` (the `reduce` that adds up `amount`).
- `Derivations` (`derivations.dfy`): the pure figures. These are
  `TotalIncome`, `TotalExpenses`, `Balance`, `TodayExpenses`,
  `ExpensesByCategory` (map over the table, then keep `value > 0`) and
  `Recent` (`slice(0, 10)`). Each comes with lemmas about what it means.
- `Sample` (`sample.dfy`): the four transactions the component loads on mount,
  and the figures derived from them.
- `Tracker` (`tracker.dfy`): the component's mutable state as a class,
  `ExpenseTracker`. Its fields are `transactions`, `showAddForm`, `draft` and
  `balanceVisible`. Its methods are:
  - the add handler, with its validation gate;
  - the delete handler, which filters by id;
  - the form and balance toggles;
  - Cancel;
  - the four draft field edits.

  The specification functions of the handlers and the lemmas about them sit
  next to the class.
- `Scenarios` (`scenarios.dfy`): sequences of handler calls, and the figures
  they produce.

Clock and parsing inputs are parameters:

- `today` replaces `new Date().toISOString().split('T')[0]`;
- the new `id` replaces `Date.now().toString()`;
- `parse: string -> real` stands for `parseFloat`.

Amounts are exact `real`s.

Some behaviour of the code differs from what a reader might expect. The model
follows the code:

- The submit gate only checks that the amount text and the description text
  are non-empty (`ExpenseTracker.tsx:110`). One might expect it to reject an
  amount that is not a number; it does not. `Scenarios.GateAdmitsAnyAmountText`
  shows that `"abc"` and `"-200"` both get through.
- Cancel only hides the form (`ExpenseTracker.tsx:342`). The typed fields are
  not cleared, so `CancelAddForm` leaves the draft as it was.
- Delete removes every entry carrying the id (`ExpenseTracker.tsx:127`), not
  just one matching record.
- Nothing keeps amounts non-negative or ids unique. The breakdown-sum lemma
  therefore assumes non-negative expense amounts, and the add-then-delete
  lemmas assume a fresh id. `NegativeExpenseLeftOutOfChart` shows that the
  first assumption cannot be dropped.
- Categories, on the other hand, come from a selector that offers only the six
  table names (`ExpenseTracker.tsx:311-319`). The draft starts and is reset to
  "Food". The class invariant `ExpenseTracker.Valid` records this: every
  expense in the list is filed under a table category.
  `Tracker.ChartAccountsForSpending` uses it to discharge the category premise
  of the breakdown-sum lemma on a running dashboard.

## Model

| member | source | states |
|---|---|---|
| Ledger.CategoryNamesDistinct | project/src/components/ExpenseTracker.tsx:14-21 | the six category names in the table are pairwise different |
| Derivations.OfKindSelects | project/src/components/ExpenseTracker.tsx:83-89 | the `type` filter keeps every transaction of the given type, as often as it occurs, and no other transaction |
| Derivations.ExpensesInSelects | project/src/components/ExpenseTracker.tsx:94-96 | the per-category filter keeps exactly the expenses filed under that category name, with their multiplicity |
| Derivations.ExpensesOnSelects | project/src/components/ExpenseTracker.tsx:105-107 | the today filter keeps exactly the expenses dated on the supplied day, with their multiplicity |
| Derivations.TotalOfPrepend | project/src/components/ExpenseTracker.tsx:83-89 | putting a transaction in front raises the total of its own type by its amount and leaves the other total unchanged |
| Derivations.BalanceIsNetFlow | project/src/components/ExpenseTracker.tsx:83-91 | the balance (income total minus expense total) equals the signed sum of all entries: each income counted up, each expense counted down |
| Derivations.TotalsPartition | project/src/components/ExpenseTracker.tsx:83-89 | income total plus expense total is the sum of all amounts, so each entry lands in exactly one total |
| Derivations.TodayWithinTotal | project/src/components/ExpenseTracker.tsx:105-107 | with non-negative expense amounts, today's spending lies between 0 and the expense total |
| Derivations.BreakdownEntries | project/src/components/ExpenseTracker.tsx:93-103 | an entry is in the breakdown if and only if it is some table category's entry and its value is positive |
| Derivations.BreakdownOrdered | project/src/components/ExpenseTracker.tsx:93-103 | for a table with distinct names, the breakdown lists categories in strictly increasing table position |
| Derivations.ExpensesByCategoryShape | project/src/components/ExpenseTracker.tsx:93-103 | the chart data holds exactly the categories with positive expense sums, each carrying its sum, colour and icon, in the fixed table order |
| Derivations.ShownTotal | project/src/components/ExpenseTracker.tsx:103 | when no value is negative, dropping the entries that are not positive leaves the sum of values unchanged |
| Derivations.CategorySumsCoverExpenses | project/src/components/ExpenseTracker.tsx:87-96 | when every expense is filed under a category of a table with distinct names, the per-category sums add up to the expense total |
| Derivations.BreakdownSumsToTotal | project/src/components/ExpenseTracker.tsx:87-103 | when every expense amount is non-negative and every expense category is one of the six, the chart values add up to the expense total |
| Derivations.Recent | project/src/components/ExpenseTracker.tsx:352 | the recent list is a prefix of the list, with min(10, length) entries |
| Derivations.RecentAfterPrepend | project/src/components/ExpenseTracker.tsx:352 | after a prepend, the new transaction is shown first, followed by the previously shown entries minus the last when the list was full |
| Sample.SampleTotals | project/src/components/ExpenseTracker.tsx:46-91 | on the sample data, expenses are 4550, income is 75000 and the balance is 70450 |
| Sample.SampleSlices | project/src/components/ExpenseTracker.tsx:46-102 | on the sample data, `categories.map` gives Food 850, Travel 2500 and Shopping 1200 with their colours and icons, and 0 for Bills, Entertainment and Other |
| Sample.SampleBreakdown | project/src/components/ExpenseTracker.tsx:46-103 | on the sample data, the chart is Food 850, Travel 2500, Shopping 1200; Bills, Entertainment and Other are left out |
| Tracker.DeleteSelects | project/src/components/ExpenseTracker.tsx:126-128 | the delete filter removes every entry with the id and keeps each other entry as often as it occurs |
| Tracker.DeleteAbsentId | project/src/components/ExpenseTracker.tsx:126-128 | deleting an id that no entry carries leaves the list unchanged, and with it (as corollaries) both totals and today's spending |
| Tracker.DeleteKeepsOrder | project/src/components/ExpenseTracker.tsx:127 | deleting from a concatenation deletes from each part, so the remaining entries keep their relative order |
| Tracker.DeleteIdempotent | project/src/components/ExpenseTracker.tsx:127 | deleting the same id a second time changes nothing |
| Tracker.AddThenDelete | project/src/components/ExpenseTracker.tsx:121-128 | prepending a transaction with a fresh id and then deleting that id restores the list and both totals |
| Derivations.ExpensesListedFilter | project/src/components/ExpenseTracker.tsx:127 | a filter such as the delete handler's keeps every expense filed under a table category |
| Derivations.ExpensesListedCons | project/src/components/ExpenseTracker.tsx:121 | prepending a transaction filed under a table category keeps every expense filed under one |
| Tracker.ChartAccountsForSpending | project/src/components/ExpenseTracker.tsx:87-103 | on any dashboard state that keeps the invariant, the chart values add up to the expense total when no expense amount is negative |
| Tracker.ExpenseTracker.constructor | project/src/components/ExpenseTracker.tsx:33-41 | initial state: empty list, form hidden, draft `{amount:'', category:'Food', description:'', type:'expense'}`, balance visible; the invariant holds |
| Tracker.ExpenseTracker.LoadSampleData | project/src/components/ExpenseTracker.tsx:45-81 | the mount effect replaces the list with the sample data |
| Tracker.ExpenseTracker.AddTransaction | project/src/components/ExpenseTracker.tsx:109-124 | an empty amount or description text changes nothing; otherwise the new transaction is put in front of the old list, the draft is reset and the form hidden; the balance flag is untouched either way, and every listed expense stays filed under a table category |
| Tracker.ExpenseTracker.DeleteTransaction | project/src/components/ExpenseTracker.tsx:126-128 | the new list is the old list without any entry carrying the id, and every listed expense stays filed under a table category |
| Tracker.ExpenseTracker.ToggleBalanceVisible | project/src/components/ExpenseTracker.tsx:170 | flips the balance visibility flag and nothing else |
| Tracker.ExpenseTracker.ToggleAddForm | project/src/components/ExpenseTracker.tsx:274 | flips the form visibility flag and nothing else |
| Tracker.ExpenseTracker.CancelAddForm | project/src/components/ExpenseTracker.tsx:342 | hides the form and leaves the draft and the list as they were |
| Tracker.ExpenseTracker.SetDraftKind | project/src/components/ExpenseTracker.tsx:290 | sets the draft's type and leaves its other fields alone |
| Tracker.ExpenseTracker.SetDraftAmount | project/src/components/ExpenseTracker.tsx:303 | sets the draft's amount text and leaves its other fields alone |
| Tracker.ExpenseTracker.SetDraftCategory | project/src/components/ExpenseTracker.tsx:311-319 | takes one of the six names the selector offers, sets the draft's category to it and leaves its other fields alone |
| Tracker.ExpenseTracker.SetDraftDescription | project/src/components/ExpenseTracker.tsx:327 | sets the draft's description and leaves its other fields alone |
| Scenarios.AddUpdatesTotals | project/src/components/ExpenseTracker.tsx:109-124 | a successful add makes the list one longer with the old list as its tail, adds the amount to the total of its type and leaves the other total unchanged |
| Scenarios.AddThenDeleteRestores | project/src/components/ExpenseTracker.tsx:109-128 | adding under a fresh id and then deleting that id gives back the original list and balance, with the draft reset and the form closed |
| Scenarios.SampleRowsDeleted | project/src/components/ExpenseTracker.tsx:46-79 | deleting the ids "1" to "4" in turn from the sample data leaves an empty list |
| Scenarios.DeleteSampleRows | project/src/components/ExpenseTracker.tsx:126-128 | on a mounted dashboard holding the sample data, four delete clicks empty the list and keep the invariant |
| Scenarios.TravelExpenseScenario | project/src/components/ExpenseTracker.tsx:45-128 | on the mounted dashboard with its four sample rows deleted, adding a 300 travel expense for today gives today's spending 300, a chart with only Travel 300, and that one entry in the recent list |
| Scenarios.SampleDaySpending | project/src/components/ExpenseTracker.tsx:46-79 | an expense added on 2025-01-15, the date of the sample dinner, is counted with the 850 dinner and nothing else in today's spending |
| Scenarios.SampleDayScenario | project/src/components/ExpenseTracker.tsx:45-124 | on the mounted dashboard, adding a 300 travel expense on 2025-01-15 gives today's spending 1150, an expense total of 4850, a balance of 70150 and five entries |
| Scenarios.SingleExpenseChart | project/src/components/ExpenseTracker.tsx:93-107 | a list of one expense has that amount as its expense total and as the day's spending; a travel expense is charted only when its amount is positive |
| Scenarios.GateAdmitsAnyAmountText | project/src/components/ExpenseTracker.tsx:110 | the gate admits the amount texts "abc" and "-200" and rejects an empty amount or an empty description |
| Scenarios.NegativeExpenseLeftOutOfChart | project/src/components/ExpenseTracker.tsx:93-103 | a single expense of -200 gives an expense total of -200 but an empty chart, so the chart sum can differ from the expense total |

## Left out

- Rendering is not modelled: the JSX, the Tailwind classes, the recharts `PieChart`/`Tooltip` and the lucide icons (`ExpenseTracker.tsx:138-421`). They are presentation and foreign libraries.
- `formatCurrency` (`ExpenseTracker.tsx:130-136`) is not modelled. It wraps `Intl.NumberFormat`, whose locale and rounding rules are outside the component.
- Clock reads are parameters: `new Date().toISOString()` becomes `today` and `Date.now()` becomes the `id` argument of `AddTransaction`. Nothing relates the two or makes the id unique.
- `parseFloat` is an opaque parameter `parse: string -> real`. NaN and IEEE double rounding are not modelled. All sums are exact, so the order in which `reduce` adds does not matter in the model.
- The mount effect's timing (`useEffect`, `ExpenseTracker.tsx:45-81`) is not modelled. `LoadSampleData` models only what the effect does.
- `heistMembers` (`ExpenseTracker.tsx:23-30`) is static display text and is not modelled.
- `editingId` (`ExpenseTracker.tsx:42`) is declared but never read or changed, so there is no behaviour to model.
- The `categories.find` icon lookup for list rows (`ExpenseTracker.tsx:353`) is display only and is not modelled.
- Re-rendering is not modelled. The derived figures are functions of `transactions` that callers apply to the current list.
