# Budget prorata — a verified model of the income-proportional split

`budget-prorata/app.py` is a single-page budget tool for shared expenses.
It keeps a list of participants (`nom`, `salaire`) and a ledger of expenses
(`Date`, `Description`, `Montant`). Each participant's share of every
expense is their income over the total income. The page shows one column
per participant (`Montant * share` on every row) and a total per
participant name (`sum(Montant) * share`, accumulated per name).

The model has five modules:

- `Store` holds `Option`. A stored file is `Some(contents)`, and a missing file is `None`.
- `Participants` holds the participant record, the default list and the total income (`SumIncome`).
- `Ledger` holds the expense row and the pure ledger operations:
  - the loader;
  - the quick-add gate, which returns the ledger to write or `None`;
  - the editor's write-if-different rule.
- `Allocation` holds the arithmetic of the split and the allocation loop `Allocate`:
  - shares;
  - per-name totals (`Owed`);
  - per-row columns.
- `Session` holds the class `BudgetSession`. Its fields are the participant
  list kept in session state, the configuration file and the history file.
  Its methods are the page's state-changing steps: add, remove, edit pass,
  quick-add, clearing the history, and the bottom of the page (`Bilan`).
  Widget values enter these methods as parameters.

Arithmetic is on `real`, so the conservation laws hold exactly. Incomes may
be negative, because the income input has no lower bound. The only guard on
the allocation is a positive total income, so nothing assumes that a share
lies between 0 and 1.

Participants who bear the same name share one entry of the totals map,
because the map is keyed by name. Conservation is therefore stated over the
distinct names, in order of first occurrence (`DistinctNames`). The model
reproduces the merge and does not assume unique names.

Three behaviours of the code shape the model:

- Incomes are not restricted to non-negative values (line 67 gives no `min_value`).
- The edit pass saves the list only when a record changed (lines 75-76), not after every pass.
- A configuration or history file that exists but cannot be parsed is not handled by the code. The model has no such state.

## Model

| member | source | states |
|---|---|---|
| Participants.LoadConfig | budget-prorata/app.py:30-38 | Without a configuration file the list is exactly `[("Personne A", 2000.0), ("Personne B", 3000.0)]`. With a file, it is the stored list. |
| Participants.SumIncomeAppend | budget-prorata/app.py:51-53 | Appending a participant raises the total income by exactly that participant's income. |
| Participants.SumIncomePrefix | budget-prorata/app.py:64-73 | Each turn of the edit loop adds the current record's income to the running total of the prefix. |
| Participants.PrefixDiffers | budget-prorata/app.py:70-73 | Two lists differ on a prefix of length i+1 iff they differ on the first i records or at record i. This is the step behind the changed flag. |
| Participants.NameInNameSet | budget-prorata/app.py:135 | Every participant's name is a key of the totals map. |
| Participants.NameNotInNameSet | budget-prorata/app.py:135 | A name that no participant bears is not a key. |
| Ledger.LoadData | budget-prorata/app.py:17-21 | Without a history file the ledger is empty. Otherwise it is the stored rows. |
| Ledger.QuickAdd | budget-prorata/app.py:91-96 | A row is written iff `amount > 0` and the description is non-empty. The written ledger is the old rows in order, followed by exactly `(now, desc, amount)`. |
| Ledger.QuickAddSpend | budget-prorata/app.py:91-96 | An accepted quick-add raises the total spend by exactly the amount entered. |
| Ledger.EditorWrite | budget-prorata/app.py:124-125 | The editor writes iff the edited table differs from the loaded one, and what it writes is the edited table. |
| Ledger.EditorRoundTrip | budget-prorata/app.py:107-125 | After the editor's write, if any, loading the history gives back exactly the edited table. |
| Allocation.DistinctNames | budget-prorata/app.py:135 | The names of the participants, each exactly once. Every one of them is a participant's name. |
| Allocation.DistinctNamesCover | budget-prorata/app.py:135 | Every participant's name occurs among the distinct names. |
| Allocation.SharesSumToOne | budget-prorata/app.py:139 | With total income above 0, the shares `salaire / total` of all participants sum to exactly 1. |
| Allocation.SumSharesScaled | budget-prorata/app.py:139 | The sum of the shares times the total equals the sum of the incomes. |
| Allocation.OwedByName | budget-prorata/app.py:138-142 | The total accumulated for a name is `sum(Montant)` times the sum of the shares of the participants bearing that name. |
| Allocation.OwedAllScaled | budget-prorata/app.py:138-142 | Summed over all participants, the accumulated parts equal the spend times the sum of the shares. |
| Allocation.OwedStep | budget-prorata/app.py:138-142 | Visiting participant i adds their part to their own name's total and leaves every other name's total unchanged. |
| Allocation.OwedAbsent | budget-prorata/app.py:135-142 | A name that no participant bears accumulates nothing. |
| Allocation.SumOwedAppend | budget-prorata/app.py:138-142 | Over distinct names, one more participant adds their part once if their name is listed, and nothing otherwise. |
| Allocation.OwedPartition | budget-prorata/app.py:135-142 | Summing the per-name totals over the distinct names counts every participant exactly once. Merged duplicates are neither lost nor counted twice. |
| Allocation.SumByNameOwed | budget-prorata/app.py:135-142 | When every entry of the totals map holds what the loop accumulates for its name, the entries summed over a list of names equal the accumulated amounts summed over the same names. This is the step from the map to the conservation sum. |
| Allocation.AllocationConservesSpend | budget-prorata/app.py:135-142 | The per-name totals, summed over the distinct names, equal the total spend exactly. |
| Allocation.ColumnAt | budget-prorata/app.py:146 | Row k of a participant's column is that row's Montant times the participant's share. |
| Allocation.ColumnSum | budget-prorata/app.py:141-146 | A participant's column, summed over the rows, is the total spend times their share. |
| Allocation.UniqueNameOwed | budget-prorata/app.py:142 | For a participant whose name no one else bears, the total is exactly `spend * share`. |
| Allocation.UniqueColumnSum | budget-prorata/app.py:142-146 | A uniquely named participant's column, summed over the rows, equals the total shown on their card. |
| Allocation.DefaultSplit | budget-prorata/app.py:35-38 | The default pair (incomes 2000 and 3000) has total income 5000, which passes the gate at line 109. A spend of 100 splits into 40 and 60 through that total. |
| Allocation.CardAmount | budget-prorata/app.py:161-162 | Card j shows the total of participant j's name: the spend times the summed shares of everyone bearing that name. |
| Allocation.DuplicateNameCards | budget-prorata/app.py:135-142 | Two participants both called "Nouveau" with income 1500 merge into one total. With a spend of 100 that total is 100, so each card shows 100 and the cards add up to 200. |
| Allocation.AccumulateStep | budget-prorata/app.py:142 | One `+=` into the totals map keeps every entry equal to what is owed over the participants visited so far. |
| Allocation.Allocate | budget-prorata/app.py:134-146 | The allocation loop. It ends with totals keyed by exactly the participants' names, each equal to that name's accumulated `sum(Montant) * share`. It has one column per participant, equal to `Montant * share` row by row. When the total is the sum of the incomes, the totals over distinct names add up to the spend. |
| Session.BudgetSession.constructor | budget-prorata/app.py:47-48 | The first pass loads the list from the configuration file, or the default pair when there is none. |
| Session.BudgetSession.AddParticipant | budget-prorata/app.py:51-53 | Appends exactly `("Nouveau", 1500.0)` at the end, keeps the earlier entries and saves the new list. The total income grows by 1500. |
| Session.BudgetSession.RemoveLastParticipant | budget-prorata/app.py:56-58 | A non-empty list loses exactly its last entry and is saved. An empty list and the file are left alone. |
| Session.BudgetSession.EditPass | budget-prorata/app.py:61-76 | Afterwards record i is `(newNames[i], newIncomes[i])`. The flag is set iff the list changed, and the list is saved only then. The running total equals the total income of the edited list. |
| Session.BudgetSession.QuickAddExpense | budget-prorata/app.py:90-97 | With a positive amount and a description, the history file holds the loaded rows followed by `(now, desc, amount)`. Otherwise it is unchanged. |
| Session.BudgetSession.ClearHistory | budget-prorata/app.py:26-28 | The history file is removed, and loading it afterwards gives an empty ledger. |
| Session.BudgetSession.Bilan | budget-prorata/app.py:107-167 | An empty ledger or a total income of 0 or less shows the empty state and writes nothing. An edited table that differs is saved and the page restarts. An unchanged table is split: the totals per name and the columns of `Allocate`, with the totals over distinct names equal to the spend. |

## Left out

- Streamlit presentation is left out: widgets, columns, expanders, metrics, success messages and the half-second pause. Widget values are method parameters.
- `st.rerun` after the add and remove buttons is left out: the model's next step is simply the next call. After the editor saves, the restart is the `Rerun` outcome of `Bilan`.
- File I/O is left out: CSV and JSON parsing and writing, `os.path.exists` and `os.remove`. A file is an `Option` value. Parse errors on a corrupt file are not handled by the code and have no counterpart here.
- pandas semantics are left out: dtype coercion on read, NaN cells, and `DataFrame.equals` beyond field-by-field equality of rows. The ledger is a sequence of records compared with `==`.
- The timestamp `datetime.now().strftime(...)` is an opaque `now` string parameter.
- Display formatting is left out: rounding to 0 or 2 decimals, the percent label in the column name, and the reversed row order of the table.
- The column-name collision between two participants with the same name and percentage is left out. In the source the second column overwrites the first. The model keeps one column per participant, in list order.
- Floating-point rounding is left out. All arithmetic is on `real`, so "the shares sum to 1" and conservation hold for the mathematical model, not for IEEE doubles.
- Session.BudgetSession.EditPass works on a copy of the list and stores it back at the end. The in-place update of the shared dictionaries and its aliasing are not modelled; the final state is the same.
- Session.BudgetSession.ClearHistory models `clear_data`. The page defines this function but never calls it.
- The loop over cards at lines 160-164 is not a method of its own. What each card shows is stated by `Allocation.CardAmount` about the totals `Allocate` returns.
