# Loan allocator: the allocation engine in Dafny

This project models the allocation engine of the FinanceApp loan allocator,
`LoanAllocatorGUI.allocate` in `loan_allocator_gui.py`, and proves properties of it.
The engine takes two tables that are already in memory:

- **Submission** holds instalments owed. Its columns are ID NUMBER, EMPLOYEE NUMBER,
  INSTALMENT AMOUNT and, optionally, PAID.
- **Collected** holds payments received. Its columns are ID NUMBER, EMPLOYEE NUMBER
  and PAID.

The engine works in six steps:

1. It checks both schemas. The Submission table is checked first.
2. It normalises PAID. A missing column becomes 0 and a null cell becomes 0.
3. It sets DIFF to the instalment minus PAID.
4. It sums the Collected table into two pools: one keyed by ID NUMBER and one keyed by
   EMPLOYEE NUMBER.
5. It walks the Submission rows in table order. Each row first pulls what it still needs
   from its ID pool. Only if it is still short does it pull from its employee pool. PAID
   is then clamped to the instalment and DIFF is rewritten.
6. It returns a summary: the number of Submission rows and the total of the final PAID
   values.

Modules:

- `Tables` (`tables.dfy`): the two input tables, the written-back `Row`, matching keys,
  the column names and the schema error.
- `Pools` (`pools.dfy`): the key-to-amount pools. `BuildPool` is the grouped sum. `SumFor`
  is an independent reference sum, and the two are proved equal.
- `Allocator` (`allocator.dfy`): the engine itself. It has two forms, and they are proved
  to agree:
  - a functional form: `CheckSchema`, `Prepare`, `InitialState`, `AllocateRow`, `Steps`
    (with its lemma `StepsKeepRows`) and `Allocate`;
  - an imperative form: `AllocateRowInPlace` and `WalkRows` follow the source's loop over
    the Submission rows with in-place pool updates, `SumPools` is an imperative
    equivalent of the grouped sum that builds the pools, and `AllocateInPlace` puts the
    three together behind the schema checks.
- `AllocationProperties` (`properties.dfy`): facts about a whole run. These cover pool
  bookkeeping, the pools staying in range, and how much each key's pool can give out.
- `Scenarios` (`scenarios.dfy`): concrete allocations whose outcomes are proved.

Money is counted as unbounded integers (think cents). A matching key is either a text
cell or a numeric cell (`Key`).

### Behaviour of the code worth knowing

The model reproduces each of these as the code has it.

- **Pull allocation.** Each Submission row pulls from two pools summed up front. The
  code keeps no leftover total, runs no check that money is conserved and raises no
  consistency error.
- **Double counting.** Every collected payment feeds both pools. The same money can
  therefore be paid out once through the ID pool and again through the employee pool.
  `Scenarios.SamePaymentDrawnTwice` proves that one payment of 60 fills an instalment of
  100, so the total paid can exceed the total collected. No bound of total paid by total
  collected is claimed here; the bound is per key and per pool
  (`AllocationProperties.DrawnWithinCollected`).
- **`records`.** The code sets `records` to the number of Submission rows, not the number
  of Collected rows.
- **Over-paid rows.** A row whose starting PAID already exceeds its instalment is cut back
  to the instalment. If that row's ID pool is positive, the row's "draw" is negative and
  the excess is credited to that pool, where later rows with the same ID can draw it.
  The postcondition of `Allocator.AllocateRow` states this.

## Model

| member | source | states |
|---|---|---|
| `Allocator.CheckSchema` | loan_allocator_gui.py:150-156 | No error exactly when both tables carry their required columns. A Submission table lacking columns is reported first, naming exactly the missing ones. Otherwise a deficient Collected table is reported the same way. A reported set is never empty. |
| `Allocator.Prepare` | loan_allocator_gui.py:158-163 | One row per Submission row, keeping ID, employee and instalment. With no PAID column every PAID is 0. With a PAID column a null cell becomes 0 and a present value is kept. DIFF starts as instalment minus PAID. |
| `Pools.PoolIsGroupedSum` | loan_allocator_gui.py:165-166 | Every entry of the pool built from the Collected table equals the total PAID of the collected rows carrying that key. An absent key reads as 0, as `get(key, 0.0)` does. |
| `Pools.PoolKeysAreCollectedKeys` | loan_allocator_gui.py:165-166 | A key is in the pool if and only if some collected row carries it in the grouping column. |
| `Pools.PoolNonNegative` | loan_allocator_gui.py:165-166 | If no collected payment is negative, no pool entry is negative. |
| `Allocator.InitialState` | loan_allocator_gui.py:165-166 | Both the ID pool and the employee pool are built from every collected row. Each equals the per-key grouped sum for its column. |
| `Allocator.AllocateRow` | loan_allocator_gui.py:171-193 | One row keeps its keys and instalment. Final PAID is at most the instalment, and DIFF equals instalment minus PAID, so DIFF is non-negative. Each pool loses exactly the row's draw under the row's key and nothing else, and keeps its key set. A pool with nothing available is not drawn from. From a start at or below the instalment, each draw lies between 0 and what was available, and PAID grows by exactly the two draws. The ID pool is drawn first: the ID draw either fills the row or empties the ID pool. The row then ends fully paid, or with both its pools at zero or below, so each draw is the smaller of what is still needed and what the pool holds. The employee pool changes if and only if the row is still short after the ID pass and its employee pool is positive. A row filled by its ID pool leaves the employee pool unchanged. An over-paid row ends at its instalment, and its excess goes to a positive ID pool. |
| `Allocator.StepsKeepRows` | loan_allocator_gui.py:170-193 | The walk yields one step per Submission row, in order, each allocated against the pools the earlier rows left. Every written-back row keeps its keys and instalment, has PAID at most the instalment and DIFF equal to instalment minus PAID. A row that starts at or below its instalment never ends with less PAID. |
| `Allocator.Allocate` | loan_allocator_gui.py:149-196 | An error is returned exactly when a required column is missing, Submission before Collected, naming the missing columns, and no rows come back with it. On success there is one written-back row per Submission row, each with the same keys and instalment, PAID capped at the instalment, and DIFF equal to instalment minus PAID. The summary counts the Submission rows and totals the final PAID values. |
| `Allocator.SumPools` | loan_allocator_gui.py:165-166 | Summing the Collected table row by row with in-place map updates gives the pools of `InitialState`. Each entry is the grouped sum for its key. |
| `Allocator.AllocateRowInPlace` | loan_allocator_gui.py:171-193 | The statement-by-statement loop body gives the same written-back row and the same pools as `AllocateRow`. |
| `Allocator.WalkRows` | loan_allocator_gui.py:168-194 | The loop over the Submission rows gives the rows and final pools of `Steps`. Its running total equals the sum of the written-back PAID values. |
| `Allocator.AllocateInPlace` | loan_allocator_gui.py:149-196 | The imperative engine returns exactly what `Allocate` describes. Its summary's `records` equals the number of Submission rows, and `total_paid` equals the sum of the final PAID values. |
| `AllocationProperties.PoolAccounting` | loan_allocator_gui.py:177-190 | After any walk, what a pool held under a key at the start, minus what it holds at the end, equals the total the rows drew from it under that key. |
| `AllocationProperties.PoolsStayInRange` | loan_allocator_gui.py:177-190 | When every row starts at or below its instalment, a pool entry that was zero or negative is never changed. A positive entry only shrinks, and never below zero. |
| `AllocationProperties.DrawnWithinCollected` | loan_allocator_gui.py:165-190 | When every row starts at or below its instalment, the total drawn from either pool under a key is non-negative. It is zero when the collected payments under that key sum to zero or less, and otherwise at most that sum. |
| `AllocationProperties.DrawnAtMostCollected` | loan_allocator_gui.py:165-190 | If in addition no payment is negative, the total drawn under each key is between zero and the collected total for that key. |
| `AllocationProperties.ShortRowLeavesPoolsEmpty` | loan_allocator_gui.py:170-190 | When every row starts at or below its instalment, a row the walk leaves short of its instalment has nothing left to take: at the end of the run both its ID pool and its employee pool hold zero or less. |
| `AllocationProperties.PaidIsStartPlusDraws` | loan_allocator_gui.py:177-191 | When every row starts at or below its instalment, each row's final PAID is its starting PAID plus its two non-negative draws, so the clamp changes nothing. |
| `Scenarios.SamePaymentDrawnTwice` | loan_allocator_gui.py:165-190 | One payment of 60, under the same ID and employee as an instalment of 100, ends with PAID 100, DIFF 0 and a total paid of 100. That is more than was collected. |
| `Scenarios.PaymentCappedAtInstalment` | loan_allocator_gui.py:177-193 | A payment of 150 against an instalment of 100 pays exactly 100. |
| `Scenarios.EmployeeFallbackInTableOrder` | loan_allocator_gui.py:170-190 | With no ID match, an employee pool of 30 goes to the first of two same-employee rows. The second row stays unpaid. |
| `Scenarios.PaymentsSummedPerKey` | loan_allocator_gui.py:158-196 | Two payments of 20 under one ID pay 30 of a 30 instalment whose PAID cell was null. The summary is one record and 30 paid. |
| `Scenarios.MissingInstalmentRefused` | loan_allocator_gui.py:150-154 | A Submission table without INSTALMENT AMOUNT is refused, naming exactly that column. |

## Left out

- The Tkinter window, its widgets, drag-and-drop, the progress bar, message boxes and file
  dialogs. These are presentation only.
- Reading and writing Excel files through pandas, and opening the output folder. These
  are I/O and calls into the operating system.
- The `output_path` field of `AllocationResult`. `allocate` always leaves it empty, and
  only the window sets it.
- IEEE-754 floating point and the `float()` conversions. Money is an unbounded integer,
  so there is no rounding.
- pandas details: groupby dropping rows whose key is null, a sum skipping null collected
  payments, dtype coercion (for example 1 and 1.0 being the same key), and index labels
  other than row order. A collected PAID is always a number here.
- Non-numeric or missing INSTALMENT AMOUNT cells, which pandas would reject or propagate
  as NaN. Here an instalment is always an integer.
- The text of the error message. `', '.join(missing)` lists the set in an unspecified
  order, so the model carries the set of missing column names instead of a string.
- The in-place update of the caller's Submission table and its other columns. The model
  returns new rows with the five modelled columns. Since the schema check runs before
  any update, an error result carries no rows.
- Determinism needs no lemma, because every member here is a function of its inputs.
