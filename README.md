# Smart Spending AI — budget core in Dafny

The app is a single-page budget planner. The user enters:

- a monthly income;
- outflows, each either a regular **bill** or a **loan** whose installment (EMI) is computed from principal, annual rate and tenure;
- savings **goals**;
- **assets**;
- a **wishlist** of purchases, each paid in cash or financed over some months.

From these lists the top-level component recomputes, on every render, the fixed outflow, the loan installments, the liabilities, the free cash, the net worth and the monthly impact of the wishlist. A dashboard draws those numbers as a money map with a debt-to-income ratio. A simulator shows how free cash moves when income or expenses are scaled by a percentage.

This project models that core:

- `Folds` (`folds.dfy`): the `reduce`/`filter` folds the components apply to record arrays. They are a left-fold `Sum`, an order-preserving `Filter`, and the delete-by-id filter `RemoveId`, with their algebra (append, partition, bounds, positivity).
- `Records` (`records.dfy`): the four record types. Numbers are already parsed, with an empty input read as 0.
- `Helpers` (`helpers.dfy`):
  - `calculateEMI` and `calculateFutureValue`, over exact reals. The exponent is a whole number, and `toFixed(0)` is modelled as rounding half away from zero.
  - An independent reference for each: the month-by-month loan balance (`Balance`), which the installment clears in exactly `n` months, and yearly compounding, which the future value follows.
- `App` (`app.dfy`): the derived totals (`Derive`) and how each card operation moves them.
- `Expenses`, `Wishlist`, `Assets`, `Goals`:
  - One class per input card. Each holds the list it edits and its form buffer.
  - Each has an `Add` that appends one record and resets the form, or does nothing, and a `Delete` that keeps every record with a different id.
  - The expense card also has the effect that fills in a loan's amount from its terms.
- `Dashboard` (`dashboard.dfy`): the allocation slices, the debt ratio, the visibility and colour rules, and the tab that jumps to the advice panel when advice arrives.
- `Simulator` (`simulator.dfy`): the simulated values, the net change, the clamped bar widths, and a class holding the two slider positions with their domains and reset.

The record id (`Date.now()` in the app) is a parameter of every `Add`. The lists belong to the top-level component and are passed to each card with a setter. Here each card class holds the list it replaces. The top-level component's totals are functions of those lists.

Some behaviours of the code worth knowing:

- A delete removes every record carrying the id.
- The debt ratio is `emi / income * 100`, with `|| 0` turning 0/0 into 0.
- A cash wishlist item stores its whole cost as `calculatedMonthly`.

## Model

| member | source | states |
|---|---|---|
| Folds.Sum | src/App.js:45 | a sum of non-negative terms is non-negative |
| Folds.Filter | src/App.js:46 | the result holds exactly the elements that pass, is no longer than the input, is the input when all pass and empty when none do |
| Folds.FilterCount | src/App.js:46 | each passing element is kept with its full multiplicity and every other element is dropped |
| Folds.RemoveId | src/components/ExpenseCard.js:79 | the result holds exactly the records whose id differs from the deleted one, and is the whole list when none carries it |
| Folds.WithId | src/components/ExpenseCard.js:79 | the records a delete takes away are exactly those carrying the id |
| Folds.SumAppend | src/App.js:45 | a sum over a concatenation is the sum of the two sums |
| Folds.FilterSnoc | src/App.js:46 | filtering a list with one more element adds that element at the end exactly when it passes |
| Folds.FilterAppendStep | src/App.js:46 | one more element at the end of the right operand keeps filtering commutative with concatenation |
| Folds.FilterAppend | src/App.js:46 | filtering commutes with concatenation, so survivors keep their relative order |
| Folds.FilterExtensional | src/App.js:46 | predicates that agree everywhere filter alike |
| Folds.SumPartition | src/App.js:45-47 | a sum splits into the sum over the kept elements plus the sum over the rest |
| Folds.SumFilterBounds | src/App.js:46-47 | with non-negative terms a filtered sum lies between 0 and the full sum |
| Folds.SumPositiveIff | src/App.js:47 | with non-negative terms the sum is positive exactly when some term is |
| Folds.SumRemoveId | src/components/ExpenseCard.js:79 | after a delete a total drops by exactly the deleted records' share |
| Folds.RemoveIdAppend | src/components/WishlistCard.js:69 | delete-by-id commutes with concatenation, so the kept records stay in order |
| Helpers.Pow | src/utils/helpers.js:22 | a positive base gives a positive power |
| Helpers.PowOfOne | src/utils/helpers.js:22 | every power of 1 is 1 |
| Helpers.PowAboveOne | src/utils/helpers.js:22 | a positive power of a base above 1 exceeds 1 |
| Helpers.PowStrictlyIncreasing | src/utils/helpers.js:28 | for a base above 1 a larger exponent gives a strictly larger power |
| Helpers.PowBaseMonotone | src/utils/helpers.js:22 | for a fixed exponent a larger positive base gives a power at least as large |
| Helpers.RoundHalfAwayFromZero | src/utils/helpers.js:23 | the result is the integer within one half of the input, halves going away from zero |
| Helpers.RoundUnique | src/utils/helpers.js:23 | any integer within those bounds is the rounded value |
| Helpers.RoundSymmetric | src/utils/helpers.js:29 | rounding commutes with negation |
| Helpers.Installment | src/utils/helpers.js:20-22 | the unrounded installment: `p / n` at rate 0, else `p·i·g / (g − 1)` with `i = r/1200` and `g = (1 + i)^n`; its meaning is stated by `InstallmentAmortizes` and `InstallmentTimesGeomSum` |
| Helpers.CalculateEmi | src/utils/helpers.js:18-24 | the EMI is a whole amount; it is 0 without principal or term; otherwise it is the unrounded installment rounded as `toFixed(0)` does: within one half, with an exact half going away from zero |
| Helpers.EmiNearInstallment | src/utils/helpers.js:22-23 | with principal and term the EMI is within one half of the installment, whatever its sign |
| Helpers.Balance | src/utils/helpers.js:21-22 | the month-by-month loan balance (interest accrued, then one payment) that the installment formula is built to clear; its closed form is `BalanceClosedForm` |
| Helpers.GeomSumClosedForm | src/utils/helpers.js:22 | `(x - 1)(1 + x + … + x^(k-1)) = x^k - 1` |
| Helpers.GeomSumOfOne | src/utils/helpers.js:20 | at ratio 1 the geometric sum of `k` terms is `k` |
| Helpers.GeomSumBelow | src/utils/helpers.js:22 | for a ratio above 1 the sum of `k` terms lies between 1 and `k * x^k` |
| Helpers.GeomSumAtLeastOne | src/utils/helpers.js:22 | with a non-negative ratio the sum is non-negative, and at least 1 once it has a term |
| Helpers.BalanceClosedForm | src/utils/helpers.js:21-22 | the balance after `k` months is the compounded principal less the compounded payments |
| Helpers.ZeroRateAmortizes | src/utils/helpers.js:20 | at a zero rate `n` payments of `p / n` leave a balance of exactly 0 |
| Helpers.RateAmortizes | src/utils/helpers.js:21-22 | at a non-zero rate `n` payments of the annuity amount leave a balance of exactly 0 |
| Helpers.InstallmentAmortizes | src/utils/helpers.js:20-22 | paying the unrounded installment every month leaves a balance of exactly 0 after `n` months, at any rate |
| Helpers.SingleMonthInstallment | src/utils/helpers.js:21-22 | for one month at a non-zero rate the installment is the principal plus one month's interest, `p(1 + r/1200)` |
| Helpers.EmiDefinedForNonnegativeRate | src/utils/helpers.js:21-22 | every non-negative rate gives a finite installment |
| Helpers.InterestMakesTotalExceedPrincipal | src/utils/helpers.js:21-22 | at a positive rate the installments over the term add up to more than the principal |
| Helpers.NoInterestTotalIsPrincipal | src/utils/helpers.js:20 | at rate 0 the installments over the term add up to exactly the principal |
| Helpers.EmiNonnegative | src/utils/helpers.js:18-24 | a non-negative principal at a non-negative rate gives a non-negative EMI |
| Helpers.InstallmentTimesGeomSum | src/utils/helpers.js:20-22 | the installment times `1 + x + … + x^(n−1)` is the principal compounded over the term, `p·x^n`, at every rate the formula accepts |
| Helpers.GeomOverPowDecreasing | src/utils/helpers.js:22 | for `0 < x1 < x2` the geometric sum over the power is smaller at `x2` |
| Helpers.InstallmentIncreasesWithRate | src/utils/helpers.js:20-22 | for a positive principal and a fixed term a higher non-negative rate gives a strictly higher installment |
| Helpers.EmiIncreasesWithRate | src/utils/helpers.js:18-24 | after rounding, a higher non-negative rate never gives a lower EMI |
| Helpers.Growth | src/utils/helpers.js:28 | the unrounded value `principal·(1 + rate/100)^years`; its meaning is stated by `GrowthIsYearlyCompounding` and `GrowthStrictlyIncreasing` |
| Helpers.CalculateFutureValue | src/utils/helpers.js:25-30 | the value is a whole amount; it is 0 without a principal; otherwise it is `principal(1 + rate/100)^years` rounded as `toFixed(0)` does, within one half with an exact half going away from zero; rate and years default to 12 and 10 |
| Helpers.GrowthIsYearlyCompounding | src/utils/helpers.js:28 | the unrounded value is the balance of a deposit compounding yearly with nothing withdrawn |
| Helpers.FutureValueOfZeroYears | src/utils/helpers.js:28-29 | over zero years the value is the principal rounded |
| Helpers.GrowthStrictlyIncreasing | src/utils/helpers.js:28 | with a positive principal and rate every extra year strictly raises the unrounded value |
| App.TotalFixed | src/App.js:45 | the sum of every expense's amount, bills and loans alike; non-negative amounts give a non-negative total (`Folds.Sum`) |
| App.LoanExpenses | src/App.js:46 | the expenses of type Loan, in order (`Folds.Filter`) |
| App.TotalLoanEmi | src/App.js:47 | the sum of the loans' amounts; bounded by `LoanEmiWithinOutflow` |
| App.TotalPrincipal | src/App.js:50-51 | the sum of the loans' principals, also the liabilities |
| App.TotalGoals | src/App.js:54 | the sum of the goals' monthly contributions |
| App.TotalAssets | src/App.js:61 | the sum of every asset's value |
| App.WishlistImpact | src/App.js:65 | the sum of `calculatedMonthly` over financed items, cash items counting 0 |
| App.Derive | src/App.js:45-66 | all derived values from the income and the four lists; its identities are `SnapshotIdentities` |
| App.EmptyBudgetIsZero | src/App.js:45-66 | with no income and empty lists every derived value is 0 |
| App.SnapshotIdentities | src/App.js:51-66 | the monthly surplus is income less fixed outflow; free cash is income less fixed outflow less goals; liabilities are the loan principals; net worth is assets less liabilities; post-purchase free cash also subtracts the wishlist impact |
| App.LoanEmiWithinOutflow | src/App.js:45-47 | with non-negative amounts `0 <= totalLoanEMI <= totalFixed` |
| App.OutflowSplitsIntoBillsAndLoans | src/App.js:45-47 | fixed outflow less loan installments is exactly the bills' amounts |
| App.AddExpenseEffect | src/App.js:45-50 | appending an expense raises the fixed outflow by its amount; only a loan raises the installment and principal totals, by its amount and principal |
| App.DeleteExpenseEffect | src/App.js:45 | a delete lowers the fixed outflow by exactly the deleted records' amounts |
| App.AddAssetEffect | src/App.js:61 | an asset of any type raises the asset total by its value |
| App.AddGoalEffect | src/App.js:54 | a goal raises the goal total by its monthly contribution |
| App.AddWishEffect | src/App.js:65 | a financed item raises the wishlist impact by its monthly charge; a cash item leaves it unchanged |
| App.CashOnlyWishlistKeepsFreeCash | src/App.js:65-66 | with no financed items the impact is 0 and post-purchase free cash equals free cash |
| Expenses.AutoEmi | src/components/ExpenseCard.js:12-17 | for a loan with principal, rate and tenure filled in, the amount becomes their EMI; nothing else changes, and a bill form is never touched |
| Expenses.AutoEmiIdempotent | src/components/ExpenseCard.js:12-17 | running the effect twice gives the same form as once |
| Expenses.AutoEmiWholeUnits | src/components/ExpenseCard.js:14-15 | after the effect a loan's amount is a whole currency unit |
| Expenses.ExpenseCard.constructor | src/components/ExpenseCard.js:6-9 | the type starts as Bill and the form empty |
| Expenses.ExpenseCard.SetName | src/components/ExpenseCard.js:41 | only the name changes |
| Expenses.ExpenseCard.SetAmount | src/components/ExpenseCard.js:64 | only the amount changes; the effect does not run |
| Expenses.ExpenseCard.SetPrincipal | src/components/ExpenseCard.js:48 | the principal changes and, when it differs from before, the effect runs on the new form |
| Expenses.ExpenseCard.SetRate | src/components/ExpenseCard.js:52 | the rate changes and, when it differs from before, the effect runs on the new form |
| Expenses.ExpenseCard.SetTenure | src/components/ExpenseCard.js:56 | the tenure changes and, when it differs from before, the effect runs on the new form |
| Expenses.ExpenseCard.SetType | src/components/ExpenseCard.js:33-34 | the type changes and, when it differs from before, the effect runs |
| Expenses.ExpenseCard.Add | src/components/ExpenseCard.js:19-23 | without a name or amount nothing changes; otherwise one record with the form, the type and the id is appended, the form is cleared and the type kept |
| Expenses.ExpenseCard.Delete | src/components/ExpenseCard.js:79 | the list becomes the records with a different id; the form and type are kept |
| Wishlist.NewItem | src/components/WishlistCard.js:12-15 | a cash item is charged its cost each month, a financed one the EMI of cost, interest and months; the other fields come from the form |
| Wishlist.DefaultTermsComputable | src/components/WishlistCard.js:6-8 | the default terms (12 months at 15%) give a finite, non-negative EMI for any non-negative cost |
| Wishlist.WishlistCard.constructor | src/components/WishlistCard.js:6-8 | the form starts empty, cash, 12 months, 15% |
| Wishlist.WishlistCard.Edit | src/components/WishlistCard.js:29-54 | only the form changes |
| Wishlist.WishlistCard.Add | src/components/WishlistCard.js:10-17 | without a name or cost nothing changes; otherwise one item is appended and the form returns to its defaults |
| Wishlist.WishlistCard.Delete | src/components/WishlistCard.js:69 | the list becomes the items with a different id |
| Assets.AssetCard.constructor | src/components/AssetCard.js:5 | the form starts empty with type Investment |
| Assets.AssetCard.Edit | src/components/AssetCard.js:25-47 | only the form changes; the type is one of the four asset types |
| Assets.AssetCard.Add | src/components/AssetCard.js:7-11 | without a name or value nothing changes; otherwise one asset with the form and the id is appended and the form returns to its defaults |
| Assets.AssetCard.Delete | src/components/AssetCard.js:65 | the list becomes the assets with a different id |
| Goals.GoalCard.constructor | src/components/GoalCard.js:5 | the form starts empty |
| Goals.GoalCard.Edit | src/components/GoalCard.js:25-43 | only the form changes |
| Goals.GoalCard.Add | src/components/GoalCard.js:7-11 | without a name or monthly saving nothing changes, whatever the target; otherwise one goal with progress 0 and the id is appended and the form is cleared |
| Goals.GoalCard.Delete | src/components/GoalCard.js:63 | the list becomes the goals with a different id |
| Dashboard.AllocationData | src/components/Dashboard.js:12-17 | four slices: bills as fixed outflow less installments, installments, goals, and free cash floored at 0 |
| Dashboard.MoneyMap | src/components/Dashboard.js:12-17 | the four slices fed with the top-level component's totals; `SlicesSumToIncome` and `BillsSliceIsBills` state what they add up to |
| Dashboard.SlicesSumToIncome | src/components/Dashboard.js:12-17 | when free cash is not negative the slices add up to the income |
| Dashboard.OverspentSlicesExceedIncome | src/components/Dashboard.js:16 | when free cash is negative the slices add up to more than the income |
| Dashboard.BillsSliceIsBills | src/components/Dashboard.js:13 | the Bills slice is exactly the sum of the bills' amounts |
| Dashboard.DebtRatio | src/components/Dashboard.js:19 | with an income the ratio times the income is the installments times 100; with neither it is 0 |
| Dashboard.ShowsDebtCard | src/components/Dashboard.js:53 | the debt card is shown when the installments are positive; `DebtCardIff` relates this to the loans |
| Dashboard.IsDanger | src/components/Dashboard.js:66 | the ratio is in the danger colour above 30; `DangerIff` relates this to income and installments |
| Dashboard.IsRisky | src/components/Dashboard.js:80 | the free-cash card has the risky border when free cash is negative; `RiskyIff` relates this to income and outflow |
| Dashboard.DangerIff | src/components/Dashboard.js:66 | with a positive income the ratio is flagged exactly when installments exceed three tenths of the income |
| Dashboard.DebtCardIff | src/components/Dashboard.js:53 | with non-negative amounts the debt card shows exactly when some loan has a positive amount |
| Dashboard.RiskyIff | src/components/Dashboard.js:80 | the free-cash card is risky exactly when fixed outflow and goals exceed the income |
| Dashboard.DashboardTabs.constructor | src/components/Dashboard.js:10-24 | the tab starts on Health and moves to the advice tab on mount when advice is present |
| Dashboard.DashboardTabs.Select | src/components/Dashboard.js:29-30 | a tab button selects its tab |
| Dashboard.DashboardTabs.ReceiveAiData | src/components/Dashboard.js:22-24 | new advice moves to the advice tab; cleared advice leaves the tab alone |
| Simulator.SimulatedIncome | src/components/Simulator.js:11 | income scaled by the slider percentage; bounded by `SimulatedIncomeBounds` |
| Simulator.SimulatedExpenses | src/components/Simulator.js:14 | fixed outflow scaled by the slider percentage; bounded by `SimulatedExpensesBounds` |
| Simulator.ReverseGoals | src/components/Simulator.js:17 | the goal amount recovered from the props; equal to the goal total by `ReverseGoalsIsTotalGoals` |
| Simulator.SimulatedFreeCash | src/components/Simulator.js:11-18 | simulated free cash is free cash plus the income gain less the extra spending |
| Simulator.Difference | src/components/Simulator.js:25-26 | the net change is `income·incomeChange/100 − totalFixed·expenseChange/100`, and it counts as positive exactly when `income·incomeChange >= totalFixed·expenseChange` |
| Simulator.IsPositive | src/components/Simulator.js:26 | the change counts as positive when the difference is not negative; `Difference` states when that is |
| Simulator.BarBase | src/components/Simulator.js:94 | the bar divisor, income with 1 in its place when income is 0, is never 0 and equals a non-zero income |
| Simulator.CurrentBarWidth | src/components/Simulator.js:94 | the width is at most 100, and is free cash as a percentage of income when that lies in [0, 100] |
| Simulator.SimulatedBarWidth | src/components/Simulator.js:106 | the width always lies in [5, 100], and is the magnitude as a percentage of income when that lies in the range |
| Simulator.NoChangeIsIdentity | src/components/Simulator.js:11-26 | with both sliders at 0 nothing changes, the net change is 0 and it counts as positive |
| Simulator.ReverseGoalsIsTotalGoals | src/components/Simulator.js:17 | the goal amount recovered from the props is the top-level component's goal total |
| Simulator.SimulatedIncomeBounds | src/components/Simulator.js:11 | within the slider range a non-negative income is scaled to between half and one and a half times itself |
| Simulator.SimulatedExpensesBounds | src/components/Simulator.js:14 | within the slider range non-negative outflow is scaled to between 0.8 and 1.5 times itself |
| Simulator.DifferenceIncreasesWithIncome | src/components/Simulator.js:11-25 | with a positive income, moving the income slider up never lowers the net change |
| Simulator.WhatIf.constructor | src/components/Simulator.js:6-7 | both sliders start at 0 |
| Simulator.WhatIf.SetIncomeChange | src/components/Simulator.js:48-51 | only the income slider moves, and it stays in [−50, 50] in steps of 5 |
| Simulator.WhatIf.SetExpenseChange | src/components/Simulator.js:67-70 | only the expense slider moves, and it stays in [−20, 50] in steps of 5 |
| Simulator.WhatIf.Reset | src/components/Simulator.js:20-23 | both sliders return to 0 |
| Simulator.WhatIf.ValidBoundsSimulation | src/components/Simulator.js:11-14 | with both sliders inside their ranges, simulated income lies within [0.5, 1.5] times income and simulated outflow within [0.8, 1.5] times outflow |

## Left out

- The advice request (`analyzeBudget`): network I/O, the prompt text and JSON parsing. The advice value is an input of `Dashboard.DashboardTabs`.
- Persistence in browser storage, the backup/restore/PDF tools, the report template and the header: browser and foreign-library I/O, or rendering only.
- Chart drawing, colours, CSS classes and formatting (`toLocaleString`, `toFixed(1)`), beyond the visibility and colour predicates modelled in `Dashboard`.
- Floating point: every quantity is an exact real. `Math.pow` with a fractional exponent is not modelled, so tenure, months and years are whole numbers.
- JavaScript coercion. Inputs arrive as strings and are parsed; "0" is a truthy string; `parseFloat` of non-numeric text is NaN. Every input is taken as an already-parsed number, with an empty input as 0. The zero-rate branch of `calculateEMI` returns a string in the source and a number here.
- `Date.now()` ids: every `Add` takes the id as a parameter.
- Helpers.CalculateEmi: requires that `(1 + i)^n - 1` is non-zero when a rate, principal and term are all given. It is zero only for a rate of −2400% with an even term, where the source returns an infinite installment. `Helpers.EmiDefinedForNonnegativeRate` shows every non-negative rate qualifies.
- Dashboard.DebtRatio: requires a non-zero income unless the installments are 0. A positive installment over a zero income is infinite in the source.
- Dashboard.DashboardTabs.ReceiveAiData: React re-runs the effect when the prop is a different object. Each call here stands for such a change, and a re-render with the same object is not a call.
- The top-level component's setters for income and the lists are not a class of their own. The cards hold and replace the lists, and `App.Derive` recomputes from whatever lists it is given.
