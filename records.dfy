/** The flat records the four cards create. Numeric fields are already parsed,
    with an empty input read as 0; `id` is the creation timestamp. */
module Records {

  datatype ExpenseType = Bill | Loan

  datatype AssetType = Investment | Cash | Property | Gold

  /** An outflow; for a loan, `amount` is the installment and the loan terms are kept beside it. */
  datatype Expense = Expense(
    id: int, name: string, amount: real,
    principal: real, rate: real, tenure: nat,
    kind: ExpenseType)

  /** A savings goal; `current` is progress, set to 0 on creation. */
  datatype Goal = Goal(id: int, name: string, target: real, monthly: real, current: real)

  datatype Asset = Asset(id: int, name: string, value: real, kind: AssetType)

  /** A planned purchase; `calculatedMonthly` is the EMI when financed and the cost otherwise. */
  datatype WishItem = WishItem(
    id: int, name: string, cost: real,
    isEmi: bool, months: nat, interest: real,
    calculatedMonthly: real)

  // Field accessors, passed by name to the folds.

  function ExpenseId(e: Expense): int { e.id }
  function ExpenseAmount(e: Expense): real { e.amount }
  function ExpensePrincipal(e: Expense): real { e.principal }
  predicate IsLoan(e: Expense) { e.kind == Loan }
  predicate IsBill(e: Expense) { e.kind == Bill }

  function GoalId(g: Goal): int { g.id }
  function GoalMonthly(g: Goal): real { g.monthly }

  function AssetId(a: Asset): int { a.id }
  function AssetValue(a: Asset): real { a.value }

  function ItemId(w: WishItem): int { w.id }
  function ItemMonthly(w: WishItem): real { w.calculatedMonthly }
  predicate IsEmiItem(w: WishItem) { w.isEmi }
}
