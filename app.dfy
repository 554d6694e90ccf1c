/** The derived totals the top-level component recomputes on every render from
    `income` and the four record lists. */
module App {
  import opened Folds
  import opened Records

  /** `totalFixed`: every expense's amount, bills and loans alike. */
  function TotalFixed(expenses: seq<Expense>): real { Sum(expenses, ExpenseAmount) }

  /** `totalLoans`: the expenses of type Loan. */
  function LoanExpenses(expenses: seq<Expense>): seq<Expense> { Filter(expenses, IsLoan) }

  /** `totalLoanEMI`: the amounts of the loans only. */
  function TotalLoanEmi(expenses: seq<Expense>): real { Sum(LoanExpenses(expenses), ExpenseAmount) }

  /** `totalPrincipal`, also shown as `totalLiabilities`: the principals of the loans only. */
  function TotalPrincipal(expenses: seq<Expense>): real { Sum(LoanExpenses(expenses), ExpensePrincipal) }

  function TotalGoals(goals: seq<Goal>): real { Sum(goals, GoalMonthly) }

  /** `totalAssets`: the value of every asset, whatever its type. */
  function TotalAssets(assets: seq<Asset>): real { Sum(assets, AssetValue) }

  /** `wishlistImpact`: the monthly EMI of financed items; cash purchases count 0. */
  function WishlistImpact(wishlist: seq<WishItem>): real { Sum(Filter(wishlist, IsEmiItem), ItemMonthly) }

  datatype Snapshot = Snapshot(
    totalFixed: real,
    totalLoanEmi: real,
    totalPrincipal: real,
    totalLiabilities: real,
    totalGoals: real,
    monthlySurplus: real,
    freeCash: real,
    totalAssets: real,
    netWorth: real,
    wishlistImpact: real,
    postPurchaseFreeCash: real)

  /** All derived values at once, in the order the component computes them. */
  function Derive(income: real, expenses: seq<Expense>, goals: seq<Goal>,
                  assets: seq<Asset>, wishlist: seq<WishItem>): Snapshot
  {
    var totalFixed := TotalFixed(expenses);
    var totalPrincipal := TotalPrincipal(expenses);
    var monthlySurplus := income - totalFixed;
    var freeCash := monthlySurplus - TotalGoals(goals);
    var totalAssets := TotalAssets(assets);
    var wishlistImpact := WishlistImpact(wishlist);
    Snapshot(
      totalFixed, TotalLoanEmi(expenses), totalPrincipal, totalPrincipal,
      TotalGoals(goals), monthlySurplus, freeCash,
      totalAssets, totalAssets - totalPrincipal,
      wishlistImpact, freeCash - wishlistImpact)
  }

  predicate NonnegativeAmounts(expenses: seq<Expense>)
  {
    forall e :: e in expenses ==> e.amount >= 0.0
  }

  /** With nothing entered, every derived value is zero. */
  lemma EmptyBudgetIsZero(income: real, expenses: seq<Expense>, goals: seq<Goal>,
                          assets: seq<Asset>, wishlist: seq<WishItem>)
    requires income == 0.0 && expenses == [] && goals == [] && assets == [] && wishlist == []
    ensures Derive(income, expenses, goals, assets, wishlist)
         == Snapshot(0.0, 0.0, 0.0, 0.0, 0.0, 0.0, 0.0, 0.0, 0.0, 0.0, 0.0)
  {
  }

  /** The surplus is income less fixed outflow; free cash also subtracts all goal contributions;
      net worth is assets less loan principals. */
  lemma SnapshotIdentities(income: real, expenses: seq<Expense>, goals: seq<Goal>,
                           assets: seq<Asset>, wishlist: seq<WishItem>)
    ensures var s := Derive(income, expenses, goals, assets, wishlist);
      && s.monthlySurplus == income - s.totalFixed
      && s.freeCash == income - s.totalFixed - s.totalGoals
      && s.totalLiabilities == s.totalPrincipal
      && s.netWorth == s.totalAssets - s.totalLiabilities
      && s.postPurchaseFreeCash == income - s.totalFixed - s.totalGoals - s.wishlistImpact
  {
  }

  /** With non-negative amounts, the loan installments are part of the fixed outflow. */
  lemma LoanEmiWithinOutflow(expenses: seq<Expense>)
    requires NonnegativeAmounts(expenses)
    ensures 0.0 <= TotalLoanEmi(expenses) <= TotalFixed(expenses)
  {
    SumFilterBounds(expenses, ExpenseAmount, IsLoan);
  }

  /** What is fixed outflow but not a loan installment is exactly the bills' amounts. */
  lemma OutflowSplitsIntoBillsAndLoans(expenses: seq<Expense>)
    ensures TotalFixed(expenses) - TotalLoanEmi(expenses) == Sum(Filter(expenses, IsBill), ExpenseAmount)
  {
    SumPartition(expenses, ExpenseAmount, IsLoan, IsBill);
  }

  /** Adding an expense raises the fixed outflow by its amount; only a loan moves
      the installment and liability totals, by its amount and its principal. */
  lemma AddExpenseEffect(expenses: seq<Expense>, e: Expense)
    ensures TotalFixed(expenses + [e]) == TotalFixed(expenses) + e.amount
    ensures e.kind == Loan ==> TotalLoanEmi(expenses + [e]) == TotalLoanEmi(expenses) + e.amount
    ensures e.kind == Loan ==> TotalPrincipal(expenses + [e]) == TotalPrincipal(expenses) + e.principal
    ensures e.kind == Bill ==> TotalLoanEmi(expenses + [e]) == TotalLoanEmi(expenses)
    ensures e.kind == Bill ==> TotalPrincipal(expenses + [e]) == TotalPrincipal(expenses)
  {
    SumAppend(expenses, [e], ExpenseAmount);
    FilterAppend(expenses, [e], IsLoan);
    var loans := LoanExpenses(expenses);
    if e.kind == Loan {
      assert Filter([e], IsLoan) == [e];
      SumAppend(loans, [e], ExpenseAmount);
      SumAppend(loans, [e], ExpensePrincipal);
    } else {
      assert Filter([e], IsLoan) == [];
      assert loans + [] == loans;
    }
  }

  /** Deleting an id lowers the fixed outflow by exactly the amounts of the records removed. */
  lemma DeleteExpenseEffect(expenses: seq<Expense>, id: int)
    ensures TotalFixed(RemoveId(expenses, ExpenseId, id))
         == TotalFixed(expenses) - TotalFixed(WithId(expenses, ExpenseId, id))
  {
    SumRemoveId(expenses, ExpenseAmount, ExpenseId, id);
  }

  /** Every asset type counts towards the total. */
  lemma AddAssetEffect(assets: seq<Asset>, a: Asset)
    ensures TotalAssets(assets + [a]) == TotalAssets(assets) + a.value
  {
    SumAppend(assets, [a], AssetValue);
  }

  /** Every goal's monthly contribution counts towards the total. */
  lemma AddGoalEffect(goals: seq<Goal>, g: Goal)
    ensures TotalGoals(goals + [g]) == TotalGoals(goals) + g.monthly
  {
    SumAppend(goals, [g], GoalMonthly);
  }

  /** A financed item adds its monthly EMI to the impact; a cash purchase adds nothing. */
  lemma AddWishEffect(wishlist: seq<WishItem>, w: WishItem)
    ensures w.isEmi ==> WishlistImpact(wishlist + [w]) == WishlistImpact(wishlist) + w.calculatedMonthly
    ensures !w.isEmi ==> WishlistImpact(wishlist + [w]) == WishlistImpact(wishlist)
  {
    var emis := Filter(wishlist, IsEmiItem);
    FilterAppend(wishlist, [w], IsEmiItem);
    if w.isEmi {
      assert Filter([w], IsEmiItem) == [w];
      SumAppend(emis, [w], ItemMonthly);
    } else {
      assert Filter([w], IsEmiItem) == [];
      assert emis + [] == emis;
    }
  }

  /** Without financed items, buying the wishlist leaves free cash where it is. */
  lemma CashOnlyWishlistKeepsFreeCash(income: real, expenses: seq<Expense>, goals: seq<Goal>,
                                      assets: seq<Asset>, wishlist: seq<WishItem>)
    requires forall w :: w in wishlist ==> !w.isEmi
    ensures WishlistImpact(wishlist) == 0.0
    ensures var s := Derive(income, expenses, goals, assets, wishlist);
      s.postPurchaseFreeCash == s.freeCash
  {
  }
}
