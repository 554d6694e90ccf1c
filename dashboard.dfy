/** The dashboard: the money-map slices, the debt-to-income ratio with its
    thresholds, and the tab that switches to the advice panel when advice arrives. */
module Dashboard {
  import opened Folds
  import opened Records
  import App

  /** One slice of the money-map pie. */
  datatype Slice = Slice(name: string, value: real)

  function SliceValue(s: Slice): real { s.value }

  /** `allocationData`: bills, loan installments, goals and the non-negative part of free cash. */
  function AllocationData(totalFixed: real, totalLoanEmi: real, totalGoals: real, freeCash: real): (slices: seq<Slice>)
    ensures |slices| == 4
    ensures slices[0] == Slice("Bills", totalFixed - totalLoanEmi)
    ensures slices[1] == Slice("EMIs", totalLoanEmi)
    ensures slices[2] == Slice("Goals", totalGoals)
    ensures slices[3].name == "Free Cash" && slices[3].value >= 0.0
    ensures slices[3].value >= freeCash && (freeCash >= 0.0 ==> slices[3].value == freeCash)
    ensures freeCash < 0.0 ==> slices[3].value == 0.0
  {
    [Slice("Bills", totalFixed - totalLoanEmi),
     Slice("EMIs", totalLoanEmi),
     Slice("Goals", totalGoals),
     Slice("Free Cash", if freeCash > 0.0 then freeCash else 0.0)]
  }

  /** The slices drawn for a budget, from the values the top-level component derives. */
  function MoneyMap(income: real, expenses: seq<Expense>, goals: seq<Goal>,
                    assets: seq<Asset>, wishlist: seq<WishItem>): seq<Slice>
  {
    var s := App.Derive(income, expenses, goals, assets, wishlist);
    AllocationData(s.totalFixed, s.totalLoanEmi, s.totalGoals, s.freeCash)
  }

  /** Without overspending, the pie divides exactly the income. */
  lemma SlicesSumToIncome(income: real, expenses: seq<Expense>, goals: seq<Goal>,
                          assets: seq<Asset>, wishlist: seq<WishItem>)
    requires App.Derive(income, expenses, goals, assets, wishlist).freeCash >= 0.0
    ensures Sum(MoneyMap(income, expenses, goals, assets, wishlist), SliceValue) == income
  {
    var slices := MoneyMap(income, expenses, goals, assets, wishlist);
    assert slices == [slices[0]] + [slices[1]] + [slices[2]] + [slices[3]];
    SumAppend([slices[0]] + [slices[1]] + [slices[2]], [slices[3]], SliceValue);
    SumAppend([slices[0]] + [slices[1]], [slices[2]], SliceValue);
    SumAppend([slices[0]], [slices[1]], SliceValue);
  }

  /** When overspending, the pie shows more than the income: free cash is drawn as 0. */
  lemma OverspentSlicesExceedIncome(income: real, expenses: seq<Expense>, goals: seq<Goal>,
                                    assets: seq<Asset>, wishlist: seq<WishItem>)
    requires App.Derive(income, expenses, goals, assets, wishlist).freeCash < 0.0
    ensures Sum(MoneyMap(income, expenses, goals, assets, wishlist), SliceValue) > income
  {
    var slices := MoneyMap(income, expenses, goals, assets, wishlist);
    assert slices == [slices[0]] + [slices[1]] + [slices[2]] + [slices[3]];
    SumAppend([slices[0]] + [slices[1]] + [slices[2]], [slices[3]], SliceValue);
    SumAppend([slices[0]] + [slices[1]], [slices[2]], SliceValue);
    SumAppend([slices[0]], [slices[1]], SliceValue);
  }

  /** The Bills slice is exactly what the bills cost. */
  lemma BillsSliceIsBills(income: real, expenses: seq<Expense>, goals: seq<Goal>,
                          assets: seq<Asset>, wishlist: seq<WishItem>)
    ensures MoneyMap(income, expenses, goals, assets, wishlist)[0].value
         == Sum(Filter(expenses, IsBill), ExpenseAmount)
  {
    App.OutflowSplitsIntoBillsAndLoans(expenses);
  }

  /** `debtRatio` in percent. The quotient 0/0 is NaN and `|| 0` turns it into 0;
      a non-zero installment over no income would be infinite and is excluded. */
  function DebtRatio(totalLoanEmi: real, income: real): (ratio: real)
    requires income != 0.0 || totalLoanEmi == 0.0
    ensures income != 0.0 ==> ratio * income == totalLoanEmi * 100.0
    ensures income == 0.0 ==> ratio == 0.0
    ensures income > 0.0 && totalLoanEmi >= 0.0 ==> ratio >= 0.0
  {
    if income == 0.0 then 0.0 else totalLoanEmi / income * 100.0
  }

  /** The debt card is rendered only while some loan installment is owed. */
  predicate ShowsDebtCard(totalLoanEmi: real) { totalLoanEmi > 0.0 }

  /** The ratio is printed in the danger colour above 30%. */
  predicate IsDanger(debtRatio: real) { debtRatio > 30.0 }

  /** The free-cash card gets the risky border when free cash is negative. */
  predicate IsRisky(freeCash: real) { freeCash < 0.0 }

  /** With a positive income, danger means installments above three tenths of it. */
  lemma {:induction false} DangerIff(totalLoanEmi: real, income: real)
    requires income > 0.0
    ensures IsDanger(DebtRatio(totalLoanEmi, income)) <==> totalLoanEmi * 10.0 > income * 3.0
  {
    var ratio := DebtRatio(totalLoanEmi, income);
    assert ratio * income == totalLoanEmi * 100.0;
    if ratio > 30.0 {
      assert ratio * income > 30.0 * income;
    } else {
      assert ratio * income <= 30.0 * income;
    }
  }

  /** With non-negative amounts, the debt card shows exactly when some loan has a positive amount. */
  lemma DebtCardIff(expenses: seq<Expense>)
    requires App.NonnegativeAmounts(expenses)
    ensures ShowsDebtCard(App.TotalLoanEmi(expenses))
        <==> exists e :: e in expenses && e.kind == Loan && e.amount > 0.0
  {
    var loans := App.LoanExpenses(expenses);
    SumPositiveIff(loans, ExpenseAmount);
    if e :| e in expenses && e.kind == Loan && e.amount > 0.0 {
      assert e in loans;
    }
  }

  /** The free-cash card is risky exactly when bills, loans and goals together exceed the income. */
  lemma RiskyIff(income: real, expenses: seq<Expense>, goals: seq<Goal>,
                 assets: seq<Asset>, wishlist: seq<WishItem>)
    ensures IsRisky(App.Derive(income, expenses, goals, assets, wishlist).freeCash)
        <==> App.TotalFixed(expenses) + App.TotalGoals(goals) > income
  {
  }

  datatype Tab = Health | Ai

  /** What the advice request returns: an assessment, strategies and possibly a verdict. */
  datatype Strategy = Strategy(title: string, text: string)
  datatype Verdict = Verdict(item: string, status: string, impact: string, advice: string)
  datatype Advice = Advice(assessment: string, strategies: seq<Strategy>, verdict: Option<Verdict>)

  datatype Option<T> = None | Some(value: T)

  /** The tab selection of one mounted dashboard, together with the `aiData` prop it last saw. */
  class DashboardTabs {
    var activeTab: Tab
    var aiData: Option<Advice>

    /** The tab starts on Health; the effect then runs once on mount. */
    constructor (aiData: Option<Advice>)
      ensures this.aiData == aiData
      ensures activeTab == if aiData.Some? then Ai else Health
    {
      this.aiData := aiData;
      activeTab := Health;
      if aiData.Some? {
        activeTab := Ai;
      }
    }

    /** A click on one of the two tab buttons. */
    method Select(tab: Tab)
      modifies this
      ensures activeTab == tab && aiData == old(aiData)
    {
      activeTab := tab;
    }

    /** The parent passes a new `aiData` object: the effect re-runs and moves to the
        advice tab when the new value is present; clearing it leaves the tab alone. */
    method ReceiveAiData(data: Option<Advice>)
      modifies this
      ensures aiData == data
      ensures activeTab == if data.Some? then Ai else old(activeTab)
    {
      aiData := data;
      if data.Some? {
        activeTab := Ai;
      }
    }
  }
}
