/** The what-if simulator: two percentage sliders scale the income and the fixed
    outflow, and the change in free cash is shown with two clamped bars. */
module Simulator {
  import App
  import opened Records

  /** Income slider: -50% to +50% in steps of 5. */
  predicate IncomeChangeInRange(v: int) { -50 <= v <= 50 && v % 5 == 0 }

  /** Expense slider: -20% to +50% in steps of 5. */
  predicate ExpenseChangeInRange(v: int) { -20 <= v <= 50 && v % 5 == 0 }

  function Scale(x: real, percent: int): real { x * (1.0 + percent as real / 100.0) }

  function SimulatedIncome(income: real, incomeChange: int): real { Scale(income, incomeChange) }

  function SimulatedExpenses(totalFixed: real, expenseChange: int): real { Scale(totalFixed, expenseChange) }

  /** The goal contributions are not passed in; they are recovered from the three props. */
  function ReverseGoals(income: real, totalFixed: real, freeCash: real): real
  {
    income - totalFixed - freeCash
  }

  /** Free cash after the change, with the goal contributions held fixed. */
  function SimulatedFreeCash(income: real, totalFixed: real, freeCash: real,
                             incomeChange: int, expenseChange: int): (simulated: real)
    ensures simulated == freeCash + income * incomeChange as real / 100.0
                                  - totalFixed * expenseChange as real / 100.0
  {
    SimulatedIncome(income, incomeChange) - SimulatedExpenses(totalFixed, expenseChange)
      - ReverseGoals(income, totalFixed, freeCash)
  }

  /** `difference`: the gain on the income side less the extra spending. */
  function Difference(income: real, totalFixed: real, freeCash: real,
                      incomeChange: int, expenseChange: int): (d: real)
    ensures d == income * incomeChange as real / 100.0 - totalFixed * expenseChange as real / 100.0
    ensures d >= 0.0 <==> income * incomeChange as real >= totalFixed * expenseChange as real
  {
    SimulatedFreeCash(income, totalFixed, freeCash, incomeChange, expenseChange) - freeCash
  }

  /** `isPositive`: selects the green bar, the up arrow and "More free cash!". */
  predicate IsPositive(income: real, totalFixed: real, freeCash: real, incomeChange: int, expenseChange: int)
  {
    Difference(income, totalFixed, freeCash, incomeChange, expenseChange) >= 0.0
  }

  /** `income || 1`: a zero income is replaced by 1 as the divisor of the bars. */
  function BarBase(income: real): (base: real)
    ensures base != 0.0
    ensures income != 0.0 ==> base == income
  {
    if income == 0.0 then 1.0 else income
  }

  /** Width of the current bar in percent: capped at 100, not floored (a negative width is dropped by CSS). */
  function CurrentBarWidth(income: real, freeCash: real): (width: real)
    ensures width <= 100.0
    ensures income > 0.0 && 0.0 <= freeCash <= income ==> width * income == freeCash * 100.0
  {
    var w := freeCash / BarBase(income) * 100.0;
    if w < 100.0 then w else 100.0
  }

  /** Width of the simulated bar in percent: the magnitude of the simulated free cash, clamped to [5, 100]. */
  function SimulatedBarWidth(income: real, simulatedFreeCash: real): (width: real)
    ensures 5.0 <= width <= 100.0
    ensures var w := (if simulatedFreeCash < 0.0 then -simulatedFreeCash else simulatedFreeCash)
                     / BarBase(income) * 100.0;
            5.0 <= w <= 100.0 ==> width == w
  {
    var magnitude := if simulatedFreeCash < 0.0 then -simulatedFreeCash else simulatedFreeCash;
    var w := magnitude / BarBase(income) * 100.0;
    var floored := if w > 5.0 then w else 5.0;
    if floored < 100.0 then floored else 100.0
  }

  /** With both sliders at 0 nothing changes, and the change counts as positive. */
  lemma NoChangeIsIdentity(income: real, totalFixed: real, freeCash: real, incomeChange: int, expenseChange: int)
    requires incomeChange == 0 && expenseChange == 0
    ensures SimulatedIncome(income, incomeChange) == income
    ensures SimulatedExpenses(totalFixed, expenseChange) == totalFixed
    ensures SimulatedFreeCash(income, totalFixed, freeCash, incomeChange, expenseChange) == freeCash
    ensures Difference(income, totalFixed, freeCash, incomeChange, expenseChange) == 0.0
    ensures IsPositive(income, totalFixed, freeCash, incomeChange, expenseChange)
  {
  }

  /** Fed with the top-level component's values, the recovered goals are its `totalGoals`. */
  lemma ReverseGoalsIsTotalGoals(income: real, expenses: seq<Expense>, goals: seq<Goal>,
                                 assets: seq<Asset>, wishlist: seq<WishItem>)
    ensures var s := App.Derive(income, expenses, goals, assets, wishlist);
            ReverseGoals(income, s.totalFixed, s.freeCash) == s.totalGoals
  {
  }

  /** Within the slider ranges a non-negative income is scaled to between half and one and a half times itself. */
  lemma {:induction false} SimulatedIncomeBounds(income: real, incomeChange: int)
    requires income >= 0.0 && IncomeChangeInRange(incomeChange)
    ensures income * 0.5 <= SimulatedIncome(income, incomeChange) <= income * 1.5
  {
    var factor := 1.0 + incomeChange as real / 100.0;
    assert SimulatedIncome(income, incomeChange) == income * factor;
    assert 0.5 <= factor <= 1.5;
    var above, below := factor - 0.5, 1.5 - factor;
    assert income * above >= 0.0;
    assert income * below >= 0.0;
    assert income * factor == income * 0.5 + income * above;
    assert income * 1.5 == income * factor + income * below;
  }

  /** Within the slider range non-negative fixed outflow is scaled to between 0.8 and 1.5 times itself. */
  lemma {:induction false} SimulatedExpensesBounds(totalFixed: real, expenseChange: int)
    requires totalFixed >= 0.0 && ExpenseChangeInRange(expenseChange)
    ensures totalFixed * 0.8 <= SimulatedExpenses(totalFixed, expenseChange) <= totalFixed * 1.5
  {
    var factor := 1.0 + expenseChange as real / 100.0;
    assert SimulatedExpenses(totalFixed, expenseChange) == totalFixed * factor;
    assert 0.8 <= factor <= 1.5;
    var above, below := factor - 0.8, 1.5 - factor;
    assert totalFixed * above >= 0.0;
    assert totalFixed * below >= 0.0;
    assert totalFixed * factor == totalFixed * 0.8 + totalFixed * above;
    assert totalFixed * 1.5 == totalFixed * factor + totalFixed * below;
  }

  /** With a positive income and fixed expenses, a higher income slider never lowers the difference. */
  lemma {:induction false} DifferenceIncreasesWithIncome(income: real, totalFixed: real, freeCash: real,
                                                         low: int, high: int, expenseChange: int)
    requires income > 0.0 && low <= high
    ensures Difference(income, totalFixed, freeCash, low, expenseChange)
         <= Difference(income, totalFixed, freeCash, high, expenseChange)
  {
    var step := (high - low) as real;
    var gain := income * step;
    assert gain >= 0.0;
    assert income * high as real == income * low as real + gain;
    assert Difference(income, totalFixed, freeCash, high, expenseChange)
        == Difference(income, totalFixed, freeCash, low, expenseChange) + gain / 100.0;
  }

  /** The slider positions of one mounted simulator. */
  class WhatIf {
    var incomeChange: int
    var expenseChange: int

    /** Both sliders sit inside their ranges. */
    predicate Valid()
      reads this
    {
      IncomeChangeInRange(incomeChange) && ExpenseChangeInRange(expenseChange)
    }

    /** Whatever the sliders show, the simulated income and outflow stay within the slider ranges' scale. */
    lemma ValidBoundsSimulation(income: real, totalFixed: real)
      requires Valid() && income >= 0.0 && totalFixed >= 0.0
      ensures income * 0.5 <= SimulatedIncome(income, incomeChange) <= income * 1.5
      ensures totalFixed * 0.8 <= SimulatedExpenses(totalFixed, expenseChange) <= totalFixed * 1.5
    {
      SimulatedIncomeBounds(income, incomeChange);
      SimulatedExpensesBounds(totalFixed, expenseChange);
    }

    constructor ()
      ensures incomeChange == 0 && expenseChange == 0
      ensures Valid()
    {
      incomeChange := 0;
      expenseChange := 0;
    }

    /** The income slider's change handler; the range input only produces values of its domain. */
    method SetIncomeChange(v: int)
      requires Valid() && IncomeChangeInRange(v)
      modifies this
      ensures incomeChange == v && expenseChange == old(expenseChange)
      ensures Valid()
    {
      incomeChange := v;
    }

    method SetExpenseChange(v: int)
      requires Valid() && ExpenseChangeInRange(v)
      modifies this
      ensures expenseChange == v && incomeChange == old(incomeChange)
      ensures Valid()
    {
      expenseChange := v;
    }

    /** The reset button: both sliders back to 0. */
    method Reset()
      modifies this
      ensures incomeChange == 0 && expenseChange == 0
      ensures Valid()
    {
      incomeChange := 0;
      expenseChange := 0;
    }
  }
}
