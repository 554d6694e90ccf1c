/** The monthly-outflow card: a form buffer for a bill or a loan, the rule that
    fills in a loan's amount from its terms, and add / delete on the expense list. */
module Expenses {
  import opened Records
  import opened Folds
  import Helpers

  /** The `newExpense` buffer; an untouched input reads as 0. */
  datatype ExpenseForm = ExpenseForm(name: string, amount: real, principal: real, rate: real, tenure: nat)

  const EmptyForm := ExpenseForm("", 0.0, 0.0, 0.0, 0)

  /** Add accepts a form with a name and a non-zero amount. */
  predicate Accepts(f: ExpenseForm) { f.name != "" && f.amount != 0.0 }

  /** The record an add appends: the form's fields, the selected type and the id. */
  function NewExpense(f: ExpenseForm, kind: ExpenseType, id: int): Expense
  {
    Expense(id, f.name, f.amount, f.principal, f.rate, f.tenure, kind)
  }

  /** The auto-EMI effect fires for a loan whose principal, rate and tenure are all filled in. */
  predicate EmiApplies(f: ExpenseForm, kind: ExpenseType)
  {
    kind == Loan && f.principal != 0.0 && f.rate != 0.0 && f.tenure != 0
  }

  /** The effect can compute a finite installment (see `Helpers.EmiDefined`). */
  predicate EmiComputable(f: ExpenseForm, kind: ExpenseType)
  {
    EmiApplies(f, kind) ==> Helpers.EmiDefined(f.principal, f.rate, f.tenure)
  }

  /** The form after the auto-EMI effect: only `amount` may change, and only for a loan. */
  function AutoEmi(f: ExpenseForm, kind: ExpenseType): (g: ExpenseForm)
    requires EmiComputable(f, kind)
    ensures g.name == f.name && g.principal == f.principal && g.rate == f.rate && g.tenure == f.tenure
    ensures EmiApplies(f, kind) ==> g.amount == Helpers.CalculateEmi(f.principal, f.rate, f.tenure)
    ensures !EmiApplies(f, kind) ==> g == f
    ensures kind == Bill ==> g == f
  {
    if EmiApplies(f, kind) then f.(amount := Helpers.CalculateEmi(f.principal, f.rate, f.tenure)) else f
  }

  /** Running the effect a second time changes nothing. */
  lemma AutoEmiIdempotent(f: ExpenseForm, kind: ExpenseType)
    requires EmiComputable(f, kind)
    ensures EmiComputable(AutoEmi(f, kind), kind)
    ensures AutoEmi(AutoEmi(f, kind), kind) == AutoEmi(f, kind)
  {
  }

  /** After the effect, a loan with complete terms carries the whole-unit EMI of those terms. */
  lemma AutoEmiWholeUnits(f: ExpenseForm, kind: ExpenseType)
    requires EmiComputable(f, kind) && EmiApplies(f, kind)
    ensures var g := AutoEmi(f, kind); g.amount == g.amount.Floor as real
  {
  }

  class ExpenseCard {
    /** The list owned by the parent and replaced through `setExpenses`. */
    var expenses: seq<Expense>
    var expenseType: ExpenseType
    var form: ExpenseForm

    constructor (expenses: seq<Expense>)
      ensures this.expenses == expenses && expenseType == Bill && form == EmptyForm
    {
      this.expenses := expenses;
      expenseType := Bill;
      form := EmptyForm;
    }

    /** Typing a name or an amount does not trigger the effect. */
    method SetName(name: string)
      modifies this
      ensures form == old(form).(name := name)
      ensures expenses == old(expenses) && expenseType == old(expenseType)
    {
      form := form.(name := name);
    }

    method SetAmount(amount: real)
      modifies this
      ensures form == old(form).(amount := amount)
      ensures expenses == old(expenses) && expenseType == old(expenseType)
    {
      form := form.(amount := amount);
    }

    /** Editing a loan term re-runs the effect when the value actually changes. */
    method SetPrincipal(principal: real)
      requires principal != form.principal ==> EmiComputable(form.(principal := principal), expenseType)
      modifies this
      ensures form == if principal == old(form.principal) then old(form)
                      else AutoEmi(old(form).(principal := principal), old(expenseType))
      ensures expenses == old(expenses) && expenseType == old(expenseType)
    {
      if principal != form.principal {
        form := AutoEmi(form.(principal := principal), expenseType);
      }
    }

    method SetRate(rate: real)
      requires rate != form.rate ==> EmiComputable(form.(rate := rate), expenseType)
      modifies this
      ensures form == if rate == old(form.rate) then old(form)
                      else AutoEmi(old(form).(rate := rate), old(expenseType))
      ensures expenses == old(expenses) && expenseType == old(expenseType)
    {
      if rate != form.rate {
        form := AutoEmi(form.(rate := rate), expenseType);
      }
    }

    method SetTenure(tenure: nat)
      requires tenure != form.tenure ==> EmiComputable(form.(tenure := tenure), expenseType)
      modifies this
      ensures form == if tenure == old(form.tenure) then old(form)
                      else AutoEmi(old(form).(tenure := tenure), old(expenseType))
      ensures expenses == old(expenses) && expenseType == old(expenseType)
    {
      if tenure != form.tenure {
        form := AutoEmi(form.(tenure := tenure), expenseType);
      }
    }

    /** The type toggle is also a dependency of the effect. */
    method SetType(kind: ExpenseType)
      requires kind != expenseType ==> EmiComputable(form, kind)
      modifies this
      ensures expenseType == kind
      ensures form == if kind == old(expenseType) then old(form) else AutoEmi(old(form), kind)
      ensures expenses == old(expenses)
    {
      if kind != expenseType {
        expenseType := kind;
        form := AutoEmi(form, kind);
      }
    }

    /** `addExpense`: append one record and clear the form, or do nothing. */
    method Add(id: int) returns (added: bool)
      modifies this
      ensures added == Accepts(old(form))
      ensures added ==> expenses == old(expenses) + [NewExpense(old(form), old(expenseType), id)]
      ensures added ==> form == EmptyForm
      ensures !added ==> expenses == old(expenses) && form == old(form)
      ensures expenseType == old(expenseType)
    {
      if form.name == "" || form.amount == 0.0 {
        return false;
      }
      expenses := expenses + [NewExpense(form, expenseType, id)];
      form := EmptyForm;
      return true;
    }

    /** The delete button of a row: keep every record whose id differs. */
    method Delete(id: int)
      modifies this
      ensures expenses == RemoveId(old(expenses), ExpenseId, id)
      ensures form == old(form) && expenseType == old(expenseType)
    {
      expenses := RemoveId(expenses, ExpenseId, id);
    }
  }
}
