/** The savings-goals card: a form for a monthly saving and add / delete on the goal list. */
module Goals {
  import opened Records
  import opened Folds

  /** The `newGoal` buffer; the target is optional. */
  datatype GoalForm = GoalForm(name: string, target: real, monthly: real)

  const EmptyForm := GoalForm("", 0.0, 0.0)

  /** Add accepts a form with a name and a non-zero monthly saving, whatever the target. */
  predicate Accepts(f: GoalForm) { f.name != "" && f.monthly != 0.0 }

  /** A new goal starts with no progress. */
  function NewGoal(f: GoalForm, id: int): Goal
  {
    Goal(id, f.name, f.target, f.monthly, 0.0)
  }

  class GoalCard {
    /** The list owned by the parent and replaced through `setGoals`. */
    var goals: seq<Goal>
    var form: GoalForm

    constructor (goals: seq<Goal>)
      ensures this.goals == goals && form == EmptyForm
    {
      this.goals := goals;
      form := EmptyForm;
    }

    /** An input's change handler: replaces the buffer. */
    method Edit(f: GoalForm)
      modifies this
      ensures form == f && goals == old(goals)
    {
      form := f;
    }

    /** `addGoal`: append one goal and clear the form, or do nothing. */
    method Add(id: int) returns (added: bool)
      modifies this
      ensures added == Accepts(old(form))
      ensures added ==> goals == old(goals) + [NewGoal(old(form), id)]
      ensures added ==> form == EmptyForm
      ensures !added ==> goals == old(goals) && form == old(form)
    {
      if form.name == "" || form.monthly == 0.0 {
        return false;
      }
      goals := goals + [NewGoal(form, id)];
      form := EmptyForm;
      return true;
    }

    /** The delete button of a row: keep every goal whose id differs. */
    method Delete(id: int)
      modifies this
      ensures goals == RemoveId(old(goals), GoalId, id)
      ensures form == old(form)
    {
      goals := RemoveId(goals, GoalId, id);
    }
  }
}
