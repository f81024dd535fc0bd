/**
 * The global `state` object of js/app.js and the handlers that update it in
 * place: toggleOption, clearAllSelections, calculateScores and
 * evaluateBuild. Each method is proved against the value-level functions of
 * Selection and Scoring, whose properties are proved there.
 *
 * Dialogs are not performed: the answer to `confirm` is a parameter and each
 * `alert` is a returned outcome. Re-rendering and saving to localStorage after
 * a change are not modelled.
 */
module App {
  import opened Catalog
  import opened Scoring
  import opened Selection

  class DraftState {
    /** state.selectedOptions: the selected ids, in the order they were picked. */
    var selectedOptions: seq<int>
    /** state.totalCost, in tenths of a million. */
    var totalCost: int
    /** state.scores, written by calculateScores. */
    var scores: Scores

    /** The selection as a value. */
    function Snapshot(): Draft
      reads this
    {
      Draft(selectedOptions, totalCost)
    }

    /** The object invariant: the selection is Consistent. */
    ghost predicate Valid()
      reads this
    {
      Consistent(Snapshot())
    }

    /** The initial `state`: nothing selected, total 0, all scores 0. */
    constructor ()
      ensures Valid()
      ensures Snapshot() == Empty && scores == ZeroScores
    {
      selectedOptions := [];
      totalCost := 0;
      scores := ZeroScores;
    }

    /**
     * toggleOption(optionId): deselect a selected option; otherwise either
     * refuse with the budget warning, changing nothing, or select it.
     */
    method ToggleOption(optionId: int) returns (outcome: ToggleOutcome)
      requires Valid() && InCatalog(optionId)
      modifies this`selectedOptions, this`totalCost
      ensures Valid()
      ensures Step(Snapshot(), outcome) == Toggle(old(Snapshot()), optionId)
      ensures outcome == BudgetWarning <==> WouldExceedBudget(old(Snapshot()), Lookup(optionId))
      ensures outcome == BudgetWarning ==>
        selectedOptions == old(selectedOptions) && totalCost == old(totalCost)
      ensures outcome == Selected ==> totalCost <= BudgetLimit
    {
      ghost var before := Snapshot();
      var option := Lookup(optionId);
      var isSelected := optionId in selectedOptions;
      if isSelected {
        selectedOptions := Remove(selectedOptions, optionId);
        totalCost := totalCost - option.cost;
        outcome := Deselected;
      } else {
        if totalCost + option.cost > BudgetLimit {
          outcome := BudgetWarning;
          return;
        }
        selectedOptions := selectedOptions + [optionId];
        totalCost := totalCost + option.cost;
        outcome := Selected;
      }
      ToggleKeepsConsistent(before, optionId);
    }

    /**
     * clearAllSelections, with the user's answer to the confirmation dialog:
     * nothing on an empty selection or without confirmation, otherwise the
     * empty selection with total 0. The scores are left as they were.
     */
    method ClearAllSelections(confirmed: bool)
      requires Valid()
      modifies this`selectedOptions, this`totalCost
      ensures Valid()
      ensures Snapshot() == Clear(old(Snapshot()), confirmed)
      ensures old(selectedOptions) == [] || !confirmed ==>
        selectedOptions == old(selectedOptions) && totalCost == old(totalCost)
      ensures old(selectedOptions) != [] && confirmed ==> selectedOptions == [] && totalCost == 0
    {
      if |selectedOptions| == 0 {
        return;
      }
      if confirmed {
        selectedOptions := [];
        totalCost := 0;
      }
    }

    /** calculateScores: recompute state.scores from the current selection. */
    method CalculateScores()
      requires Valid()
      modifies this`scores
      ensures scores == Scoring.CalculateScores(selectedOptions)
    {
      scores := Scoring.CalculateScores(selectedOptions);
    }

    /**
     * evaluateBuild: refuse an empty selection without computing anything;
     * otherwise recompute the scores and report success exactly when the
     * final score reaches the threshold.
     */
    method EvaluateBuild() returns (outcome: Evaluation)
      requires Valid()
      modifies this`scores
      ensures outcome == Evaluate(selectedOptions)
      ensures outcome == NothingSelected <==> selectedOptions == []
      ensures outcome.NothingSelected? ==> scores == old(scores)
      ensures outcome.Evaluated? ==> scores == outcome.scores
      ensures outcome.Evaluated? ==> (outcome.success <==> scores.finalScore >= SuccessThreshold)
    {
      if |selectedOptions| == 0 {
        return NothingSelected;
      }
      CalculateScores();
      outcome := Evaluated(scores, scores.finalScore >= SuccessThreshold);
    }
  }
}
