/** The action panel of the current step: the checklist toggles, the simulated device actions, and
    the gate that enables the complete button. */
module StepAction {
  import opened Builtins
  import opened Types

  // ---------------------------------------------------------------------------
  // Checklist
  // ---------------------------------------------------------------------------

  /** The checked set after `toggleCheck(id)`. */
  function Toggled(checked: set<string>, id: string): (r: set<string>)
    ensures id in r <==> id !in checked
    ensures forall x :: x != id ==> (x in r <==> x in checked)
  {
    if id in checked then checked - {id} else checked + {id}
  }

  /** Toggling the same id twice gives back the original set. */
  lemma ToggleTwiceRestores(checked: set<string>, id: string)
    ensures Toggled(Toggled(checked, id), id) == checked
  {
  }

  /** The ids of a checklist's items. */
  function ItemIds(items: seq<CheckItem>): set<string>
  {
    set k | 0 <= k < |items| :: items[k].id
  }

  predicate ItemIdsDistinct(items: seq<CheckItem>)
  {
    forall i, j :: 0 <= i < j < |items| ==> items[i].id != items[j].id
  }

  /** A checklist with distinct ids has as many ids as items. */
  lemma {:induction false} DistinctItemIdsCount(items: seq<CheckItem>)
    requires ItemIdsDistinct(items)
    decreases |items|
    ensures |ItemIds(items)| == |items|
  {
    if |items| > 0 {
      var init := items[..|items| - 1];
      assert ItemIdsDistinct(init);
      DistinctItemIdsCount(init);
      assert ItemIds(items) == ItemIds(init) + {items[|items| - 1].id};
      assert items[|items| - 1].id !in ItemIds(init);
    }
  }

  /** Toggling the ids of a sequence one after another. */
  function ToggleAll(checked: set<string>, ids: seq<string>): set<string>
    decreases |ids|
  {
    if |ids| == 0 then checked else ToggleAll(Toggled(checked, ids[0]), ids[1..])
  }

  /** Ticking each item of a checklist with distinct ids once, starting from a selection that holds
      none of its ids, adds exactly its ids to the selection. */
  lemma {:induction false} TickingEveryItemChecksAll(checked: set<string>, items: seq<CheckItem>)
    requires ItemIdsDistinct(items)
    requires checked !! ItemIds(items)
    decreases |items|
    ensures ToggleAll(checked, seq(|items|, k requires 0 <= k < |items| => items[k].id)) == checked + ItemIds(items)
  {
    var ids := seq(|items|, k requires 0 <= k < |items| => items[k].id);
    if |items| > 0 {
      var rest := items[1..];
      assert ids[1..] == seq(|rest|, k requires 0 <= k < |rest| => rest[k].id);
      assert ItemIds(items) == {items[0].id} + ItemIds(rest);
      assert items[0].id !in ItemIds(rest);
      TickingEveryItemChecksAll(checked + {items[0].id}, rest);
    }
  }

  /** The checklist counts as complete when as many ids are checked as the step has items; the
      check compares sizes only. */
  predicate IsChecklistComplete(checked: set<string>, step: WorkStep)
  {
    |checked| == |step.checkList|
  }

  /** The checklist gate compares counts only; when the selection holds only ids of the step's items
      and those ids are distinct, it holds exactly when every item is checked. */
  lemma ChecklistCompleteIffAllChecked(checked: set<string>, step: WorkStep)
    requires checked <= ItemIds(step.checkList)
    requires ItemIdsDistinct(step.checkList)
    ensures IsChecklistComplete(checked, step) <==> checked == ItemIds(step.checkList)
  {
    DistinctItemIdsCount(step.checkList);
    var all := ItemIds(step.checkList);
    assert |all| == |checked| + |all - checked|;
  }

  /** A toggle of one of the step's own items keeps the selection within the step's items. */
  lemma ToggleStaysWithinItems(checked: set<string>, step: WorkStep, k: int)
    requires checked <= ItemIds(step.checkList)
    requires 0 <= k < |step.checkList|
    ensures Toggled(checked, step.checkList[k].id) <= ItemIds(step.checkList)
  {
  }

  // ---------------------------------------------------------------------------
  // The completion gate
  // ---------------------------------------------------------------------------

  /** Whether the step's own device action has been carried out. */
  predicate IsActionComplete(stepType: StepType, aiResult: Option<AiInspectionResult>, measuredWeight: Option<int>,
                             isLabelPrinted: bool, isBarcodeScanned: bool)
  {
    match stepType
    case PreProcess => aiResult.Some? && aiResult.value.isPass
    case Standardize => measuredWeight.Some?
    case Pack => isLabelPrinted
    case Ship => isBarcodeScanned
  }

  /** The complete button is enabled exactly when both the checklist and the action are complete. */
  predicate IsReadyToComplete(checked: set<string>, step: WorkStep, aiResult: Option<AiInspectionResult>,
                              measuredWeight: Option<int>, isLabelPrinted: bool, isBarcodeScanned: bool)
  {
    IsChecklistComplete(checked, step)
    && IsActionComplete(step.stepType, aiResult, measuredWeight, isLabelPrinted, isBarcodeScanned)
  }

  /** Each step type is gated by its own flag only: setting the flags of the other types never enables it. */
  lemma ActionGateIsOwnFlag(stepType: StepType, aiResult: Option<AiInspectionResult>, measuredWeight: Option<int>,
                            isLabelPrinted: bool, isBarcodeScanned: bool)
    ensures IsActionComplete(stepType, aiResult, measuredWeight, isLabelPrinted, isBarcodeScanned) <==>
      match stepType
      case PreProcess => IsActionComplete(stepType, aiResult, None, false, false)
      case Standardize => IsActionComplete(stepType, None, measuredWeight, false, false)
      case Pack => IsActionComplete(stepType, None, None, isLabelPrinted, false)
      case Ship => IsActionComplete(stepType, None, None, false, isBarcodeScanned)
  {
  }

  /** The result the simulated vision check always produces for a step. */
  function PassingInspection(stepId: string, grade: Grade): (r: AiInspectionResult)
    ensures r.stepId == stepId && r.isPass && r.score == 98 && r.defectType.None?
    ensures DocumentedScore(r)
  {
    AiInspectionResult(stepId, true, 98, None, "규격(" + GradeName(grade) + ") 기준을 충족합니다.")
  }

  // ---------------------------------------------------------------------------
  // The panel's state cells and handlers
  // ---------------------------------------------------------------------------

  /** The panel's state for the step it is showing. The delayed completions of the device
      handlers are separate methods (`…Done`), run after their `Start…` counterpart. */
  class Panel {
    var step: WorkStep
    var spec: Spec
    var checkedItems: set<string>
    var isAnalyzing: bool
    var aiResult: Option<AiInspectionResult>
    var measuredWeight: Option<int>
    var isLabelPrinted: bool
    var isBarcodeScanned: bool

    /** The state after the reset that runs on mount: nothing checked, no result, no flag set. */
    ghost predicate IsReset()
      reads this
    {
      checkedItems == {} && aiResult.None? && measuredWeight.None? && !isLabelPrinted && !isBarcodeScanned
    }

    /** Whether the complete button is enabled. */
    predicate ReadyToComplete()
      reads this
    {
      IsReadyToComplete(checkedItems, step, aiResult, measuredWeight, isLabelPrinted, isBarcodeScanned)
    }

    constructor (step: WorkStep, spec: Spec)
      ensures this.step == step && this.spec == spec
      ensures IsReset() && !isAnalyzing && !ReadyToComplete()
    {
      this.step, this.spec := step, spec;
      checkedItems, isAnalyzing, aiResult := {}, false, None;
      measuredWeight, isLabelPrinted, isBarcodeScanned := None, false, false;
    }

    /** New props from the page. The reset effect depends on `step.id` only: it runs when the id
        changes, and it leaves `isAnalyzing` alone. */
    method ReceiveProps(newStep: WorkStep, newSpec: Spec)
      modifies this
      ensures step == newStep && spec == newSpec
      ensures isAnalyzing == old(isAnalyzing)
      ensures newStep.id != old(step.id) ==> IsReset() && !ReadyToComplete()
      ensures newStep.id == old(step.id) ==>
        && checkedItems == old(checkedItems) && aiResult == old(aiResult) && measuredWeight == old(measuredWeight)
        && isLabelPrinted == old(isLabelPrinted) && isBarcodeScanned == old(isBarcodeScanned)
    {
      var previousId := step.id;
      step, spec := newStep, newSpec;
      if newStep.id != previousId {
        checkedItems := {};
        aiResult := None;
        measuredWeight := None;
        isLabelPrinted := false;
        isBarcodeScanned := false;
      }
    }

    /** A tap on a checklist item: it is checked if it was not, and unchecked if it was. */
    method ToggleCheck(id: string)
      modifies this`checkedItems
      ensures checkedItems == Toggled(old(checkedItems), id)
    {
      var next := checkedItems;
      if id in next {
        next := next - {id};
      } else {
        next := next + {id};
      }
      checkedItems := next;
    }

    /** `handlePhotoUpload`, up to the timer. */
    method StartPhotoUpload()
      modifies this`isAnalyzing, this`aiResult
      ensures isAnalyzing && aiResult.None?
    {
      isAnalyzing := true;
      aiResult := None;
    }

    /** The timer callback of `handlePhotoUpload`. */
    method PhotoAnalysisDone()
      modifies this`isAnalyzing, this`aiResult
      ensures aiResult == Some(PassingInspection(step.id, spec.grade)) && !isAnalyzing
    {
      aiResult := Some(PassingInspection(step.id, spec.grade));
      isAnalyzing := false;
    }

    /** `handleWeighing`, up to the timer. */
    method StartWeighing()
      modifies this`isAnalyzing
      ensures isAnalyzing
    {
      isAnalyzing := true;
    }

    /** The timer callback of `handleWeighing`; the scale reading is an input. */
    method WeighingDone(weight: int)
      modifies this`isAnalyzing, this`measuredWeight
      ensures measuredWeight == Some(weight) && !isAnalyzing
    {
      measuredWeight := Some(weight);
      isAnalyzing := false;
    }

    /** `handlePrintLabel`, up to the timer. */
    method StartPrintLabel()
      modifies this`isAnalyzing
      ensures isAnalyzing
    {
      isAnalyzing := true;
    }

    /** The timer callback of `handlePrintLabel`. */
    method LabelPrinted()
      modifies this`isAnalyzing, this`isLabelPrinted
      ensures isLabelPrinted && !isAnalyzing
    {
      isLabelPrinted := true;
      isAnalyzing := false;
    }

    /** `handleScanBarcode`, up to the timer. */
    method StartScanBarcode()
      modifies this`isAnalyzing
      ensures isAnalyzing
    {
      isAnalyzing := true;
    }

    /** The timer callback of `handleScanBarcode`. */
    method BarcodeScanned()
      modifies this`isAnalyzing, this`isBarcodeScanned
      ensures isBarcodeScanned && !isAnalyzing
    {
      isBarcodeScanned := true;
      isAnalyzing := false;
    }
  }

  /** Whatever the step, a freshly reset panel keeps the button disabled, because none of the
      action flags is set; once every item of a checklist with distinct ids is ticked and the
      step's own action is finished, the button is enabled. */
  lemma ResetPanelGate(step: WorkStep, grade: Grade, weight: int)
    ensures !IsReadyToComplete({}, step, None, None, false, false)
    ensures ItemIdsDistinct(step.checkList) ==> IsReadyToComplete(
      ItemIds(step.checkList), step,
      if step.stepType == PreProcess then Some(PassingInspection(step.id, grade)) else None,
      if step.stepType == Standardize then Some(weight) else None,
      step.stepType == Pack, step.stepType == Ship)
  {
    if ItemIdsDistinct(step.checkList) {
      DistinctItemIdsCount(step.checkList);
    }
  }
}
