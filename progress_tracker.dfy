/**
  * The pipeline progress card: the status of each displayed step, computed
  * from the current step by comparing positions in a fixed step order, and
  * the estimated remaining minutes.
  */
module ProgressTracker {
  import opened Wrappers

  datatype StepStatus = Pending | Processing | Completed | Error

  /** The order the status comparison uses; `complete` comes after every displayed step. */
  const StepOrder: seq<string> := ["upload", "transcription", "dubbing", "rendering", "complete"]

  /** The steps the card shows, in display order. */
  const DisplayedSteps: seq<string> := ["upload", "transcription", "dubbing", "rendering"]

  const CompleteStep: string := "complete"

  /** The values the current step may take, besides null. */
  datatype Step = Upload | Transcription | Dubbing | Rendering | Complete

  function StepId(step: Step): (id: string)
    ensures id in StepOrder
    ensures id == CompleteStep <==> step == Complete
  {
    match step
    case Upload => "upload"
    case Transcription => "transcription"
    case Dubbing => "dubbing"
    case Rendering => "rendering"
    case Complete => "complete"
  }

  /** `xs.indexOf(x)`: the first position of `x`, or -1. */
  function IndexOf(xs: seq<string>, x: string): (i: int)
    ensures -1 <= i < |xs|
    ensures i >= 0 ==> xs[i] == x && forall j :: 0 <= j < i ==> xs[j] != x
    ensures i == -1 <==> x !in xs
  {
    if xs == [] then -1
    else if xs[0] == x then 0
    else
      var rest := IndexOf(xs[1..], x);
      if rest == -1 then -1 else rest + 1
  }

  /** getStepStatus; a null or empty current step counts as no step. */
  function GetStepStatus(stepId: string, currentStep: Option<string>): (s: StepStatus)
    ensures s != Error
    ensures currentStep.None? || currentStep.value !in StepOrder ==> s == Pending
  {
    var currentIndex := if currentStep.Some? && currentStep.value != "" then IndexOf(StepOrder, currentStep.value) else -1;
    var stepIndex := IndexOf(StepOrder, stepId);
    if currentIndex == -1 then Pending
    else if stepIndex < currentIndex then Completed
    else if stepIndex == currentIndex then Processing
    else Pending
  }

  /** Against a known current step, a known step is completed before it, processing at it, pending after it. */
  lemma StepStatusFollowsOrder(i: nat, j: nat)
    requires i < |StepOrder| && j < |StepOrder|
    ensures GetStepStatus(StepOrder[i], Some(StepOrder[j])) ==
              if i < j then Completed else if i == j then Processing else Pending
  {
    StepOrderDistinct(i);
    StepOrderDistinct(j);
  }

  lemma StepOrderDistinct(i: nat)
    requires i < |StepOrder|
    ensures IndexOf(StepOrder, StepOrder[i]) == i
  {
    assert StepOrder[0] == "upload" && StepOrder[1] == "transcription" && StepOrder[2] == "dubbing";
    assert StepOrder[3] == "rendering" && StepOrder[4] == "complete";
  }

  /** An unknown step id sits at -1, before every known current step, so it shows as completed. */
  lemma UnknownStepShowsCompleted(stepId: string, current: string)
    requires stepId !in StepOrder && current in StepOrder
    ensures GetStepStatus(stepId, Some(current)) == Completed
  {
  }

  /** The statuses of the displayed steps, as the card's literal list of calls. */
  function StepStatuses(currentStep: Option<string>): (statuses: seq<StepStatus>)
    ensures |statuses| == |DisplayedSteps|
    ensures Error !in statuses
  {
    [GetStepStatus("upload", currentStep), GetStepStatus("transcription", currentStep),
     GetStepStatus("dubbing", currentStep), GetStepStatus("rendering", currentStep)]
  }

  function Repeat(s: StepStatus, n: nat): (r: seq<StepStatus>)
    ensures |r| == n && forall i :: 0 <= i < n ==> r[i] == s
  {
    seq(n, _ => s)
  }

  /** With no (or an unknown) current step, every displayed step is pending. */
  lemma NoCurrentStepAllPending(currentStep: Option<string>)
    requires currentStep.None? || currentStep.value !in StepOrder
    ensures StepStatuses(currentStep) == Repeat(Pending, 4)
  {
  }

  /** At `complete`, all four displayed steps are completed and none is processing. */
  lemma CompleteAllCompleted(currentStep: Option<string>)
    requires currentStep == Some(CompleteStep)
    ensures StepStatuses(currentStep) == Repeat(Completed, 4)
  {
    assert currentStep == Some(StepOrder[4]);
    StepStatusFollowsOrder(0, 4);
    StepStatusFollowsOrder(1, 4);
    StepStatusFollowsOrder(2, 4);
    StepStatusFollowsOrder(3, 4);
  }

  /** At the k-th displayed step: k completed, then exactly one processing, then pending. */
  lemma KthStepShape(k: nat)
    requires k < |DisplayedSteps|
    ensures StepStatuses(Some(DisplayedSteps[k])) == Repeat(Completed, k) + [Processing] + Repeat(Pending, 3 - k)
  {
    var statuses := StepStatuses(Some(DisplayedSteps[k]));
    var expected := Repeat(Completed, k) + [Processing] + Repeat(Pending, 3 - k);
    forall i | 0 <= i < 4
      ensures statuses[i] == expected[i]
    {
      assert DisplayedSteps[i] == StepOrder[i] && DisplayedSteps[k] == StepOrder[k];
      StepStatusFollowsOrder(i, k);
    }
  }

  /** A step held by the video store never shows as unknown: some displayed step is processing exactly until `complete`, when all are completed. */
  lemma StoreStepStatuses(step: Step)
    ensures Processing in StepStatuses(Some(StepId(step))) <==> step != Complete
    ensures step == Complete <==> StepStatuses(Some(StepId(step))) == Repeat(Completed, 4)
  {
    if step == Complete {
      assert StepId(step) == CompleteStep;
      CompleteAllCompleted(Some(CompleteStep));
      NoProcessingWhenAllCompleted();
    } else {
      var k := DisplayedPosition(step);
      ProcessingAt(k);
    }
  }

  lemma NoProcessingWhenAllCompleted()
    ensures Processing !in Repeat(Completed, 4)
  {
  }

  function DisplayedPosition(step: Step): (k: nat)
    requires step != Complete
    ensures k < |DisplayedSteps| && DisplayedSteps[k] == StepId(step)
  {
    match step case Upload => 0 case Transcription => 1 case Dubbing => 2 case Rendering => 3
  }

  lemma ProcessingAt(k: nat)
    requires k < |DisplayedSteps|
    ensures Processing in StepStatuses(Some(DisplayedSteps[k]))
    ensures StepStatuses(Some(DisplayedSteps[k])) != Repeat(Completed, 4)
  {
    KthStepShape(k);
    var statuses := StepStatuses(Some(DisplayedSteps[k]));
    assert statuses[k] == Processing;
    assert Repeat(Completed, 4)[k] == Completed;
  }

  /** `Math.ceil` on a real. */
  function Ceil(x: real): (c: int)
    ensures (c - 1) as real < x <= c as real
  {
    -((-x).Floor)
  }

  /** The remaining-time line: shown only for a current step other than `complete`. */
  function RemainingMinutes(currentStep: Option<string>, progress: real): (minutes: Option<int>)
    ensures minutes.Some? <==> currentStep.Some? && currentStep.value != "" && currentStep.value != CompleteStep
    ensures minutes.Some? ==> (minutes.value - 1) as real < (100.0 - progress) / 10.0 <= minutes.value as real
  {
    if currentStep.Some? && currentStep.value != "" && currentStep.value != CompleteStep
    then Some(Ceil((100.0 - progress) / 10.0))
    else None
  }

  lemma RemainingMinutesEnds(step: string)
    requires step != "" && step != CompleteStep
    ensures RemainingMinutes(Some(step), 0.0) == Some(10)
    ensures RemainingMinutes(Some(step), 100.0) == Some(0)
  {
  }

  /** More progress never means more minutes left. */
  lemma RemainingMinutesMonotone(step: string, p: real, q: real)
    requires step != "" && step != CompleteStep && p <= q
    ensures RemainingMinutes(Some(step), q).value <= RemainingMinutes(Some(step), p).value
  {
  }
}
