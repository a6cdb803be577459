/** The worker's ticket page: the stepper across the top, the choice of the step the action panel
    shows, and the completion request with its "all done" follow-up. */
module TicketDetail {
  import opened Builtins
  import opened Types
  import opened MockApi

  /** The stepper draws the entry at the ticket's current index as active. */
  predicate IsActive(idx: int, currentStepIndex: int)
  {
    idx == currentStepIndex
  }

  /** The stepper draws every entry before the ticket's current index as done. */
  predicate IsDone(idx: int, currentStepIndex: int)
  {
    idx < currentStepIndex
  }

  /** No stepper entry is drawn both active and done. */
  lemma ActiveAndDoneExclusive(idx: int, currentStepIndex: int)
    ensures !(IsActive(idx, currentStepIndex) && IsDone(idx, currentStepIndex))
  {
  }

  /** The indices below `m` that the stepper draws as done for current index `m` number `m`. */
  lemma {:induction false} DoneCount(m: nat)
    decreases m
    ensures |set idx | 0 <= idx < m && IsDone(idx, m)| == m
  {
    if m > 0 {
      var p := m - 1;
      DoneCount(p);
      assert (set idx | 0 <= idx < m && IsDone(idx, m)) == (set idx | 0 <= idx < p && IsDone(idx, p)) + {p};
    }
  }

  /** With the current index in range, exactly one entry is active, and the done entries are
      exactly the ones before it, as many as the current index. */
  lemma StepperClassification(n: nat, currentStepIndex: int)
    requires 0 <= currentStepIndex < n
    ensures (set idx | 0 <= idx < n && IsActive(idx, currentStepIndex)) == {currentStepIndex}
    ensures |set idx | 0 <= idx < n && IsActive(idx, currentStepIndex)| == 1
    ensures |set idx | 0 <= idx < n && IsDone(idx, currentStepIndex)| == currentStepIndex
  {
    assert currentStepIndex in set idx | 0 <= idx < n && IsActive(idx, currentStepIndex);
    DoneCount(currentStepIndex);
    assert (set idx | 0 <= idx < n && IsDone(idx, currentStepIndex)) == set idx | 0 <= idx < currentStepIndex && IsDone(idx, currentStepIndex);
  }

  /** On a ticket that keeps the progression invariant and is not done, the stepper shows each
      step's real status: active is in progress, done is done, the rest are pending. Once the ticket
      is done, the last step is still drawn active although it is done. */
  lemma StepperMatchesStatus(t: WorkTicket, idx: int)
    requires Progressing(t)
    requires 0 <= idx < |t.steps|
    ensures t.status != TicketDone ==>
      && (IsActive(idx, t.currentStepIndex) <==> t.steps[idx].status == InProgress)
      && (IsDone(idx, t.currentStepIndex) <==> t.steps[idx].status == StepDone)
      && (!IsActive(idx, t.currentStepIndex) && !IsDone(idx, t.currentStepIndex) <==> t.steps[idx].status == Pending)
    ensures t.status == TicketDone ==>
      && t.steps[idx].status == StepDone
      && (IsActive(idx, t.currentStepIndex) <==> idx == |t.steps| - 1)
  {
  }

  /** The stepper's label for a stage; anything not matched earlier is shown as shipping. */
  function StepLabel(t: StepType): string
  {
    if t == PreProcess then "전처리"
    else if t == Standardize then "규격화"
    else if t == Pack then "포장"
    else "출고"
  }

  /** The four stages get four different labels, the shipping one being the fallback. */
  lemma StepLabelsDistinct()
    ensures forall t, u :: t != u ==> StepLabel(t) != StepLabel(u)
    ensures StepLabel(Ship) == "출고"
  {
    forall t, u | t != u ensures StepLabel(t) != StepLabel(u) {
      assert StepLabel(t)[0] != StepLabel(u)[0] || StepLabel(t)[1] != StepLabel(u)[1];
    }
  }

  /** `ticket.steps[ticket.currentStepIndex]`: `undefined` when the index is out of range. */
  function CurrentStep(t: WorkTicket): (r: Option<WorkStep>)
    ensures r.Some? <==> 0 <= t.currentStepIndex < |t.steps|
    ensures r.Some? ==> r.value == t.steps[t.currentStepIndex] && r.value in t.steps
  {
    if 0 <= t.currentStepIndex < |t.steps| then Some(t.steps[t.currentStepIndex]) else None
  }

  /** The ids `mutationFn` passes to `completeStep`, or nothing when there is no ticket or no
      current step. */
  function CompletionRequest(ticket: Option<WorkTicket>): (r: Option<(string, string)>)
    ensures r.None? <==> ticket.None? || CurrentStep(ticket.value).None?
    ensures r.Some? ==> r.value == (ticket.value.id, CurrentStepId(ticket.value))
  {
    if ticket.None? then None
    else match CurrentStep(ticket.value)
      case None => None
      case Some(step) => Some((ticket.value.id, step.id))
  }

  /** Whether `onSuccess` shows the "all done" alert and returns to the list: only when the step
      that was completed is the shipping one. */
  predicate ShowsAllDone(completed: Option<WorkStep>)
  {
    completed.Some? && completed.value.stepType == Ship
  }

  /** On a ticket with the four documented stages under the invariant, the shipping step is the
      current one only at the last index, so the alert follows exactly the completion that ends the ticket. */
  lemma AllDoneOnlyAtLastStage(t: WorkTicket, now: string)
    requires Progressing(t) && HasFourStages(t)
    ensures ShowsAllDone(CurrentStep(t)) <==> t.currentStepIndex == 3
    ensures ShowsAllDone(CurrentStep(t)) ==>
      var r := CompleteInTicket(t, CurrentStepId(t), now);
      && r.status == TicketDone
      && forall k :: 0 <= k < |r.steps| ==> r.steps[k].status == StepDone
  {
    CompleteCurrentAdvances(t, now);
  }

  /** A press of the enabled complete button: `mutationFn` followed, if its promise settles, by
      `onSuccess`. `ticket` is what `getTicketDetail` handed the page, so the store's own object.
      `settled` tells whether `onSuccess` runs; `allDone` whether it raises the alert and navigates. */
  method PressComplete(store: Store, ticket: Option<Ticket>, now: string) returns (settled: bool, allDone: bool)
    requires store.Valid()
    requires ticket.Some? ==>
      0 <= TicketIndex(store.tickets, ticket.value.id) && ticket.value == store.tickets[TicketIndex(store.tickets, ticket.value.id)]
    modifies store.tickets
    ensures ticket.None? ==> settled && !allDone
    ensures forall k :: 0 <= k < |store.tickets| && (ticket.None? || store.tickets[k] != ticket.value) ==>
      unchanged(store.tickets[k])
    ensures ticket.Some? && CurrentStep(old(ticket.value.Snapshot())).None? ==>
      settled && !allDone && unchanged(ticket.value)
    ensures ticket.Some? && CurrentStep(old(ticket.value.Snapshot())).Some? ==>
      && settled
      && ticket.value.Snapshot() == CompleteInTicket(old(ticket.value.Snapshot()), CurrentStepId(old(ticket.value.Snapshot())), now)
      && allDone == (old(ticket.value.steps[ticket.value.currentStepIndex].stepType) == Ship)
    ensures ticket.Some? && Progressing(old(ticket.value.Snapshot())) ==>
      && ticket.value.Snapshot() == AdvanceAt(old(ticket.value.Snapshot()), old(ticket.value.currentStepIndex), now)
      && Progressing(ticket.value.Snapshot())
    ensures ticket.Some? && Progressing(old(ticket.value.Snapshot())) && HasFourStages(old(ticket.value.Snapshot())) && allDone ==>
      ticket.value.status == TicketDone
  {
    var shown := if ticket.None? then None else Some(ticket.value.Snapshot());
    var request := CompletionRequest(shown);
    if request.None? {
      return true, false;
    }
    var before := shown.value;
    var currentStep := CurrentStep(before);
    assert before.steps[before.currentStepIndex].id == request.value.1;
    settled := store.CompleteStep(request.value.0, request.value.1, now);
    allDone := settled && ShowsAllDone(currentStep);
    if Progressing(before) {
      CompleteCurrentAdvances(before, now);
      CompleteCurrentPreserves(before, now);
      if HasFourStages(before) {
        AllDoneOnlyAtLastStage(before, now);
      }
    }
  }
}
