/** The in-memory mock back end: seed data, the step list every ticket gets, the lookups, and the
    step-completion state machine that mutates a ticket in place. */
module MockApi {
  import opened Builtins
  import opened Types

  // ---------------------------------------------------------------------------
  // Seed data
  // ---------------------------------------------------------------------------

  const ProductTomato: Product := Product("1", "완숙 토마토", "과채류", "M/L", Active, None)
  const ProductApple: Product := Product("2", "청송 사과", "과채류", "S/M/L", Active, None)
  const ProductMandarine: Product := Product("3", "제주 감귤", "과채류", "S", Inactive, None)

  /** The product list the admin pages start from. */
  const MockProducts: seq<Product> := [ProductTomato, ProductApple, ProductMandarine]

  const SpecTomatoM: Spec := Spec("s1", "p1", M, 5000, 100, ["표면 20% 이상 멍", "검은 반점", "꼭지 이탈"])
  const SpecAppleL: Spec := Spec("s2", "p2", L, 10000, 200, ["찍힘", "부패", "색상 미달", "병충해 흔적"])

  /** The three dashboard cards. */
  const MockStats: seq<DashboardStat> := [
    DashboardStat("금일 주문 접수", "150건", Up),
    DashboardStat("처리 완료", "120건", Up),
    DashboardStat("공정 병목", "포장 단계", Down)
  ]

  // ---------------------------------------------------------------------------
  // Step creation
  // ---------------------------------------------------------------------------

  /** The id of the step at position `idx` of a ticket: `step-<ticketId>-<idx>`. */
  function StepId(ticketId: string, idx: nat): string
  {
    "step-" + ticketId + "-" + Decimal(idx)
  }

  /** The id of checklist item `n` of step `idx` of a ticket: `chk-<ticketId>-<idx>-<n>`. */
  function CheckItemId(ticketId: string, idx: nat, n: nat): string
  {
    "chk-" + ticketId + "-" + Decimal(idx) + "-" + Decimal(n)
  }

  /** For one-digit indices the id's last character is the index digit, so different indices give different ids. */
  lemma StepIdLastChar(ticketId: string, idx: nat)
    requires idx < 10
    ensures |StepId(ticketId, idx)| == |ticketId| + 7
    ensures StepId(ticketId, idx)[|ticketId| + 6] == DigitChar(idx)
  {
    assert StepId(ticketId, idx) == ("step-" + ticketId + "-") + [DigitChar(idx)];
  }

  /** No two steps of the list share an id. */
  predicate StepIdsDistinct(steps: seq<WorkStep>)
  {
    forall i, j :: 0 <= i < j < |steps| ==> steps[i].id != steps[j].id
  }

  /** The step at position `idx` of a new ticket: the first one is in progress, the others wait. */
  function NewStep(ticketId: string, idx: nat): WorkStep
    requires idx < 4
  {
    var t := StepOrder[idx];
    WorkStep(
      StepId(ticketId, idx), ticketId, t,
      if idx == 0 then InProgress else Pending,
      None, None,
      [ CheckItem(CheckItemId(ticketId, idx, 1), StepTypeName(t) + " - 육안 검수 진행", false),
        CheckItem(CheckItemId(ticketId, idx, 2), StepTypeName(t) + " - 작업 기준 준수 확인", false) ],
      [])
  }

  /** The four steps every ticket starts with. */
  function CreateSteps(ticketId: string): (r: seq<WorkStep>)
    ensures |r| == 4
    ensures forall i :: 0 <= i < 4 ==>
      && r[i].stepType == StepOrder[i]
      && r[i].ticketId == ticketId
      && r[i].id == StepId(ticketId, i)
      && r[i].startedAt.None? && r[i].completedAt.None?
      && r[i].photos == []
      && |r[i].checkList| == 2
      && !r[i].checkList[0].checked && !r[i].checkList[1].checked
      && r[i].checkList[0].id != r[i].checkList[1].id
    ensures r[0].status == InProgress
    ensures forall i :: 1 <= i < 4 ==> r[i].status == Pending
    ensures StepIdsDistinct(r)
  {
    var r := seq(4, i requires 0 <= i < 4 => NewStep(ticketId, i));
    forall i | 0 <= i < 4
      ensures r[i].checkList[0].id != r[i].checkList[1].id
    {
      var p := "chk-" + ticketId + "-" + Decimal(i) + "-";
      assert r[i].checkList[0].id == p + [DigitChar(1)];
      assert r[i].checkList[1].id == p + [DigitChar(2)];
      assert (p + [DigitChar(1)])[|p|] != (p + [DigitChar(2)])[|p|];
    }
    forall i, j | 0 <= i < j < 4
      ensures r[i].id != r[j].id
    {
      StepIdLastChar(ticketId, i);
      StepIdLastChar(ticketId, j);
    }
    r
  }

  // ---------------------------------------------------------------------------
  // The step-progression state machine, on ticket values
  // ---------------------------------------------------------------------------

  /** The position of the first step with the given id, or -1 when the ticket has no such step. */
  function StepIndex(steps: seq<WorkStep>, stepId: string): (r: int)
    ensures -1 <= r < |steps|
    ensures r == -1 <==> forall k :: 0 <= k < |steps| ==> steps[k].id != stepId
    ensures 0 <= r ==> steps[r].id == stepId && forall k :: 0 <= k < r ==> steps[k].id != stepId
  {
    FindIndex(steps, (s: WorkStep) => s.id == stepId)
  }

  /** What completing the step at `i` does to a ticket: that step is done at time `now`; if a later
      step exists it starts and becomes current, otherwise the whole ticket is done. */
  function AdvanceAt(t: WorkTicket, i: nat, now: string): (r: WorkTicket)
    requires i < |t.steps|
    ensures r.id == t.id && r.orderId == t.orderId && r.product == t.product
    ensures r.targetSpec == t.targetSpec && r.totalQuantity == t.totalQuantity && r.createdAt == t.createdAt
    ensures |r.steps| == |t.steps|
    ensures r.steps[i] == t.steps[i].(status := StepDone, completedAt := Some(now))
    ensures i + 1 < |t.steps| ==>
      && r.steps[i + 1] == t.steps[i + 1].(status := InProgress)
      && r.currentStepIndex == i + 1
      && r.status == t.status
    ensures i + 1 == |t.steps| ==>
      r.status == TicketDone && r.currentStepIndex == t.currentStepIndex
    ensures forall k :: 0 <= k < |t.steps| && k != i && k != i + 1 ==> r.steps[k] == t.steps[k]
  {
    var steps := t.steps[i := t.steps[i].(status := StepDone, completedAt := Some(now))];
    if i < |t.steps| - 1 then
      t.(steps := steps[i + 1 := steps[i + 1].(status := InProgress)], currentStepIndex := i + 1)
    else
      t.(steps := steps, status := TicketDone)
  }

  /** The synchronous body of `completeStep` on the ticket it found: a step id the ticket does not
      have leaves the ticket as it was. */
  function CompleteInTicket(t: WorkTicket, stepId: string, now: string): (r: WorkTicket)
  {
    var i := StepIndex(t.steps, stepId);
    if i == -1 then t else AdvanceAt(t, i, now)
  }

  /** A step id the ticket does not have changes nothing. */
  lemma UnknownStepIsNoOp(t: WorkTicket, stepId: string, now: string)
    requires forall k :: 0 <= k < |t.steps| ==> t.steps[k].id != stepId
    ensures CompleteInTicket(t, stepId, now) == t
  {
  }

  /** The progression invariant: the steps before the current one are done, the ones after it
      wait, and the current one is in progress, or, once the ticket is done, the current one is the
      last step and is done as well. Step ids are distinct, so a step is found by its id. */
  predicate Progressing(t: WorkTicket)
  {
    && 0 <= t.currentStepIndex < |t.steps|
    && StepIdsDistinct(t.steps)
    && (forall k :: 0 <= k < t.currentStepIndex ==> t.steps[k].status == StepDone)
    && (forall k :: t.currentStepIndex < k < |t.steps| ==> t.steps[k].status == Pending)
    && (if t.status == TicketDone
        then t.currentStepIndex == |t.steps| - 1 && t.steps[t.currentStepIndex].status == StepDone
        else t.steps[t.currentStepIndex].status == InProgress)
  }

  /** Under the invariant at most one step is in progress: the current one, and only while the
      ticket is not done. */
  lemma AtMostOneInProgress(t: WorkTicket, k: int)
    requires Progressing(t)
    requires 0 <= k < |t.steps|
    ensures t.steps[k].status == InProgress <==> k == t.currentStepIndex && t.status != TicketDone
  {
  }

  /** The id of the step the ticket is on. */
  function CurrentStepId(t: WorkTicket): string
    requires 0 <= t.currentStepIndex < |t.steps|
  {
    t.steps[t.currentStepIndex].id
  }

  /** Completing the current step, as the ticket page does: under the invariant the step found is
      the current one, so the completion is a single-step advance. */
  lemma CompleteCurrentAdvances(t: WorkTicket, now: string)
    requires Progressing(t)
    ensures CompleteInTicket(t, CurrentStepId(t), now) == AdvanceAt(t, t.currentStepIndex, now)
  {
  }

  /** Completing the current step keeps the invariant. */
  lemma CompleteCurrentPreserves(t: WorkTicket, now: string)
    requires Progressing(t)
    ensures Progressing(CompleteInTicket(t, CurrentStepId(t), now))
  {
    CompleteCurrentAdvances(t, now);
    var r := AdvanceAt(t, t.currentStepIndex, now);
    forall i, j | 0 <= i < j < |r.steps| ensures r.steps[i].id != r.steps[j].id {
      assert r.steps[i].id == t.steps[i].id && r.steps[j].id == t.steps[j].id;
    }
  }

  /** Completion never changes which stage sits where, so a ticket with the documented four stages
      keeps them, and a current index in the documented range 0..3 stays in it, whichever step id
      is completed. */
  lemma CompletionKeepsStages(t: WorkTicket, stepId: string, now: string)
    requires HasFourStages(t)
    ensures HasFourStages(CompleteInTicket(t, stepId, now))
    ensures DocumentedStepIndex(t.currentStepIndex) ==>
      DocumentedStepIndex(CompleteInTicket(t, stepId, now).currentStepIndex)
  {
    var i := StepIndex(t.steps, stepId);
    if i != -1 {
      var r := AdvanceAt(t, i, now);
      forall k | 0 <= k < 4 ensures r.steps[k].stepType == StepOrder[k] {
        assert r.steps[k].stepType == t.steps[k].stepType;
      }
    }
  }

  /** A new ticket built around `CreateSteps`, with the status it is seeded with. */
  function NewTicket(id: string, orderId: string, product: Product, spec: Spec, quantity: int,
                     status: TicketStatus, createdAt: string): WorkTicket
  {
    WorkTicket(id, orderId, product, spec, quantity, status, 0, CreateSteps(id), createdAt)
  }

  /** A new ticket that is not already done satisfies the invariant and has the documented shape. */
  lemma NewTicketProgressing(id: string, orderId: string, product: Product, spec: Spec, quantity: int,
                             status: TicketStatus, createdAt: string)
    requires status != TicketDone
    ensures Progressing(NewTicket(id, orderId, product, spec, quantity, status, createdAt))
    ensures HasFourStages(NewTicket(id, orderId, product, spec, quantity, status, createdAt))
    ensures DocumentedStepIndex(NewTicket(id, orderId, product, spec, quantity, status, createdAt).currentStepIndex)
  {
  }

  /** Completing the current step once per timestamp, as successive visits to the ticket page do. */
  function CompleteCurrentSeq(t: WorkTicket, nows: seq<string>): (r: WorkTicket)
    requires Progressing(t)
    ensures Progressing(r) && |r.steps| == |t.steps|
    decreases |nows|
  {
    if |nows| == 0 then t
    else
      CompleteCurrentPreserves(t, nows[0]);
      CompleteCurrentSeq(CompleteInTicket(t, CurrentStepId(t), nows[0]), nows[1..])
  }

  /** Completing the current step as many times as there are steps left finishes the ticket:
      every step is done and the ticket is done. */
  lemma {:induction false} CompletingRemainingStepsFinishes(t: WorkTicket, nows: seq<string>)
    requires Progressing(t) && t.status != TicketDone
    requires |nows| == |t.steps| - t.currentStepIndex
    decreases |nows|
    ensures CompleteCurrentSeq(t, nows).status == TicketDone
    ensures forall k :: 0 <= k < |t.steps| ==> CompleteCurrentSeq(t, nows).steps[k].status == StepDone
  {
    CompleteCurrentAdvances(t, nows[0]);
    var next := CompleteInTicket(t, CurrentStepId(t), nows[0]);
    if |nows| > 1 {
      CompletingRemainingStepsFinishes(next, nows[1..]);
    } else {
      assert nows[1..] == [];
    }
  }

  /** Four completions of the current step take a new ticket from any status but done to a done ticket
      with all four steps done. */
  lemma FourCompletionsFinishNewTicket(id: string, orderId: string, product: Product, spec: Spec, quantity: int,
                                       status: TicketStatus, createdAt: string, nows: seq<string>)
    requires status != TicketDone && |nows| == 4
    ensures var r := CompleteCurrentSeq(NewTicket(id, orderId, product, spec, quantity, status, createdAt), nows);
      && r.status == TicketDone
      && |r.steps| == 4
      && forall k :: 0 <= k < 4 ==> r.steps[k].status == StepDone
  {
    NewTicketProgressing(id, orderId, product, spec, quantity, status, createdAt);
    CompletingRemainingStepsFinishes(NewTicket(id, orderId, product, spec, quantity, status, createdAt), nows);
  }

  /** `completeStep` does not check that the step is the current one: completing a step two or
      more places before the current one re-opens the step after it while the current one stays
      in progress, so two steps are in progress and the invariant is lost. */
  lemma OutOfOrderCompletionBreaksInvariant(t: WorkTicket, j: nat, now: string)
    requires Progressing(t) && t.status != TicketDone
    requires j + 1 < t.currentStepIndex
    ensures var r := CompleteInTicket(t, t.steps[j].id, now);
      && r.steps[j + 1].status == InProgress
      && r.steps[t.currentStepIndex].status == InProgress
      && !Progressing(r)
  {
    assert StepIndex(t.steps, t.steps[j].id) == j;
  }

  // ---------------------------------------------------------------------------
  // The live store: tickets are objects that completeStep mutates in place
  // ---------------------------------------------------------------------------

  /** A work ticket object of the mock database; only its status, current step index and steps change. */
  class Ticket {
    const id: string
    const orderId: string
    const product: Product
    const targetSpec: Spec
    const totalQuantity: int
    const createdAt: string
    var status: TicketStatus
    var currentStepIndex: int
    var steps: seq<WorkStep>

    /** A seed ticket, still without steps. */
    constructor (id: string, orderId: string, product: Product, targetSpec: Spec, totalQuantity: int,
                 status: TicketStatus, createdAt: string)
      ensures Snapshot() == WorkTicket(id, orderId, product, targetSpec, totalQuantity, status, 0, [], createdAt)
    {
      this.id, this.orderId, this.product, this.targetSpec := id, orderId, product, targetSpec;
      this.totalQuantity, this.createdAt := totalQuantity, createdAt;
      this.status, this.currentStepIndex, this.steps := status, 0, [];
    }

    /** The ticket's current value. */
    function Snapshot(): (w: WorkTicket)
      reads this
      ensures w.id == id && w.steps == steps && w.status == status && w.currentStepIndex == currentStepIndex
    {
      WorkTicket(id, orderId, product, targetSpec, totalQuantity, status, currentStepIndex, steps, createdAt)
    }
  }

  /** `MOCK_TICKETS.find(t => t.id === id)`, as an index (-1 when absent). */
  function TicketIndex(tickets: seq<Ticket>, id: string): (r: int)
    ensures -1 <= r < |tickets|
    ensures r == -1 <==> forall k :: 0 <= k < |tickets| ==> tickets[k].id != id
    ensures 0 <= r ==> tickets[r].id == id && forall k :: 0 <= k < r ==> tickets[k].id != id
  {
    FindIndex(tickets, (t: Ticket) => t.id == id)
  }

  /** The first product with the given id, or none when no product has it. */
  function ProductById(products: seq<Product>, id: string): (r: Option<Product>)
    ensures r.None? <==> forall k :: 0 <= k < |products| ==> products[k].id != id
    ensures r.Some? ==> exists k :: 0 <= k < |products| && products[k] == r.value && r.value.id == id
                                    && forall j :: 0 <= j < k ==> products[j].id != id
  {
    Find(products, (p: Product) => p.id == id)
  }

  /** The mock database and the `api` object that serves it. */
  class Store {
    const tickets: seq<Ticket>
    const products: seq<Product>
    const stats: seq<DashboardStat>

    /** The ticket array holds distinct objects. */
    ghost predicate Valid()
    {
      forall i, j :: 0 <= i < j < |tickets| ==> tickets[i] != tickets[j]
    }

    /** The two seed tickets, each given its four steps at start-up; each ticket's creation time is
        read from the clock separately, so the two times are inputs of their own. */
    constructor (createdAt101: string, createdAt102: string)
      ensures Valid()
      ensures |tickets| == 2 && fresh(tickets[0]) && fresh(tickets[1])
      ensures tickets[0].Snapshot() == NewTicket("t-101", "ord-2024-001", ProductTomato, SpecTomatoM, 50, Working, createdAt101)
      ensures tickets[1].Snapshot() == NewTicket("t-102", "ord-2024-002", ProductApple, SpecAppleL, 20, Ready, createdAt102)
      ensures products == MockProducts && stats == MockStats
    {
      var t101 := new Ticket("t-101", "ord-2024-001", ProductTomato, SpecTomatoM, 50, Working, createdAt101);
      var t102 := new Ticket("t-102", "ord-2024-002", ProductApple, SpecAppleL, 20, Ready, createdAt102);
      tickets := [t101, t102];
      products := MockProducts;
      stats := MockStats;
      new;
      InitializeSteps();
    }

    /** The start-up pass that gives every seed ticket its four fresh steps, one ticket at a time. */
    method InitializeSteps()
      requires Valid()
      modifies tickets
      ensures forall k :: 0 <= k < |tickets| ==>
        tickets[k].Snapshot() == old(tickets[k].Snapshot()).(steps := CreateSteps(tickets[k].id))
    {
      for i := 0 to |tickets|
        invariant forall k :: 0 <= k < i ==>
          tickets[k].Snapshot() == old(tickets[k].Snapshot()).(steps := CreateSteps(tickets[k].id))
        invariant forall k :: i <= k < |tickets| ==> tickets[k].Snapshot() == old(tickets[k].Snapshot())
      {
        tickets[i].steps := CreateSteps(tickets[i].id);
      }
    }

    /** `getTickets`: a copy of the ticket array, the same objects in the same order. */
    method GetTickets() returns (r: seq<Ticket>)
      ensures |r| == |tickets| && forall k :: 0 <= k < |r| ==> r[k] == tickets[k]
    {
      r := tickets[..];
    }

    /** `getTicketDetail`: the first ticket with that id, or `undefined`. */
    method GetTicketDetail(id: string) returns (r: Option<Ticket>)
      ensures r.None? <==> forall k :: 0 <= k < |tickets| ==> tickets[k].id != id
      ensures r.Some? ==> r.value == tickets[TicketIndex(tickets, id)] && r.value.id == id
    {
      var i := TicketIndex(tickets, id);
      r := if i == -1 then None else Some(tickets[i]);
    }

    /** `getProductDetail`: the first product with that id, or `undefined`. */
    method GetProductDetail(id: string) returns (r: Option<Product>)
      ensures r == ProductById(products, id)
      ensures r.Some? ==> r.value.id == id && r.value in products
    {
      r := ProductById(products, id);
    }

    /** `getDashboardStats`: a copy of the stats array. */
    method GetDashboardStats() returns (r: seq<DashboardStat>)
      ensures r == stats
    {
      r := stats[..];
    }

    /** The synchronous body of `completeStep`. `now` stands for the completion time; `resolved`
        tells whether the promise settles, which it does only when both lookups succeed. Only the
        matched ticket object changes. */
    method CompleteStep(ticketId: string, stepId: string, now: string) returns (resolved: bool)
      requires Valid()
      modifies tickets
      ensures var ti := TicketIndex(tickets, ticketId);
        && (ti == -1 ==> !resolved)
        && (ti != -1 ==>
              && resolved == (StepIndex(old(tickets[ti].steps), stepId) != -1)
              && tickets[ti].Snapshot() == CompleteInTicket(old(tickets[ti].Snapshot()), stepId, now))
      ensures forall k :: 0 <= k < |tickets| && k != TicketIndex(tickets, ticketId) ==> unchanged(tickets[k])
    {
      var ti := TicketIndex(tickets, ticketId);
      if ti == -1 {
        return false;
      }
      var ticket := tickets[ti];
      var stepIndex := StepIndex(ticket.steps, stepId);
      if stepIndex == -1 {
        return false;
      }
      ticket.steps := ticket.steps[stepIndex := ticket.steps[stepIndex].(status := StepDone)];
      ticket.steps := ticket.steps[stepIndex := ticket.steps[stepIndex].(completedAt := Some(now))];
      if stepIndex < |ticket.steps| - 1 {
        ticket.steps := ticket.steps[stepIndex + 1 := ticket.steps[stepIndex + 1].(status := InProgress)];
        ticket.currentStepIndex := stepIndex + 1;
      } else {
        ticket.status := TicketDone;
      }
      resolved := true;
    }
  }
}
