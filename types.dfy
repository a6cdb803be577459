/** The shared enumerations and records of the work-ticket application. */
module Types {
  import opened Builtins

  /** The four processing stages a ticket goes through, in this order. */
  datatype StepType = PreProcess | Standardize | Pack | Ship

  /** The overall state of a work ticket. */
  datatype TicketStatus = Ready | Working | TicketDone | Hold

  /** The state of one processing stage. */
  datatype StepStatus = Pending | InProgress | StepDone

  /** The size grade a specification targets. */
  datatype Grade = S | M | L

  /** Whether a product is on sale. */
  datatype ProductStatus = Active | Inactive

  datatype Product = Product(
    id: string,
    name: string,
    category: string,
    standard: string,
    status: ProductStatus,
    imageUrl: Option<string>)

  /** Target grade, weight and tolerance (in grams) and the defect rules of an order. */
  datatype Spec = Spec(
    id: string,
    productId: string,
    grade: Grade,
    targetWeight: int,
    tolerance: int,
    defectRules: seq<string>)

  /** One manual confirmation item of a step's checklist. */
  datatype CheckItem = CheckItem(id: string, text: string, checked: bool)

  datatype WorkStep = WorkStep(
    id: string,
    ticketId: string,
    stepType: StepType,
    status: StepStatus,
    startedAt: Option<string>,
    completedAt: Option<string>,
    checkList: seq<CheckItem>,
    photos: seq<string>)

  datatype WorkTicket = WorkTicket(
    id: string,
    orderId: string,
    product: Product,
    targetSpec: Spec,
    totalQuantity: int,
    status: TicketStatus,
    currentStepIndex: int,
    steps: seq<WorkStep>,
    createdAt: string)

  /** The verdict of the (simulated) vision inspection of a step. */
  datatype AiInspectionResult = AiInspectionResult(
    stepId: string,
    isPass: bool,
    score: int,
    defectType: Option<string>,
    guideText: string)

  datatype Trend = Up | Down | Neutral

  /** One card of the admin dashboard; `title` is the source's `label` field (`label` is a Dafny keyword). */
  datatype DashboardStat = DashboardStat(title: string, value: string, trend: Trend)

  /** The stages in processing order. */
  const StepOrder: seq<StepType> := [PreProcess, Standardize, Pack, Ship]

  /** The name under which a stage appears in the source's string union. */
  function StepTypeName(t: StepType): (r: string)
    ensures |r| >= 4
  {
    match t
    case PreProcess => "PRE_PROCESS"
    case Standardize => "STANDARDIZE"
    case Pack => "PACK"
    case Ship => "SHIP"
  }

  /** The grade as the source's string union spells it. */
  function GradeName(g: Grade): (r: string)
    ensures |r| == 1
  {
    match g
    case S => "S"
    case M => "M"
    case L => "L"
  }

  /** The position of a stage in the processing order. */
  function StepPosition(t: StepType): (i: nat)
    ensures i < |StepOrder| && StepOrder[i] == t
  {
    match t
    case PreProcess => 0
    case Standardize => 1
    case Pack => 2
    case Ship => 3
  }

  /** There are exactly four stages, each appearing once in the processing order, under four distinct names. */
  lemma StepTypesAreFour()
    ensures |StepOrder| == 4
    ensures forall t: StepType :: t in StepOrder
    ensures forall i, j :: 0 <= i < j < |StepOrder| ==> StepOrder[i] != StepOrder[j]
    ensures forall t, u :: t != u ==> StepTypeName(t) != StepTypeName(u)
  {
    forall t: StepType ensures t in StepOrder {
      assert StepOrder[StepPosition(t)] == t;
    }
    forall t, u | t != u ensures StepTypeName(t) != StepTypeName(u) {
      assert StepTypeName(t)[1] != StepTypeName(u)[1] || |StepTypeName(t)| != |StepTypeName(u)|;
    }
  }

  /** The documented range of `currentStepIndex`. */
  predicate DocumentedStepIndex(i: int)
  {
    0 <= i <= 3
  }

  /** The documented shape of a ticket's step list: the four stages in processing order. */
  predicate HasFourStages(t: WorkTicket)
  {
    |t.steps| == 4 && forall i :: 0 <= i < 4 ==> t.steps[i].stepType == StepOrder[i]
  }

  /** The documented range of an inspection score. */
  predicate DocumentedScore(r: AiInspectionResult)
  {
    0 <= r.score <= 100
  }
}
