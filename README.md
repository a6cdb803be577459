# Work-ticket front end: a Dafny model

This project models the logic of a produce-distribution front end. A worker takes a work ticket
through four fixed stages: pre-process, standardize, pack, ship. An admin looks at dashboard
charts and edits a product list. All data lives in an in-memory mock back end.

The centre of the model is the step state machine of the mock API (`src/api/mock.ts`).
- Every ticket gets four steps.
- `completeStep` marks a step done and starts the next one.
- After the last step it marks the whole ticket done.

Around it sit:
- the completion gate of the step action panel;
- the stepper of the ticket page;
- the product list editor;
- the dashboard chart scaling;
- the chat widget's message log;
- the theme flag and its stored copy;
- the admin tab highlighting.

One Dafny module per source file:

| module | file | source |
|---|---|---|
| `Builtins` | builtins.dfy | JavaScript built-ins the code relies on: `find`, `findIndex`, `filter`, `${n}`, `startsWith`, `trim` |
| `Types` | types.dfy | src/types/index.ts |
| `MockApi` | mock_api.dfy | src/api/mock.ts |
| `StepAction` | step_action.dfy | src/components/worker/StepAction.tsx |
| `TicketDetail` | ticket_detail.dfy | src/pages/worker/TicketDetail.tsx |
| `ProductManage` | product_manage.dfy | src/pages/admin/ProductManage.tsx |
| `AdminDashboard` | admin_dashboard.dfy | src/pages/admin/AdminDashboard.tsx |
| `AICopilot` | ai_copilot.dfy | src/components/common/AICopilot.tsx |
| `ThemeContext` | theme_context.dfy | src/context/ThemeContext.tsx |
| `AdminLayout` | admin_layout.dfy | src/layouts/AdminLayout.tsx |

Form of the model:
- Records are datatypes.
- A ticket is a class `MockApi.Ticket`. `completeStep` changes its `status`, `currentStepIndex` and `steps` in place.
- `Ticket.Snapshot()` gives a ticket's value. The state machine is specified on that value:
  - `AdvanceAt` is one completion;
  - `CompleteInTicket` is the lookup followed by the completion;
  - `Progressing` is the invariant.
- React state cells become fields of small classes (`StepAction.Panel`, `ProductManage.ProductList`,
  `AdminDashboard.Dashboard`, `AICopilot.Chat`, `ThemeContext.ThemeProvider`). Each handler is a
  method on its class.
- A handler that starts a timer is split into two methods. The first runs up to the timer; the
  second is the timer's callback.

Behaviour of the code worth knowing:
- Completing the last step leaves `currentStepIndex` as it was. When the page completes the current step, the index therefore stays on the last step, and the current step is still defined.
- A ticket seeded as READY stays READY while its steps advance. Only the last completion changes the ticket status, to DONE.
- When a lookup in `completeStep` misses, the code returns before `resolve`, so the promise never settles. `Store.CompleteStep` reports this as `resolved == false`. The ticket page's `onSuccess` then never runs (`TicketDetail.PressComplete`'s `settled`).
- The dashboard flags the '포장' bar because of its label, not because of its value. `AdminDashboard.BottleneckChartShape` shows that for the constant data the flagged bar is also the tallest.

## Model

| member | source | states |
|---|---|---|
| `Types.StepTypesAreFour` | src/types/index.ts:2 | there are exactly four stages; the processing order lists each once; their names are distinct |
| `Types.StepPosition` | src/api/mock.ts:40 | every stage has a position in the fixed order `PRE_PROCESS, STANDARDIZE, PACK, SHIP` |
| `Builtins.Decimal` | src/api/mock.ts:43 | `${idx}` renders a one-digit index as that digit, and the last character of any rendering is the last digit |
| `MockApi.StepIdLastChar` | src/api/mock.ts:43 | a step id `step-<ticketId>-<idx>` ends with the index digit, right after the ticket id and a dash |
| `MockApi.CreateSteps` | src/api/mock.ts:39-54 | four steps typed in processing order; ids `step-<ticketId>-<idx>`; each carries its ticket's id; step 0 is IN_PROGRESS and the rest PENDING; no timestamps; no photos; two unchecked checklist items with distinct ids; step ids pairwise distinct |
| `MockApi.NewTicketProgressing` | src/api/mock.ts:59-87 | a seeded ticket that is not already done satisfies the progression invariant, has the four documented stages and an index in 0..3 |
| `MockApi.StepIndex` | src/api/mock.ts:125 | `findIndex` gives the first step with that id, or -1 exactly when no step has it |
| `MockApi.AdvanceAt` | src/api/mock.ts:129-139 | completing step i: i becomes DONE with `completedAt`; before the last step, i+1 becomes IN_PROGRESS, the index becomes i+1 and the status is unchanged; at the last step, the ticket becomes DONE and the index is unchanged; no other step and no other field changes |
| `MockApi.UnknownStepIsNoOp` | src/api/mock.ts:125-126 | a step id the ticket does not have leaves the ticket unchanged |
| `MockApi.AtMostOneInProgress` | src/api/mock.ts:129-139 | under the invariant a step is IN_PROGRESS exactly when it is the current one and the ticket is not done |
| `MockApi.CompleteCurrentAdvances` | src/api/mock.ts:125-139 | completing the current step's id finds the current index, so the completion is a single-step advance |
| `MockApi.CompleteCurrentPreserves` | src/api/mock.ts:125-139 | completing the current step keeps the invariant: steps before the current one DONE, later ones PENDING, the current one IN_PROGRESS, or the last one and DONE once the ticket is done |
| `MockApi.CompletionKeepsStages` | src/types/index.ts:46-47 | completion of any step id keeps the four stages in place, and a current index in 0..3 stays in 0..3 |
| `MockApi.CompleteCurrentSeq` | src/pages/worker/TicketDetail.tsx:24 | any number of completions of the current step keep the invariant and the number of steps |
| `MockApi.CompletingRemainingStepsFinishes` | src/api/mock.ts:133-139 | as many completions of the current step as there are steps left make every step DONE and the ticket DONE |
| `MockApi.FourCompletionsFinishNewTicket` | src/api/mock.ts:39-54 | four completions take a new ticket (READY, WORKING or HOLD) to DONE with all four steps DONE |
| `MockApi.OutOfOrderCompletionBreaksInvariant` | src/api/mock.ts:125-135 | there is no guard that the step is the current one: completing a step two or more places back re-opens the next step, so two steps are IN_PROGRESS |
| `MockApi.Ticket.constructor` | src/api/mock.ts:59-82 | a seed ticket: the given fields, index 0, no steps yet |
| `MockApi.Ticket.Snapshot` | src/types/index.ts:39-49 | the ticket object's value has its id, steps, status and index |
| `MockApi.TicketIndex` | src/api/mock.ts:122 | `find` on the tickets gives the first ticket with that id, or none exactly when no ticket has it |
| `MockApi.ProductById` | src/api/mock.ts:147 | the first product with that id, or `undefined` exactly when none has it |
| `MockApi.Store.constructor` | src/api/mock.ts:59-87 | two distinct ticket objects: t-101 (WORKING, tomato, 50) and t-102 (READY, apple, 20), each with its own creation time and `createSteps(id)`; the product and stats lists are the seeds |
| `MockApi.Store.InitializeSteps` | src/api/mock.ts:85-87 | every ticket's steps become `createSteps(ticket.id)` and nothing else changes |
| `MockApi.Store.GetTickets` | src/api/mock.ts:102-104 | a copy holding the same ticket objects in the same order |
| `MockApi.Store.GetTicketDetail` | src/api/mock.ts:107-112 | the first ticket object with that id, or `undefined` exactly when no ticket has it |
| `MockApi.Store.GetProductDetail` | src/api/mock.ts:145-150 | the first product with that id, or `undefined` |
| `MockApi.Store.GetDashboardStats` | src/api/mock.ts:115-117 | a copy of the three stats |
| `MockApi.Store.CompleteStep` | src/api/mock.ts:120-142 | an unknown ticket or step changes nothing and never settles; otherwise the matched ticket becomes `CompleteInTicket` of its old value and settles; no other ticket object changes |
| `StepAction.Toggled` | src/components/worker/StepAction.tsx:32-37 | toggling flips membership of `id` and leaves every other id's membership unchanged |
| `StepAction.ToggleTwiceRestores` | src/components/worker/StepAction.tsx:32-37 | toggling the same id twice restores the set |
| `StepAction.ToggleStaysWithinItems` | src/components/worker/StepAction.tsx:256 | toggling one of the step's own items keeps the selection within the step's item ids |
| `StepAction.DistinctItemIdsCount` | src/api/mock.ts:48-51 | a checklist with distinct ids has as many ids as items |
| `StepAction.TickingEveryItemChecksAll` | src/components/worker/StepAction.tsx:251-256 | ticking each item once, from a selection disjoint from the items, adds exactly the items' ids |
| `StepAction.ChecklistCompleteIffAllChecked` | src/components/worker/StepAction.tsx:95 | the count comparison holds exactly when every item is checked, given the selection only holds the step's own distinct ids |
| `StepAction.ActionGateIsOwnFlag` | src/components/worker/StepAction.tsx:97-101 | PRE_PROCESS is gated only by a passing AI result, STANDARDIZE only by a recorded weight, PACK only by the label flag, SHIP only by the scan flag |
| `StepAction.ResetPanelGate` | src/components/worker/StepAction.tsx:95-103 | after a reset the button is disabled for every step; with every item of a distinct-id checklist checked and the step's own action done it is enabled |
| `StepAction.PassingInspection` | src/components/worker/StepAction.tsx:47-52 | the vision result passes with score 98, no defect, the current step's id, and a score in the documented 0..100 |
| `StepAction.Panel.constructor` | src/components/worker/StepAction.tsx:13-21 | nothing checked, no result, no weight, no flags, not analysing, button disabled |
| `StepAction.Panel.ReceiveProps` | src/components/worker/StepAction.tsx:24-30 | a new step id resets the checked set, result, weight and both flags, which disables the button; `isAnalyzing` is not touched; the same id changes nothing else |
| `StepAction.Panel.ToggleCheck` | src/components/worker/StepAction.tsx:32-37 | the checked set becomes `Toggled` of the old one |
| `StepAction.Panel.StartPhotoUpload` | src/components/worker/StepAction.tsx:42-44 | analysing, and the previous result cleared |
| `StepAction.Panel.PhotoAnalysisDone` | src/components/worker/StepAction.tsx:45-54 | the passing result for the step is stored and analysis ends |
| `StepAction.Panel.StartWeighing` | src/components/worker/StepAction.tsx:60-61 | analysing |
| `StepAction.Panel.WeighingDone` | src/components/worker/StepAction.tsx:62-67 | the reading is recorded and analysis ends |
| `StepAction.Panel.StartPrintLabel` | src/components/worker/StepAction.tsx:73-74 | analysing |
| `StepAction.Panel.LabelPrinted` | src/components/worker/StepAction.tsx:75-78 | the label flag is set and analysis ends |
| `StepAction.Panel.StartScanBarcode` | src/components/worker/StepAction.tsx:84-85 | analysing |
| `StepAction.Panel.BarcodeScanned` | src/components/worker/StepAction.tsx:86-89 | the scan flag is set and analysis ends |
| `TicketDetail.ActiveAndDoneExclusive` | src/pages/worker/TicketDetail.tsx:68-69 | no index is both active and done |
| `TicketDetail.StepperClassification` | src/pages/worker/TicketDetail.tsx:67-69 | with the index in range, exactly one index is active and exactly the indices below it are done |
| `TicketDetail.StepperMatchesStatus` | src/pages/worker/TicketDetail.tsx:67-77 | under the invariant the stepper shows each step's real status; once the ticket is done, the last step is still drawn active |
| `TicketDetail.StepLabelsDistinct` | src/pages/worker/TicketDetail.tsx:78-80 | the four stages get four distinct labels, and the fallback label belongs to SHIP |
| `TicketDetail.CurrentStep` | src/pages/worker/TicketDetail.tsx:42 | the step at `currentStepIndex`, or `undefined` exactly when the index is out of range |
| `TicketDetail.CompletionRequest` | src/pages/worker/TicketDetail.tsx:21-24 | no request without a ticket or a current step; otherwise the ticket's id and its current step's id |
| `TicketDetail.AllDoneOnlyAtLastStage` | src/pages/worker/TicketDetail.tsx:31-34 | on a four-stage ticket under the invariant the alert shows exactly at index 3, and that completion leaves the ticket and every step DONE |
| `TicketDetail.PressComplete` | src/pages/worker/TicketDetail.tsx:20-35 | no ticket or no current step: settles and does nothing; otherwise it sends the request's ids, settles, the ticket becomes `CompleteInTicket` of its old value for the current step's id, and the alert fires exactly when that step is SHIP; under the invariant that is a single-step advance that keeps the invariant, and the alert leaves the ticket DONE; no other ticket changes |
| `ProductManage.NewProduct` | src/pages/admin/ProductManage.tsx:34-40 | the new product has the typed name, category '미분류', standard '표준 없음' and status Active |
| `ProductManage.WithoutId` | src/pages/admin/ProductManage.tsx:49 | no product with that id is left, and every product with another id stays |
| `ProductManage.WithoutIdSplits` | src/pages/admin/ProductManage.tsx:49 | deletion works piecewise on any split of the list, so the survivors keep their order |
| `ProductManage.WithoutAbsentId` | src/pages/admin/ProductManage.tsx:49 | deleting an id nobody has keeps the list |
| `ProductManage.DeleteUndoesAdd` | src/pages/admin/ProductManage.tsx:41-49 | deleting a just-added product's id gives the old list minus that id |
| `ProductManage.ToggledMenu` | src/pages/admin/ProductManage.tsx:62 | closes exactly when `id` is the open menu, and otherwise opens `id` |
| `ProductManage.ToggleMenuTwice` | src/pages/admin/ProductManage.tsx:62 | two toggles of one id restore a closed menu or that id's menu; from another row's open menu they end closed |
| `ProductManage.ProductList.constructor` | src/pages/admin/ProductManage.tsx:11-14 | starts with the mock products and no open menu |
| `ProductManage.ProductList.AddProduct` | src/pages/admin/ProductManage.tsx:31-43 | a cancelled or empty name keeps the list; otherwise exactly one new product is appended |
| `ProductManage.ProductList.DeleteProduct` | src/pages/admin/ProductManage.tsx:46-52 | a confirmed delete filters the id out and closes the menu; a declined one changes nothing |
| `ProductManage.ProductList.ToggleMenu` | src/pages/admin/ProductManage.tsx:60-63 | the open menu becomes `ToggledMenu` of the old one |
| `AdminDashboard.GetChartData` | src/pages/admin/AdminDashboard.tsx:30-56 | label and value lists of equal length; unknown titles give empty lists; '공정 병목' gives 전처리/규격화/포장/출고 with 5/8/25/10 |
| `AdminDashboard.CurrentChartData` | src/pages/admin/AdminDashboard.tsx:58 | there is a chart exactly when the selection is a non-empty title, and it is that title's chart table |
| `AdminDashboard.MaxOf` | src/pages/admin/AdminDashboard.tsx:62 | the maximum is one of the values and bounds them all |
| `AdminDashboard.MaxChartValue` | src/pages/admin/AdminDashboard.tsx:61-63 | never 0; 1 without a chart or values; the largest value otherwise; 1 when that largest value is 0 |
| `AdminDashboard.HeightPx` | src/pages/admin/AdminDashboard.tsx:66-160 | the bar is the larger of the value's share of 180 px and the 4 px minimum: it is one of the two and at least both; so at most 180 for values between 0 and the maximum, and exactly 180 for the maximum |
| `AdminDashboard.HeightMonotone` | src/pages/admin/AdminDashboard.tsx:158-160 | on one chart a larger value never gets a shorter bar |
| `AdminDashboard.BottleneckChartShape` | src/pages/admin/AdminDashboard.tsx:46-162 | only the '포장' bar of the bottleneck card is ever a danger bar; the bottleneck bars carry the stepper's labels in stage order; the danger bar is the unique full-height bar |
| `AdminDashboard.Dashboard.constructor` | src/pages/admin/AdminDashboard.tsx:17 | nothing selected |
| `AdminDashboard.Dashboard.SelectDefault` | src/pages/admin/AdminDashboard.tsx:24-28 | loaded, non-empty stats with no selection select the first title; otherwise the selection is unchanged |
| `AdminDashboard.Dashboard.Select` | src/pages/admin/AdminDashboard.tsx:108 | a click selects that card's title |
| `AdminDashboard.DefaultSelectionOfMockStats` | src/api/mock.ts:90-94 | with the mock stats the default card is '금일 주문 접수', whose chart has six bars |
| `AICopilot.ReplyText` | src/components/common/AICopilot.tsx:22 | the reply contains the user's text right after the rule reference |
| `AICopilot.IgnoredIffBlank` | src/components/common/AICopilot.tsx:12 | input is ignored exactly when every character is whitespace, the empty input included |
| `Builtins.TrimEmptyIffBlank` | src/components/common/AICopilot.tsx:12 | `trim()` gives the empty string exactly for whitespace-only input |
| `AICopilot.Chat.constructor` | src/components/common/AICopilot.tsx:5-9 | closed, the greeting as the only message, empty input |
| `AICopilot.Chat.Open` | src/components/common/AICopilot.tsx:32 | the window opens |
| `AICopilot.Chat.Close` | src/components/common/AICopilot.tsx:48 | the window closes |
| `AICopilot.Chat.SetInput` | src/components/common/AICopilot.tsx:72 | the input holds the typed text |
| `AICopilot.Chat.Send` | src/components/common/AICopilot.tsx:11-16 | blank input changes nothing; otherwise exactly one user message with the untrimmed text is appended, and the input is cleared |
| `AICopilot.Chat.ReplyArrives` | src/components/common/AICopilot.tsx:19-24 | exactly one AI message, quoting the question, is appended at the end |
| `ThemeContext.Encode` | src/context/ThemeContext.tsx:18 | writes "dark" or "light", and decoding it gives the flag back |
| `ThemeContext.StorageRoundTrip` | src/context/ThemeContext.tsx:13-18 | decode after encode is the identity; only "dark" decodes to dark; encode after decode keeps exactly the values "dark" and "light" |
| `ThemeContext.ThemeProvider.constructor` | src/context/ThemeContext.tsx:12-19 | the flag is decoded from storage and its encoding is written back |
| `ThemeContext.ThemeProvider.ToggleTheme` | src/context/ThemeContext.tsx:17-23 | the flag is negated and storage follows it |
| `ThemeContext.ToggleTwice` | src/context/ThemeContext.tsx:21-23 | two toggles restore both the flag and the stored string |
| `ThemeContext.UseTheme` | src/context/ThemeContext.tsx:33-39 | without a provider it throws the provider error; with one it returns it |
| `AdminLayout.ProductsTabPaths` | src/layouts/AdminLayout.tsx:33 | the products tab is highlighted exactly for '/admin/products' and the paths below it; '/admin/productsX' is not highlighted |
| `AdminLayout.AtMostOneTab` | src/layouts/AdminLayout.tsx:9-46 | for any path, at most one tab is highlighted |

## Left out

- Latency: the promise and `setTimeout` wrappers of the API and of the handlers are left out. Each handler's synchronous part and its timer callback are separate methods. Nothing orders or overlaps them, so two interleaved completions of one step are not modelled.
- Time, randomness and ids: `new Date().toISOString()` and `Date.now()` become parameters that may collide. So does the random scale reading with its `Math.floor`.
- Step aliasing: a ticket's steps are values inside the `Ticket` object. In the source they are objects that the ticket page also holds as `currentStep`. The page and its action panel only read their id, type and checklist, which never change.
- Dashboard numbers: bar heights are real numbers, not IEEE doubles. Chart values are integers, so `Math.max(...)` never sees NaN.
- React and the browser are left out: rendering, class names, React Query caching and invalidation, the `isPending` double-click guard, and routing. `navigate` and `alert` are reduced to the boolean `allDone`. `window.prompt` and `window.confirm` are inputs.
- Browser storage is the field `ThemeProvider.stored`, not real `localStorage`.
- The outside-click `mousedown` listener that closes the product menu (src/pages/admin/ProductManage.tsx:20-28) is left out.
- StepAction.Panel.PhotoAnalysisDone: uses the panel's current step and spec. The source's callback uses the ones captured when the photo was taken. The two differ only if the step changes during the analysis delay, and that case is not modelled. The same holds for the other timer callbacks, which only set flags.
- StepAction.Panel: the `!measuredWeight` display test, which hides a 0 g reading, is rendering. The gate uses `!== null` and is modelled.
- Pages that only display data or navigate are left out: src/pages/Landing.tsx, src/App.tsx, src/layouts/WorkerLayout.tsx, src/layouts/MobileLayout.tsx, src/pages/admin/AdminSettings.tsx, src/pages/admin/ProductDetail.tsx, src/components/worker/AiReportCard.tsx, src/pages/worker/WorkerHome.tsx.
- `DashboardStat.label` is the field `title` in the model, because `label` is a Dafny keyword.
