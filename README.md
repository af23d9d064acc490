# Business-plan editor: state logic in Dafny

This project models the state logic of a single-page business-plan editor.
The editor keeps one business plan: a record of sections (executive summary,
market opportunity, solution, business model, go-to-market, financial
projections, roadmap, risks, success factors) plus four header strings.
There are three parts:

- **Section editors** (`App.tsx`). Every section editor offers the same
  three list edits: append a placeholder record, replace the record at one
  position, and remove one position with an order-keeping filter. Some also
  offer nested versions of these edits over inner string lists. Most
  handlers rebuild the section from spread copies; these are pure functions
  over datatypes here. Four handlers copy only the outer list and then
  change one element of it in place: capabilities, included features, tasks
  and mitigation steps, plus the two technology-stack edits. These are
  methods that copy the list into a fresh array, rewrite one slot and return
  the array's contents. The top-level `App` component (`handleUpdate`, the
  edit/save toggle, the "Ask AI" modal, the JSON import) is a class whose
  methods update its fields.
- **The drafting wizard** (`components/SectionDrafter.tsx`). A class that
  steps through questions, collects answers, asks the text-generation
  service for a draft, lets the user edit the draft, and hands it over.
- **The chat panel** (`components/ChatPanel.tsx`). A class holding an
  append-only log of user and AI messages, an input line and a loading
  flag.

The shared pieces are:

- `ListEdits`: the three list edits, each written as a constructive function
  and as an independent pointwise predicate, with the function proved to
  meet the predicate.
- `Text`: JavaScript's `trim` over its exact whitespace set, ASCII
  lower-casing, and `join` with an in-order placement lemma.
- `Service`: the outcome of a call to the text-generation service, given as
  a parameter (`Success(text)` or `Failure(message)`), and `Option`, which
  stands for the result of `JSON.parse`.

## Model

| member | source | states |
|---|---|---|
| ListEdits.Append | App.tsx:438 | `[...xs, item]` meets `Appended`: the length grows by one, every earlier element is kept, and the new last element is the item |
| ListEdits.SetAt | App.tsx:433-437 | `const c = [...xs]; c[i] = v` meets `ReplacedAt`: same length, position i holds v, every other position is unchanged |
| ListEdits.RemoveAt | App.tsx:439 | `xs.filter((_, k) => k !== i)` meets `RemovedAt`: for i in range the length drops by one and the rest keep their order; an out-of-range i leaves the list unchanged |
| ListEdits.CopyToArray | App.tsx:583 | the shallow copy `[...xs]` that the in-place handlers then change is a fresh array holding xs |
| ListEdits.RemovedAtUnique | App.tsx:498-500 | the pointwise description of a removal determines its result |
| ListEdits.RemoveAtIsSlice | App.tsx:739-741 | removing an in-range position is slicing it out |
| ListEdits.RemoveUndoesAppend | App.tsx:438-439 | removing the element just appended gives the list back |
| ListEdits.RemoveAtMultiset | App.tsx:439 | removal keeps exactly the other elements: the result plus the removed element is the original multiset |
| ListEdits.SetAtRestores | App.tsx:433-437 | writing the old value back undoes a replacement |
| Text.TrimStart | components/ChatPanel.tsx:27 | `trimStart`: a suffix of the input, everything removed is whitespace, and what is left does not start with whitespace |
| Text.TrimEnd | components/ChatPanel.tsx:27 | `trimEnd`: a prefix of the input, everything removed is whitespace, and what is left does not end with whitespace |
| Text.TrimEmptyIffBlank | components/ChatPanel.tsx:27 | `!s.trim()` holds exactly when every character of s is whitespace |
| Text.LowerIdempotent | App.tsx:915 | `toLowerCase` leaves no upper-case ASCII letter, so lowering twice is lowering once |
| Text.LowerMatches | App.tsx:915-920 | comparing the lowered string with a lower-case word is comparing the two ignoring case (both directions) |
| Text.JoinPlacesParts | components/SectionDrafter.tsx:81-83 | `join` puts part i at its offset, one separator after every part but the last, and nothing after the last part |
| Text.JoinLength | components/SectionDrafter.tsx:81-83 | `join` of no parts is empty; otherwise its length is all the parts plus one separator between each two |
| Plan.Years.With | App.tsx:1010-1015 | `{...years, [y]: fy}` sets year y and keeps the other two years |
| ExecutiveEditor.SetExecutiveText | App.tsx:452-454 | the text-field edit sets one field and keeps the other fields and both lists |
| ExecutiveEditor.WithProblemText | App.tsx:435 | `{...p, [field]: v}` on a problem sets that field and keeps the other |
| ExecutiveEditor.ChangeProblem | App.tsx:433-437 | problem i differs only in the chosen field; the other problems and the rest of the section are unchanged |
| ExecutiveEditor.AddProblem | App.tsx:438 | appends {title: 'New Problem', description: 'Description'} and changes nothing else |
| ExecutiveEditor.RemoveProblem | App.tsx:439 | removes position i in order (or nothing if it is out of range) and changes nothing else |
| ExecutiveEditor.WithAdvantageText | App.tsx:443 | `{...a, [field]: v}` on an advantage sets that field and keeps the other |
| ExecutiveEditor.ChangeAdvantage | App.tsx:441-445 | advantage i differs only in the chosen field; everything else is unchanged |
| ExecutiveEditor.AddAdvantage | App.tsx:446 | appends {metric: 'New Metric', description: 'Description'} and changes nothing else |
| ExecutiveEditor.RemoveAdvantage | App.tsx:447 | removes position i in order and changes nothing else |
| ExecutiveEditor.RemoveUndoesAddProblem | App.tsx:438-439 | removing the problem just added gives the section back |
| OpportunityEditor.SetOpportunityText | App.tsx:510-513 | one text field changes; the other fields and the three lists are kept |
| OpportunityEditor.ChangeGrowthDriver | App.tsx:490-494 | driver i is replaced and nothing else changes |
| OpportunityEditor.AddGrowthDriver | App.tsx:495-497 | appends 'New Driver' and changes nothing else |
| OpportunityEditor.RemoveGrowthDriver | App.tsx:498-500 | removes position i in order and changes nothing else |
| OpportunityEditor.ChangeCustomerSegment | App.tsx:533-536 | segment i is replaced and nothing else changes |
| OpportunityEditor.AddCustomerSegment | App.tsx:542 | appends the 'New Segment' placeholder and changes nothing else |
| OpportunityEditor.RemoveCustomerSegment | App.tsx:537 | removes position i in order and changes nothing else |
| OpportunityEditor.ChangeCompetitiveAdvantage | App.tsx:551-554 | row i of the comparison is replaced and nothing else changes |
| OpportunityEditor.AddCompetitiveAdvantage | App.tsx:560 | appends the 'New Feature' row with all three marks false and changes nothing else |
| OpportunityEditor.RemoveCompetitiveAdvantage | App.tsx:555 | removes position i in order and changes nothing else |
| SolutionEditor.SetSolutionDescription | App.tsx:596 | the description changes and nothing else |
| SolutionEditor.WithFeatureText | App.tsx:568 | `{...f, [field]: v}` sets one text field and keeps the others and the capabilities |
| SolutionEditor.ChangeFeature | App.tsx:566-570 | feature i differs only in the chosen field; everything else is unchanged |
| SolutionEditor.AddFeature | App.tsx:572 | appends the 'New Feature' placeholder and changes nothing else |
| SolutionEditor.RemoveFeature | App.tsx:573 | removes position i in order and changes nothing else |
| SolutionEditor.ChangeCapability | App.tsx:575-581 | only capability c of feature i changes; the feature's other fields, the other features and the section are unchanged |
| SolutionEditor.AddCapability | App.tsx:582-586 | after the shallow copy, feature i's capabilities gain 'New Capability' at the end and nothing else changes |
| SolutionEditor.RemoveCapability | App.tsx:587-591 | after the shallow copy, feature i loses capability c (in order) and nothing else changes |
| SolutionEditor.ChangeLayer | App.tsx:628 | layer i's name changes in the copy; its technologies, the other layers and the section are unchanged |
| SolutionEditor.ChangeTechnology | App.tsx:631 | only technology t of layer i changes |
| BusinessEditor.WithStreamText | App.tsx:644 | `{...s, [field]: v}` sets one field of a stream and keeps the others |
| BusinessEditor.ChangeStream | App.tsx:642-646 | stream i differs only in the chosen field; everything else is unchanged |
| BusinessEditor.AddStream | App.tsx:647 | appends the 'New Stream' placeholder and changes nothing else |
| BusinessEditor.RemoveStream | App.tsx:648 | removes position i in order and changes nothing else |
| BusinessEditor.WithTierText | App.tsx:652 | `{...t, [field]: v}` sets one text field of a tier and keeps the others and the included list |
| BusinessEditor.ChangeTier | App.tsx:650-654 | tier i differs only in the chosen text field; everything else is unchanged |
| BusinessEditor.AddTier | App.tsx:655 | appends the 'New Tier' placeholder and changes nothing else |
| BusinessEditor.RemoveTier | App.tsx:656 | removes position i in order and changes nothing else |
| BusinessEditor.ChangeInclude | App.tsx:658-664 | only included feature k of tier i changes |
| BusinessEditor.AddInclude | App.tsx:665-669 | after the shallow copy, tier i's list gains 'New Feature' at the end and nothing else changes |
| BusinessEditor.RemoveInclude | App.tsx:670-674 | after the shallow copy, tier i loses included feature k (in order) and nothing else changes |
| BusinessEditor.SetEconomics | App.tsx:721-724 | one unit-economics figure changes; the other three and both lists are kept |
| GTMEditor.ChangePhase | App.tsx:731-735 | phase i is replaced and nothing else changes |
| GTMEditor.AddPhase | App.tsx:756 | appends the 'New Phase' placeholder and changes nothing else |
| GTMEditor.RemovePhase | App.tsx:739-741 | removes position i in order and changes nothing else |
| GTMEditor.ChangeChannel | App.tsx:764-767 | channel i is replaced and nothing else changes |
| GTMEditor.AddChannel | App.tsx:773 | appends the 'New Channel' placeholder and changes nothing else |
| GTMEditor.RemoveChannel | App.tsx:768 | removes position i in order and changes nothing else |
| GTMEditor.ChangeStage | App.tsx:781-783 | stage i is replaced and nothing else changes |
| GTMEditor.AddStage | App.tsx:789 | appends the 'New Stage' placeholder and changes nothing else |
| GTMEditor.RemoveStage | App.tsx:784 | removes position i in order and changes nothing else |
| GTMEditor.ChangePartnership | App.tsx:797-799 | partnership i is replaced and nothing else changes |
| GTMEditor.AddPartnership | App.tsx:805 | appends the 'New Partner' placeholder and changes nothing else |
| GTMEditor.RemovePartnership | App.tsx:800 | removes position i in order and changes nothing else |
| FinancialEditor.WithYearText | App.tsx:1012-1015 | `{...years[y], [field]: v}` sets one figure and keeps the others and the milestones |
| FinancialEditor.ChangeYearData | App.tsx:1007-1018 | only the selected year changes, and only in the chosen figure |
| FinancialEditor.ChangeMilestone | App.tsx:1020-1033 | only milestone i of the selected year changes; the other two years are unchanged |
| FinancialEditor.AddMilestone | App.tsx:1035-1047 | 'New milestone' is appended to the selected year's list; the other two years are unchanged |
| FinancialEditor.RemoveMilestone | App.tsx:1049-1061 | milestone i of the selected year is removed in order; the other two years are unchanged |
| FinancialEditor.MilestoneEditsCommute | App.tsx:1035-1047 | additions under two different year tabs commute |
| RoadmapEditor.ChangeTask | App.tsx:811-817 | only task t of launch phase p changes |
| RoadmapEditor.AddTask | App.tsx:818-822 | after the shallow copy, phase p's tasks gain 'New Task' at the end and nothing else changes |
| RoadmapEditor.RemoveTask | App.tsx:823-827 | after the shallow copy, phase p loses task t (in order) and nothing else changes |
| RoadmapEditor.ChangeLaunchPhase | App.tsx:847-848 | launch phase i is replaced and nothing else changes |
| RoadmapEditor.AddLaunchPhase | App.tsx:862 | appends the 'New Phase' placeholder with no tasks and changes nothing else |
| RoadmapEditor.RemoveLaunchPhase | App.tsx:858 | removes position i in order and changes nothing else |
| RoadmapEditor.ChangeQuarter | App.tsx:868 | quarter i is replaced and nothing else changes |
| RoadmapEditor.ChangeQuarterItem | App.tsx:871 | only item k of quarter i changes; the quarter's label is kept |
| RoadmapEditor.ChangeDepartment | App.tsx:884 | department i is replaced and nothing else changes |
| RoadmapEditor.AddDepartment | App.tsx:893 | appends 'New Dept.' with zero hires in all three years and changes nothing else |
| RoadmapEditor.RemoveDepartment | App.tsx:888 | removes position i in order and changes nothing else |
| RoadmapEditor.ChangeKpi | App.tsx:901-902 | KPI i is replaced and nothing else changes |
| RoadmapEditor.AddKpi | App.tsx:908 | appends the 'New KPI' placeholder and changes nothing else |
| RoadmapEditor.RemoveKpi | App.tsx:903 | removes position i in order and changes nothing else |
| RisksEditor.RiskColor | App.tsx:914-921 | total: green exactly for 'low', yellow exactly for 'medium', red exactly for 'high' (in any case), grey exactly for everything else |
| RisksEditor.RiskColorIgnoresCase | App.tsx:915 | two levels that differ only in case get the same colour |
| RisksEditor.WithRiskText | App.tsx:925 | `{...r, [field]: v}` sets one text field and keeps the others and the mitigation steps |
| RisksEditor.ChangeRisk | App.tsx:923-927 | risk i differs only in the chosen field; the other risks are unchanged |
| RisksEditor.AddRisk | App.tsx:928 | appends {risk: 'New Risk', level: 'Medium', description: '', mitigation: []} |
| RisksEditor.RemoveRisk | App.tsx:929 | removes position i in order |
| RisksEditor.ChangeMitigation | App.tsx:931-937 | only mitigation step m of risk i changes |
| RisksEditor.AddMitigation | App.tsx:938-942 | after the shallow copy, risk i gains 'New mitigation step' at the end and nothing else changes |
| RisksEditor.RemoveMitigation | App.tsx:943-947 | after the shallow copy, risk i loses step m (in order) and nothing else changes |
| SuccessFactorsEditor.WithFactorText | App.tsx:981 | `{...s, [field]: v}` sets one field and keeps the other |
| SuccessFactorsEditor.ChangeFactor | App.tsx:979-983 | factor i differs only in the chosen field; the other factors are unchanged |
| SuccessFactorsEditor.AddFactor | App.tsx:984 | appends {factor: 'New Factor', description: ''} |
| SuccessFactorsEditor.RemoveFactor | App.tsx:985 | removes position i in order |
| App.PartsDetermine | App.tsx:1190-1192 | a plan is determined by its parts under the thirteen keys |
| App.WithPart | App.tsx:1190-1192 | `{...prev, [k]: part}` puts part under k and leaves every other key equal |
| App.WithOwnPart | App.tsx:1190-1192 | handing a section back unchanged leaves the plan as it was |
| App.LaterUpdateWins | App.tsx:1190-1192 | of two updates of the same key the later one wins |
| App.UpdatesCommute | App.tsx:1190-1192 | updates of two different keys commute |
| App.Editor.constructor | App.tsx:1182-1188 | the initial plan, not editing, the modal closed, nothing loading, all messages empty |
| App.Editor.Update | App.tsx:1190-1192 | only the plan changes, to `WithPart(old plan, k, part)` |
| App.Editor.ToggleEditMode | App.tsx:1372-1378 | edit mode flips; leaving edit mode shows 'Business plan saved successfully!'; the plan is not touched |
| App.Editor.OpenAiModal | App.tsx:1356 | opens the modal and changes nothing else |
| App.Editor.CloseAiModal | App.tsx:1272-1276 | closes the modal and clears the answer and the error |
| App.Editor.BeginAsk | App.tsx:1224-1230 | a blank query starts nothing and touches neither the loading flag nor the answer nor the error; otherwise loading starts with the answer and error cleared |
| App.Editor.CompleteAsk | App.tsx:1255-1261 | the response text on success, the fixed apology on failure, loading false in both cases |
| App.Editor.AskAI | App.tsx:1224-1262 | the whole query: blank is a no-op; otherwise exactly one of answer or error is set and loading ends false; the plan never changes |
| App.Editor.Import | App.tsx:1204-1222 | a successful parse replaces the plan; a parse error leaves it |
| SectionDrafter.AnswersTextInOrder | components/SectionDrafter.tsx:81-83 | every question's block (question, line break, answer or 'Not answered') sits at its place in the answers text, separated by blank lines, and the text ends with the last block |
| SectionDrafter.AnswersTextLength | components/SectionDrafter.tsx:81-83 | the answers text is empty when there are no questions and otherwise holds exactly the blocks and the blank lines between them |
| SectionDrafter.FailureText | components/SectionDrafter.tsx:106-107 | the failure message is 'Failed to generate content: ' + the error's message (or 'Unknown error') + '. Please try again.', never empty |
| SectionDrafter.Drafter.constructor | components/SectionDrafter.tsx:25-31 | closed, at the first question, with no answers, no draft and no error |
| SectionDrafter.Drafter.CanProceed | components/SectionDrafter.tsx:35 | holds exactly when there is a current question whose answer has a non-whitespace character |
| SectionDrafter.Drafter.HandleOpen | components/SectionDrafter.tsx:37-45 | resets the wizard: open, questions step, no answers, index 0, empty draft, copy and error |
| SectionDrafter.Drafter.HandleClose | components/SectionDrafter.tsx:47-49 | only the open flag changes |
| SectionDrafter.Drafter.HandleAnswerChange | components/SectionDrafter.tsx:51-53 | the answer under id becomes v; every other answer is kept |
| SectionDrafter.Drafter.BeginGenerate | components/SectionDrafter.tsx:71-74 | the generating step with the error cleared |
| SectionDrafter.Drafter.CompleteGenerate | components/SectionDrafter.tsx:99-109 | success: review step with draft = copy = response; failure: questions step with a non-empty error; answers and index are kept |
| SectionDrafter.Drafter.GenerateContent | components/SectionDrafter.tsx:71-110 | sends the answers text of the answers at call time, then ends in review or back at the questions with the error |
| SectionDrafter.Drafter.HandleNext | components/SectionDrafter.tsx:55-63 | before the last question the index grows by exactly one and nothing else changes; on the last question it generates, with `generateContent`'s outcome (review with the response as draft and copy, or the questions again with a non-empty error and the draft kept); the index stays on a question |
| SectionDrafter.Drafter.HandleBack | components/SectionDrafter.tsx:65-69 | the index drops by one when positive and stays at 0 otherwise, so it never goes negative |
| SectionDrafter.Drafter.EditContent | components/SectionDrafter.tsx:244 | only the editable copy changes |
| SectionDrafter.Drafter.BackToQuestions | components/SectionDrafter.tsx:287 | only the step changes, back to the questions |
| SectionDrafter.Drafter.HandleAccept | components/SectionDrafter.tsx:112-123 | hands over exactly one value (the parsed draft if it parses, the raw text otherwise) and closes the wizard |
| ChatPanel.CountRole | components/ChatPanel.tsx:5-10 | counts one sender's messages, never more than the log holds |
| ChatPanel.CountsCoverLog | components/ChatPanel.tsx:5-10 | every message is the user's or the AI's: the two counts add up to the log's length |
| ChatPanel.IdleLogIsAnswered | components/ChatPanel.tsx:37-78 | with no request pending, user and AI messages are equal in number: every question got exactly one answer |
| ChatPanel.PendingLogAwaitsOne | components/ChatPanel.tsx:37-39 | while a request is pending exactly one user message is unanswered |
| ChatPanel.UserOpensTurn | components/ChatPanel.tsx:37-38 | appending a user message to an answered log leaves exactly one question pending, with the roles still alternating |
| ChatPanel.AiClosesTurn | components/ChatPanel.tsx:66-79 | appending an AI message to a log with one pending question answers it, with the roles still alternating |
| ChatPanel.Chat.constructor | components/ChatPanel.tsx:13-16 | closed, empty log, empty input, not loading |
| ChatPanel.Chat.Toggle | components/ChatPanel.tsx:101 | opens or closes the panel and changes nothing else |
| ChatPanel.Chat.Close | components/ChatPanel.tsx:122 | closes the panel and changes nothing else |
| ChatPanel.Chat.SetInput | components/ChatPanel.tsx:204 | only the input changes |
| ChatPanel.Chat.BeginSend | components/ChatPanel.tsx:26-39 | blank text changes nothing; otherwise the user message is appended, loading starts and the input clears; the turn order is kept |
| ChatPanel.Chat.CompleteSend | components/ChatPanel.tsx:56-81 | exactly one AI message is appended (the response text on success, the fixed apology on failure) and loading ends |
| ChatPanel.Chat.SendMessage | components/ChatPanel.tsx:26-82 | the old log is kept as a prefix; a non-blank send adds the user message then exactly one AI message; loading ends false |
| ChatPanel.Chat.HandleSend | components/ChatPanel.tsx:84-88 | sends the input only when it is not blank and nothing is loading; otherwise nothing changes |
| ChatPanel.Chat.HandleKeyPress | components/ChatPanel.tsx:90-95 | Enter without Shift acts as `handleSend`: a non-blank input with nothing loading is sent, the input clears and loading ends; any other key, a blank input or a pending request changes nothing |
| ChatPanel.Chat.SendSuggestion | components/ChatPanel.tsx:132-155 | a suggested question is sent only while the log is empty; sending adds the question and its one answer, clears the input and ends loading |

## Left out

- Rendering is left out: JSX layout, the collapsible sections, the add and remove buttons, the check-box display, focusing a newly added input, the chat panel's auto-scroll and the revenue chart.
- The text-generation client, the model name and the prompt wording are left out. Each call is one outcome, passed as a `Reply` parameter. Only the answers part of the wizard's prompt is modelled.
- Asynchrony is simplified. A request is split into its synchronous start and its completion (`BeginAsk`/`CompleteAsk`, `BeginGenerate`/`CompleteGenerate`, `BeginSend`/`CompleteSend`). Overlapping requests, and state changes while one is in flight, are not modelled beyond what these methods allow.
- `marked.parse`, the HTML it produces, the export download and the FileReader are left out. `JSON.parse` is abstract: a parameter (`Import`) or a function argument (`HandleAccept`) that yields `Option`.
- App.Editor.Import: an import that parses is accepted whatever its shape, as in the source. The model can only hold well-shaped plans, so a malformed plan that parses is not represented.
- The JSON round trip from export to import is not modelled, because serialisation is abstract.
- Message ids and timestamps (`Date.now()`, `new Date()`) are clock values and are left out. So is the three-second timer that clears the saved toast.
- The `+v` coercion of hire counts is not modelled: JavaScript number parsing and NaN are floating point. Department edits take the new record as built by the caller.
- ListEdits.SetAt: requires an index the list has. The editors only pass indices of rendered items; JavaScript would grow the array for a larger index.
- Aliasing is not modelled. After the shallow copy in the in-place handlers (`AddCapability`, `RemoveCapability`, `ChangeLayer`, `ChangeTechnology`, `AddInclude`, `RemoveInclude`, `AddTask`, `RemoveTask`, `AddMitigation`, `RemoveMitigation`), the nested list or record is shared with the previous state, so the old state object is changed too. The model works on values and describes only the new state.
- BusinessEditor.ChangeTier: `handleTierChange` accepts any value for any key; only the three text fields are modelled. Included features are edited through `ChangeInclude`, `AddInclude` and `RemoveInclude`.
- RisksEditor.ChangeRisk: `handleRiskChange` accepts any value for any key; only the three text fields are modelled. Mitigation steps are edited through their own handlers.
- Text.LowerAscii: lowers ASCII letters only. Full Unicode lower-casing is not modelled. No non-ASCII character lowers to a letter of 'low', 'medium' or 'high', so `RiskColor` gives the same colours as the full `toLowerCase`.
- App.Fits: `handleUpdate` is generic and its callers always pass the matching section. The model requires the part to fit its key, because a datatype cannot hold a mismatched section.
- The plan's type declarations (`types.ts`) are not part of this model. The record shapes follow the initial plan literal in `App.tsx` (lines 43-348). Its contents and the static questionnaires in `components/sectionQuestions.ts` are configuration data and are left out.
- The product roadmap has no add or remove controls, so only its edits are modelled.
- The drafter's answers-text step maps an empty answer to 'Not answered' as well as a missing one, because `answers[q.id] || 'Not answered'` treats `''` as false. The model follows that code.
- SectionDrafter.Drafter.HandleAccept: `onAccept` is assumed not to throw. If it threw on a parsed value, the `catch` would call it a second time with the raw text. Callbacks that throw are not modelled.
- SectionDrafter.Drafter.HandleNext: requires `canProceed`, because the Next button is disabled otherwise (components/SectionDrafter.tsx:274).
