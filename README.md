# Know-your-customer assistant: a verified model of its core logic

The repository is a React front end for insurance underwriters. It has a chat
assistant that recognises a customer from free text and answers with that
customer's behavioural profile. It also has an analysis form that looks a
customer up, and an animated view of the stage scheduler ("agent workflow").
A second view replays the messages those stages exchange. The application
shell raises a shared processing signal and dispatches between tabs. The admin
panel lets a reviewer edit the recommendation and read an audit record, and the
journey view shows score bands and trends.

This project models that logic as Dafny and proves what each piece promises.

- **Pure code becomes functions and lemmas.** This covers the classifier, the
  lookups, the colour rules, the status derivation and the label formatting.
- **Components that update state become classes.** Each class method changes
  its fields exactly as a plain state-transition function does, and the
  lemmas about those functions carry the properties.
- **Timers become explicit events.** Every `setTimeout` callback is a `Fire…`
  event. Every `setInterval` callback is a `Tick` event. Every effect cleanup
  is a `Cancel`.

Modules:

| module | models |
|---|---|
| `Text` | the JavaScript string operations the core relies on: `trim`, `toLowerCase`/`toUpperCase` (ASCII letters), `includes`, `replace` with a string pattern (first occurrence) and with `/_/g` (all), `join`, decimal rendering of scores |
| `Wrappers` | `Option` |
| `Profiles` | the behavioural profile record, the catalog lookup with its `DEFAULT` fallback, `getRiskColor`, the summary the shell passes to the admin panel |
| `ChatInterface` | `src/components/ChatInterface.tsx` |
| `RiskAnalysis` | `src/components/RiskAnalysis.tsx` |
| `AgentWorkflow` | `src/components/AgentWorkflow.tsx` |
| `InterAgentCommunication` | `src/components/InterAgentCommunication.tsx` |
| `App` | `src/App.tsx` |
| `AdminPanel` | `src/components/AdminPanel.tsx` |
| `CustomerJourney` | `src/components/CustomerJourney.tsx` |

Some behaviour of the code is easy to misread; the model follows the code:

- Starting a scheduler run leaves `activeAgentIndex` where the last run left
  it. Only the first tick sets it to 0.
- After `n` ticks the last stage is active, not completed. The tick after that
  resets the index to -1, so the view never shows every stage completed.
- The message replayer is not reset when a new run starts. Once the
  `showAllMessages` latch is set, it stays set for the component's lifetime.
- Message ids come from the clock and are not guaranteed to increase, so no
  ordering of ids is claimed.

## Model

| member | source | states |
|---|---|---|
| `Profiles.LookupIn` | src/components/ChatInterface.tsx:113 | the record is one of the catalog's; an exact, case-sensitive key gets its own record, any other key the `DEFAULT` record |
| `Profiles.RiskColor` | src/components/ChatInterface.tsx:198-205 | green, yellow, red exactly for `low`, `medium`, `high` after lower-casing; grey for everything else |
| `Profiles.RiskColorIgnoresCase` | src/components/ChatInterface.tsx:199 | the colour depends only on the lower-cased level, so `HIGH`, `High` and `high` agree |
| `Profiles.ToLowerIdempotent` | src/components/ChatInterface.tsx:199 | lower-casing twice is lower-casing once |
| `Text.TrimEmptyIff` | src/components/ChatInterface.tsx:158 | `trim()` is empty exactly when every character is JavaScript white space |
| `Text.TrimShape` | src/components/RiskAnalysis.tsx:20 | the trimmed string is a contiguous slice of the input with no white space at either end |
| `Text.TrimPadded` | src/components/RiskAnalysis.tsx:20 | one blank on each side of a word is trimmed away |
| `Text.ContainsIff` | src/components/ChatInterface.tsx:99 | `includes` holds exactly when the pattern occurs at some position |
| `Text.ReplaceAll` | src/components/AdminPanel.tsx:185 | same length; every `from` becomes `to` and every other character is unchanged, so no `_` is left |
| `Text.ReplaceFirstSpec` | src/components/CustomerJourney.tsx:83 | a string without the pattern is unchanged; otherwise exactly its first occurrence is replaced |
| `Text.JoinContains` | src/components/AdminPanel.tsx:188 | every element of an array appears in its `join` |
| `Text.ParseNatToString` | src/components/ChatInterface.tsx:116 | a rendered score reads back as the same number |
| `Text.NatToStringInjective` | src/components/ChatInterface.tsx:116 | two different scores never render alike |
| `ChatInterface.LookupCustomer` | src/components/ChatInterface.tsx:26-75 | the chat catalog lookup always yields one of the three fixed records |
| `ChatInterface.LookupExamples` | src/components/ChatInterface.tsx:43-75 | `CUSTOMER_0011` and `customer_001` get the `DEFAULT` record (`SAMPLE_CUSTOMER`); `CUSTOMER_002` is `High` with `+25%` |
| `ChatInterface.DigitRun` | src/components/ChatInterface.tsx:95 | the greedy `\d+`: all digits, and the next character is not one |
| `ChatInterface.FirstIdMatch` | src/components/ChatInterface.tsx:95 | the leftmost position where `CUSTOMER_` (any letter case) and a digit start, or none anywhere |
| `ChatInterface.UpperMatchText` | src/components/ChatInterface.tsx:95-96 | an upper-cased match is the canonical prefix and the digits as written, a well-formed identifier |
| `ChatInterface.ExtractCustomerFromText` | src/components/ChatInterface.tsx:93-107 | whatever it returns is a well-formed identifier |
| `ChatInterface.ExtractFirstMatch` | src/components/ChatInterface.tsx:95-96 | the first pattern match decides, upper-cased with all its digits |
| `ChatInterface.ExtractPrefersPattern` | src/components/ChatInterface.tsx:95-96 | when the pattern matches, no alias test is reached |
| `ChatInterface.LowerIdSubstringMatches` | src/components/ChatInterface.tsx:95-103 | text containing `customer_` and a digit in lower case always matches the pattern |
| `ChatInterface.IdSubstringTestsNeverDecide` | src/components/ChatInterface.tsx:95-104 | without a pattern match the `customer_001`/`customer_002` substring tests are false, so they never decide |
| `ChatInterface.ExtractByAlias` | src/components/ChatInterface.tsx:99-106 | without a pattern match, `sarah johnson` gives `CUSTOMER_001`, else `mike rodriguez` gives `CUSTOMER_002`, else null, case-insensitively (all three directions) |
| `ChatInterface.FirstTopicFromTable` | src/components/ChatInterface.tsx:122-149 | the topic picked is one of the table's |
| `ChatInterface.FirstTopicIsFirstMatch` | src/components/ChatInterface.tsx:122-149 | bucket `k` is picked exactly when it matches and no earlier bucket does |
| `ChatInterface.FirstTopicNone` | src/components/ChatInterface.tsx:122-154 | no bucket is picked exactly when none matches |
| `ChatInterface.TopicOfIsTable` | src/components/ChatInterface.tsx:122-149 | `TopicOf`, the chain of `if`s, is the keyword table customer/account, communication/behavior, risk/scoring, help/how, tried in order |
| `ChatInterface.ResponseAnalysis` | src/components/ChatInterface.tsx:108-155 | `GenerateResponse` attaches a record exactly when an identifier is found, and it is that identifier's catalog record; topic and generic replies carry none |
| `ChatInterface.ResponseTopicOrder` | src/components/ChatInterface.tsx:122-154 | `GenerateResponse` with no identifier: bucket `k` answers iff its keywords occur and no earlier bucket's do; the generic reply iff no keyword occurs |
| `ChatInterface.ScoreTextVerbatim` | src/components/ChatInterface.tsx:116 | `n/10` shows the stored score unmodified: it reads back as `n` and distinct scores differ |
| `ChatInterface.ProfileTextShowsFields` | src/components/ChatInterface.tsx:115-118 | the profile reply contains the name, identifier, risk level, premium adjustment, the three `n/10` scores and the recommendation |
| `ChatInterface.ReplyTo` | src/components/ChatInterface.tsx:172-181 | the deferred message is an assistant message whose content is the rendered `generateResponse` reply and which carries the response's `analysis` |
| `ChatInterface.ReplyShowsProfile` | src/components/ChatInterface.tsx:112-120 | when the text names a customer, the reply appended to the log shows that customer's name, identifier, risk level, premium adjustment, three `n/10` scores and recommendation |
| `ChatInterface.SendIgnoresBlank` | src/components/ChatInterface.tsx:158 | `Send` on whitespace-only input changes nothing: log, input, typing flag and timers |
| `ChatInterface.SendAppendsUserMessage` | src/components/ChatInterface.tsx:157-169 | `Send` on other input appends exactly one user message with that text, keeps earlier messages, clears the box and raises the typing flag |
| `ChatInterface.FireAppendsReply` | src/components/ChatInterface.tsx:172-183 | `Fire`: the timer appends exactly one reply, built from the text submitted with it, keeps earlier messages and clears the typing flag |
| `ChatInterface.LogAppendOnly` | src/components/ChatInterface.tsx:157-184 | after any sequence of events the earlier log is a prefix of the new one |
| `ChatInterface.InitialConversation` | src/components/ChatInterface.tsx:13-22 | the initial state (welcome message only, empty box, not typing) satisfies the conversation invariant |
| `ChatInterface.SendKeepsConversation` | src/components/ChatInterface.tsx:157-170 | a send keeps the invariant: its text becomes the newest unanswered question |
| `ChatInterface.FireKeepsConversation` | src/components/ChatInterface.tsx:172-184 | a firing timer keeps the invariant: it answers the oldest unanswered question |
| `ChatInterface.StepKeepsConversation` | src/components/ChatInterface.tsx:157-189 | typing, sending and replying all keep the invariant |
| `ChatInterface.RunKeepsConversation` | src/components/ChatInterface.tsx:157-189 | after any event sequence the i-th reply answers the i-th question; no reply is lost, duplicated or misattributed |
| `ChatInterface.QuiescentAllAnswered` | src/components/ChatInterface.tsx:169-183 | with no timer pending every question has exactly one reply and the typing flag is down |
| `ChatInterface.Chat.constructor` | src/components/ChatInterface.tsx:13-22 | the welcome message alone, empty input, not typing; the reply builder is `generateResponse`'s |
| `ChatInterface.Chat.SetInputText` | src/components/ChatInterface.tsx:187-189 | only the input changes; the invariant is kept |
| `ChatInterface.Chat.SendMessage` | src/components/ChatInterface.tsx:157-170 | the new state is the send transition of the old one; the invariant is kept |
| `ChatInterface.Chat.KeyPress` | src/components/ChatInterface.tsx:191-196 | Enter without Shift sends, any other key changes nothing |
| `ChatInterface.Chat.SendEnabled` | src/components/ChatInterface.tsx:325 | while the button is enabled a click appends exactly the typed text as a user message and schedules its reply |
| `ChatInterface.Chat.FireReply` | src/components/ChatInterface.tsx:172-184 | the new state is the fire transition of the old one; the invariant is kept |
| `RiskAnalysis.LookupKey` | src/components/RiskAnalysis.tsx:20 | the key is the trimmed input, or `DEFAULT` exactly when the input is all white space |
| `RiskAnalysis.LookupAsWritten` | src/components/RiskAnalysis.tsx:21 | with JavaScript property lookup, an inherited member is returned exactly for an `Object.prototype` name that is not a catalog key; otherwise the record `LookupIn` gives |
| `RiskAnalysis.AsWrittenInheritedKey` | src/components/RiskAnalysis.tsx:20-21 | the input ` constructor ` trims to `constructor` and finds an inherited `Object.prototype` member, not the `DEFAULT` record |
| `RiskAnalysis.LookupCorrected` | src/components/RiskAnalysis.tsx:20-21 | the own-key lookup always yields a catalog record, the `DEFAULT` one for blank input, and agrees with the code on every other key |
| `RiskAnalysis.ScoreColor` | src/components/RiskAnalysis.tsx:35-39 | green iff at most 3, yellow iff 4 to 7, red iff above 7 |
| `RiskAnalysis.DisplayedScoreColor` | src/components/RiskAnalysis.tsx:103-125 | applied to `10 - score`: green iff at least 7, yellow iff 3 to 6, red iff below 3 |
| `RiskAnalysis.PremiumColor` | src/components/RiskAnalysis.tsx:136 | green iff the adjustment contains `-`, else red iff it contains `+`, else grey |
| `RiskAnalysis.PremiumColorExamples` | src/components/RiskAnalysis.tsx:136 | `-15%` green, `+25%` red, `Standard Rate` grey, `+-5%` green (`-` is tested first) |
| `RiskAnalysis.SubmitDisablesUntilComplete` | src/components/RiskAnalysis.tsx:63-81 | a submit raises the shell's signal, which disables the button (`SubmitDisabled`) and hides the results (`ResultsVisible`); the completion enables the button and the results show iff there is an analysis |
| `RiskAnalysis.SubmitEditComplete` | src/components/RiskAnalysis.tsx:14-24 | `Submit` then `Complete`: the deferred lookup uses the input as it was at submit time even if it is edited before the timer fires; the result shows only once processing is off |
| `RiskAnalysis.SubmitKeepsAnalysis` | src/components/RiskAnalysis.tsx:14-19 | `Submit`: until its timer fires a submit changes neither the input nor the shown analysis and queues exactly the current input |
| `RiskAnalysis.CompleteStoresLookup` | src/components/RiskAnalysis.tsx:19-23 | `Complete` stores a catalog record found by the key of the oldest submit and consumes only that submit |
| `RiskAnalysis.Form.constructor` | src/components/RiskAnalysis.tsx:11-12 | empty input, no analysis, nothing scheduled |
| `RiskAnalysis.Form.SetCustomerInput` | src/components/RiskAnalysis.tsx:55 | only the input changes |
| `RiskAnalysis.Form.HandleSubmit` | src/components/RiskAnalysis.tsx:14-19 | the shell's `onAnalysisRequest` takes effect in the same call (its state is the shell's request transition) and the lookup is queued with the current input |
| `RiskAnalysis.Form.FireLookup` | src/components/RiskAnalysis.tsx:19-23 | the oldest queued lookup stores its record as the analysis |
| `AgentWorkflow.IconFor` | src/components/AgentWorkflow.tsx:6-12 | unknown icon names fall back to `Circle`; each known name maps to its own icon |
| `AgentWorkflow.ExactlyOneStatus` | src/components/AgentWorkflow.tsx:49-51 | `StatusOf`: for every stage exactly one of active, completed and pending holds, and the status shown is that one |
| `AgentWorkflow.StatusesHaveNoHoles` | src/components/AgentWorkflow.tsx:49-51 | completed stages form a prefix, at most one is active and it follows them, the rest are pending; with processing off all are pending |
| `AgentWorkflow.LastStageNeverCompleted` | src/components/AgentWorkflow.tsx:25-31 | since the index stays below `n`, the last stage is never shown completed |
| `AgentWorkflow.MountInvariant` | src/components/AgentWorkflow.tsx:19 | `Mount`: the index starts at -1 and the invariant holds |
| `AgentWorkflow.StepsKeepInvariant` | src/components/AgentWorkflow.tsx:21-35 | `Advance`, `WithProcessing` and `Cleared` keep the index in -1..n-1 |
| `AgentWorkflow.StartKeepsIndex` | src/components/AgentWorkflow.tsx:22-26 | starting a run starts a fresh interval but does not reset the index |
| `AgentWorkflow.SameFlagNoRestart` | src/components/AgentWorkflow.tsx:35 | an unchanged processing flag does not restart the effect |
| `AgentWorkflow.TicksWalkStages` | src/components/AgentWorkflow.tsx:23-27 | tick `k` of a fresh run makes stage `k - 1` active, one step per tick |
| `AgentWorkflow.RunStatuses` | src/components/AgentWorkflow.tsx:23-51 | after tick `k` stages before `k - 1` show completed, stage `k - 1` active, the rest pending |
| `AgentWorkflow.TicksEndRun` | src/components/AgentWorkflow.tsx:28-31 | tick `n + 1` clears the interval and resets the index to -1; later ticks change nothing |
| `AgentWorkflow.CancelledStaysPut` | src/components/AgentWorkflow.tsx:34 | after the cleanup no tick of the old interval changes the state |
| `AgentWorkflow.Workflow.constructor` | src/components/AgentWorkflow.tsx:19-36 | index -1, interval live exactly when mounted while processing |
| `AgentWorkflow.Workflow.CurrentStatuses` | src/components/AgentWorkflow.tsx:46-51 | the statuses shown now: one per stage, the last never completed, all pending while processing is off |
| `AgentWorkflow.Workflow.Cancel` | src/components/AgentWorkflow.tsx:34 | the interval is cleared and nothing else changes |
| `AgentWorkflow.Workflow.SetProcessing` | src/components/AgentWorkflow.tsx:21-36 | the new state is the flag transition of the old one |
| `AgentWorkflow.Workflow.Tick` | src/components/AgentWorkflow.tsx:24-32 | the new state is the tick transition of the old one |
| `InterAgentCommunication.AgentName` | src/components/InterAgentCommunication.tsx:32-40 | each of the four known ids gets its display name; an unknown agent id is shown unchanged |
| `InterAgentCommunication.AgentColorOf` | src/components/InterAgentCommunication.tsx:42-50 | blue, green, yellow and purple exactly for the four known agents in turn; grey exactly for every other id |
| `InterAgentCommunication.AgentTablesAgree` | src/components/InterAgentCommunication.tsx:32-50 | the name and colour tables cover the same ids |
| `InterAgentCommunication.TypeLabel` | src/components/InterAgentCommunication.tsx:85 | only the first `_` of the message type becomes a space; the text before and after it is unchanged |
| `InterAgentCommunication.TypeLabelExamples` | src/components/InterAgentCommunication.tsx:85 | `data_request` shows as `data request`; `risk_score_update` keeps its second underscore |
| `InterAgentCommunication.MountInvariant` | src/components/InterAgentCommunication.tsx:10-30 | `Mount` (the effect on the initial state): the count starts at 0 and the invariant holds; mounted while processing, a replay interval starts |
| `InterAgentCommunication.StepsKeepInvariant` | src/components/InterAgentCommunication.tsx:13-30 | `Advance`, `WithProcessing` (through `Effect`) and `Cleared` keep the count within the catalog and the latch consistent |
| `InterAgentCommunication.AdvanceRaisesByOne` | src/components/InterAgentCommunication.tsx:16-22 | `Advance`: a tick raises the count by exactly one until it reaches the catalog length, then stops |
| `InterAgentCommunication.TicksMonotone` | src/components/InterAgentCommunication.tsx:14-22 | during a run the count never decreases |
| `InterAgentCommunication.ReplayReveals` | src/components/InterAgentCommunication.tsx:14-22 | mounted while processing, tick `k` shows exactly `k` messages up to the catalog length, then the interval stops |
| `InterAgentCommunication.FastForward` | src/components/InterAgentCommunication.tsx:26-28 | `Effect` with processing off latches and shows the whole catalog; running it again changes nothing |
| `InterAgentCommunication.LatchHolds` | src/components/InterAgentCommunication.tsx:11-27 | the latch is never cleared; once set, a new run starts no replay and keeps the count |
| `InterAgentCommunication.CancelledStaysPut` | src/components/InterAgentCommunication.tsx:25 | after the cleanup no tick of the old interval changes the state; the messages shown and the latch stay |
| `InterAgentCommunication.Rendered` | src/components/InterAgentCommunication.tsx:69 | what is shown is the first `visibleMessages` messages of the catalog |
| `InterAgentCommunication.BannerWhenIdle` | src/components/InterAgentCommunication.tsx:136 | in every settled state the banner condition reduces to processing being off |
| `InterAgentCommunication.MarkerOnLastShown` | src/components/InterAgentCommunication.tsx:124 | the processing marker hangs under at most one message, the last shown, and only while processing |
| `InterAgentCommunication.Replayer.constructor` | src/components/InterAgentCommunication.tsx:10-30 | the mount transition, with the invariant |
| `InterAgentCommunication.Replayer.Shown` | src/components/InterAgentCommunication.tsx:69 | the rendered messages are the catalog prefix |
| `InterAgentCommunication.Replayer.Cancel` | src/components/InterAgentCommunication.tsx:25 | the interval is cleared and nothing else changes |
| `InterAgentCommunication.Replayer.SetProcessing` | src/components/InterAgentCommunication.tsx:13-30 | the new state is the flag transition of the old one |
| `InterAgentCommunication.Replayer.Tick` | src/components/InterAgentCommunication.tsx:16-23 | the new state is the tick transition of the old one |
| `App.RequestThenComplete` | src/App.tsx:23-34 | `RequestAnalysis` raises processing; `CompleteAnalysis` lowers it and stores the sample record named `Sample Customer` |
| `App.OverlappingRequests` | src/App.tsx:23-34 | with two requests in flight the first completion already lowers the signal |
| `App.TourRoundTrip` | src/App.tsx:36-44 | `TourStart` hides the modal, runs the tour and selects the analysis tab; `TourFinish` changes only the tour flag |
| `App.DispatchRoundTrip` | src/App.tsx:46-85 | `RenderActiveTab`: each of the nine known tab ids renders its own view; any other id falls back to the analysis view |
| `App.SharedProcessingSignal` | src/App.tsx:54-70 | the analysis, workflow and inter-agent views get the shell's processing flag and the admin view its last analysis |
| `App.TabSelectionShowsTab` | src/App.tsx:96 | `ChangeTab` to a known tab shows that tab's view with the shell's signals unchanged |
| `App.WelcomeModalKeepsView` | src/App.tsx:90-106 | `SetWelcome` opens or closes the modal without changing the view under it or the processing signal |
| `App.Application.constructor` | src/App.tsx:17-21 | chat tab, welcome modal shown, not processing, no tour, no analysis |
| `App.Application.HandleAnalysisRequest` | src/App.tsx:23-24 | processing is raised at once and a completion is scheduled |
| `App.Application.FireCompletion` | src/App.tsx:25-33 | the completion transition |
| `App.Application.HandleTourStart` | src/App.tsx:36-40 | the tour-start transition |
| `App.Application.HandleTourFinish` | src/App.tsx:42-44 | only the tour flag changes |
| `App.Application.SetActiveTab` | src/App.tsx:96 | only the tab changes |
| `App.Application.SetShowWelcomeModal` | src/App.tsx:89-107 | only the modal flag changes |
| `AdminPanel.SummaryFrom` | src/components/AdminPanel.tsx:17 | the recommendation when there is a non-empty one, `''` otherwise |
| `AdminPanel.EditThenDecide` | src/components/AdminPanel.tsx:15-29 | `Edit` then `Save` keeps the copied recommendation with editing off; `Edit` then `Cancel` leaves `''`; the toggles are untouched |
| `AdminPanel.TypingThenDecide` | src/components/AdminPanel.tsx:20-29 | after any `ChangeSummary` typing, `Save` keeps the last text and `Cancel` drops it |
| `AdminPanel.ToggleRawTwice` | src/components/AdminPanel.tsx:162 | `ToggleRaw` flips raw data, and twice restores the state |
| `AdminPanel.PanelsNeedAnalysis` | src/components/AdminPanel.tsx:109-202 | exactly one of the review area and the placeholder shows; without an analysis no panel, textarea, JSON or audit trail shows |
| `AdminPanel.ControlToggles` | src/components/AdminPanel.tsx:64-100 | `SetAuditTrail` alone decides whether the audit section shows (given an analysis); `SetExplainability` changes no panel |
| `AdminPanel.LocationQuery` | src/components/AdminPanel.tsx:34 | the analysis's location when it is non-empty, `N/A` otherwise |
| `AdminPanel.RowLabel` | src/components/AdminPanel.tsx:185 | every `_` of the key becomes a space and nothing else changes |
| `AdminPanel.RowValue` | src/components/AdminPanel.tsx:188 | a plain value shows as itself; an array shows every item, and an empty array shows as `''` |
| `AdminPanel.JoinedInOrder` | src/components/AdminPanel.tsx:188 | a one-item array shows that item; a longer one its first item, `", "`, then the rest |
| `AdminPanel.AgentsJoined` | src/components/AdminPanel.tsx:35 | the agent list shows its four names separated by `", "` |
| `AdminPanel.AuditRowsShape` | src/components/AdminPanel.tsx:31-39 | the rows of `AuditData`: seven, none with `_` in its label; the timestamp row is the given time; the location row falls back to `N/A`; the agent row is the joined list; the empty compliance list is an empty value |
| `AdminPanel.Panel.constructor` | src/components/AdminPanel.tsx:9-13 | not editing, empty summary, raw data hidden, audit trail and explainability on |
| `AdminPanel.Panel.HandleEdit` | src/components/AdminPanel.tsx:15-18 | the edit transition |
| `AdminPanel.Panel.HandleSave` | src/components/AdminPanel.tsx:20-24 | only the editing flag is lowered |
| `AdminPanel.Panel.HandleCancel` | src/components/AdminPanel.tsx:26-29 | editing off and summary cleared |
| `AdminPanel.Panel.SetEditedSummary` | src/components/AdminPanel.tsx:146 | only the summary changes |
| `AdminPanel.Panel.ToggleRawData` | src/components/AdminPanel.tsx:162 | only the raw-data flag flips |
| `AdminPanel.Panel.SetAuditTrailEnabled` | src/components/AdminPanel.tsx:68 | only the audit-trail flag changes |
| `AdminPanel.Panel.SetExplainabilityEnabled` | src/components/AdminPanel.tsx:100 | only the explainability flag changes |
| `CustomerJourney.IconFor` | src/components/CustomerJourney.tsx:10-17 | phone and mail icons exactly for `phone_call` and `email`; the chat icon for everything else |
| `CustomerJourney.ScoreColor` | src/components/CustomerJourney.tsx:19-23 | green iff at least 8, yellow iff 5 to below 8, red iff below 5 |
| `CustomerJourney.ScoreTrend` | src/components/CustomerJourney.tsx:25-29 | up/green iff a rise, down/red iff a fall, up/grey iff equal |
| `CustomerJourney.TrendAntisymmetric` | src/components/CustomerJourney.tsx:25-29 | swapping the scores swaps rise and fall and keeps no change |
| `CustomerJourney.TrendsOfTimeline` | src/components/CustomerJourney.tsx:174-177 | `Trends`: the first entry's trends are the neutral grey; every later entry's two trends are the `ScoreTrend` of its scores against the previous entry's |
| `CustomerJourney.FormatLabel` | src/components/CustomerJourney.tsx:83 | only the first `_` becomes a space; the text before and after it is unchanged |
| `CustomerJourney.FormatLabelSplit` | src/components/CustomerJourney.tsx:147-153 | a label's later underscores survive |
| `CustomerJourney.FormatLabelExamples` | src/components/CustomerJourney.tsx:83 | `phone_call` shows as `phone call`, `a_b_c` as `a b_c` |
| `CustomerJourney.SummaryLineCount` | src/components/CustomerJourney.tsx:91 | without a transcript summary the line is a decimal number and ` messages exchanged`, and the number reads back as the message count |
| `CustomerJourney.ConnectorsBetween` | src/components/CustomerJourney.tsx:160 | `Connector`: every interaction but the last has one |
| `CustomerJourney.IdText` | src/components/CustomerJourney.tsx:6 | the selection is always one of the two identifiers |
| `CustomerJourney.Selector.constructor` | src/components/CustomerJourney.tsx:6 | the selection starts at `CUSTOMER_001` |
| `CustomerJourney.Selector.Select` | src/components/CustomerJourney.tsx:41-60 | a button overwrites the selection with its own id, and only that button is highlighted |

## Left out

- Rendering is not modelled: JSX, Tailwind classes and lucide icons. Colours and icons are small enumerations.
- Timer durations (500, 800, 1000 and 2000 ms) are not modelled. Each callback is an explicit event. Timers pending together fire in scheduling order, which holds because each component uses a single delay.
- Message ids and timestamps (`Date.now()`, `new Date()`) are not modelled. The audit timestamp is a parameter.
- The JSON catalogs are parameters: the analysis catalog (which must hold `DEFAULT`), the stage list and the message list. Only the length of the message list matters to the replay.
- Message payloads, confidence bars, `toFixed` and `toLocaleString` displays are left out because they are floating-point presentation. Journey scores are `real`.
- Letter-case mapping covers ASCII letters only. JavaScript's full Unicode case mapping is not modelled.
- Topic replies, the generic reply and the welcome message are paraphrased, not quoted. The profile reply keeps the template's fields in order, with its formatting reduced to plain lines.
- Effect bodies are applied atomically with the prop change that triggers them. React paints once in between: for that one frame after processing turns off, the replayer's banner is still hidden, and `BannerWhenIdle` speaks only of settled states.
- `Form.HandleSubmit` does not model the disabled submit button: the model admits submits while processing, which the page does not, and every lemma holds for all such sequences.
- `console.log` in the admin save path and `scrollIntoView` in the chat have no observable state and are left out.
- The example-question buttons are modelled as setting the input (`Chat.SetInputText`).
- The message type label (`replace('_', ' ')` in the replayer) reuses the journey's first-underscore rule through `Text.ReplaceFirst`.
- The product tour (react-joyride), the welcome modal, the header, the sidebar, analytics, responsible AI and the about page are static wiring and not part of this model.
- `LookupIn`: it models the corrected, own-key lookup, and `RiskAnalysis.Complete` and `RiskAnalysis.Form.FireLookup` use it. The code's inherited-member behaviour is modelled separately by `LookupAsWritten`; what React's `setAnalysis` then does with the inherited value is not modelled.
- `AgentName`, `AgentColorOf` and `AgentWorkflow.IconFor` are modelled as own-key lookups. The source indexes plain object literals, so an id such as `toString` would find an `Object.prototype` member; the model assumes the agent, stage and message catalogs, which are not part of this model, use none of `RiskAnalysis.ObjectPrototypeMembers` as an id.
- `CustomerJourney.ScoreColor` and `RiskAnalysis.ScoreColor` take `real` and `int` scores respectively. JavaScript numbers are not distinguished further.

## Findings

| source | as written | input that shows it | evidently intended | confidence | as-written member | corrected member |
|---|---|---|---|---|---|---|
| src/components/RiskAnalysis.tsx:21 | `customerData[key] \|\| customerData.DEFAULT` indexes a plain object, so a name inherited from `Object.prototype` finds no `DEFAULT` record. When the value found is a function, `setAnalysis` calls it as an updater; `__proto__` stores `Object.prototype` itself. Depending on the name, the results panel throws on `explanations.communication_score` (`constructor` first time, `toString`, `__proto__`), the updater throws (`valueOf`), or the previous analysis stays on screen (`constructor` after an earlier result) | the input ` constructor ` (or `toString`, `__proto__`) | every key that is not a catalog entry gets the `DEFAULT` record | not executed; derived from JavaScript's property lookup rules | `RiskAnalysis.AsWrittenInheritedKey` | `RiskAnalysis.LookupCorrected` |
