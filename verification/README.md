# what-to-do, modelled in Dafny

what-to-do recommends one "next action" at a time. The API side has three parts:

- a daily-quota entitlement tracker: FREE users get 5 actions per UTC day, PRO users are unlimited;
- a plan synchroniser that turns billing webhook events into plan, status and period-end writes on the same entitlement table;
- a recommendation generator that asks a language model for an action. It retries once when the reply does not parse or validate, stores the accepted action, serves a per-user history and records feedback.

Three schemas validate its inputs and the model's reply. On the web side:

- a focus timer counts down and shows `mm:ss`;
- a goal editor adds and removes goals;
- a constraint picker sets energy, time and context;
- a three-step onboarding wizard collects both and hands them to the dashboard.

The model, module by module:

| file | module | what it holds |
|---|---|---|
| `wrappers.dfy` | `Wrappers` | `Option` and `Result` |
| `entitlements.dfy` | `Entitlements` | the entitlement record; the pure status report and admission decision; the table as a class over a map, with `getStatus` and `checkAndIncrementUsage` as methods; the per-day quota lemmas |
| `billing.dfy` | `Billing` | the webhook events as a datatype; the write each one asks for; the upsert; the two service methods on the entitlement table; idempotence of redelivery; the downgrade quirk |
| `schemas.dfy` | `Schemas` | parsed JSON as a datatype; the three schemas as predicates; the typed values a successful parse yields |
| `actions.dfy` | `Actions` | goal resolution; the two-attempt request loop as a method proved against a function; the action and feedback tables as a class; the history query |
| `focus_timer.dfy` | `FocusTimer` | `toString`, `padStart` and `%` as JavaScript defines them; `formatTime` and its round trip; the timer as a class |
| `goal_editor.dfy` | `GoalEditor` | `String.prototype.trim`; adding and removing goals; the editor as a class |
| `constraint_picker.dfy` | `ConstraintPicker` | the energy label; the three change handlers; the slider positions |
| `onboarding.dfy` | `Onboarding` | the wizard as a class over its step; the step functions and their range lemma |
| `web_client.dfy` | `WebClient` | the dashboard's next-action request body, checked against the input schema |

Conventions:

- Times are milliseconds since the epoch, as a JavaScript `Date` holds them. The UTC day of `t` is `t / 86400000`, which is the date part of `toISOString()`.
- JSON numbers are reals.
- The language model together with `JSON.parse` is an oracle `llm(attempt, messages)`. It yields a thrown message or a parsed body, together with the message the schema library would give if that body failed the response schema. `Actions.Judge` applies the response schema itself.
- Tables are maps or sequences in memory. Sequence order is creation order.

The reply schema puts no bound on `time_minutes` (api/src/schemas/action.schema.ts:22). `Schemas.StepBoundsAndUnboundedMinutes` shows that a reply with a negative time is accepted.

## Model

| member | source | states |
|---|---|---|
| Entitlements.UtcDay | api/src/services/entitlement.service.ts:24-27 | the day number of a timestamp is the day whose 86 400 000 ms window contains it |
| Entitlements.WithRecord | api/src/services/entitlement.service.ts:8-21 | a missing user gets a default FREE/ACTIVE record with no usage; an existing record and every other user are untouched |
| Entitlements.UsageOn | api/src/services/entitlement.service.ts:23-44 | today's usage never exceeds the stored counter and is 0 unless the last use fell on today's UTC day (the lazy reset) |
| Entitlements.Report | api/src/services/entitlement.service.ts:23-50 | plan copied; limit always 5; usage counts only if last used today, else 0; remaining is UNLIMITED exactly for PRO; FREE remaining is never more than 5, is positive exactly while usage is under 5, and is 5 minus usage |
| Entitlements.Admit | api/src/services/entitlement.service.ts:53-107 | admitted iff PRO or today's usage is under 5; a refusal changes nothing; plan, status and period end are never written; PRO keeps its counter; an admission stamps the call time; a FREE admission sets usage to today's usage plus one, so a new day restarts at 1 |
| Entitlements.EntitlementStore.GetStatus | api/src/services/entitlement.service.ts:7-51 | the table afterwards holds the caller's record, created if missing, and the report is the status of that record for today |
| Entitlements.EntitlementStore.CheckAndIncrementUsage | api/src/services/entitlement.service.ts:53-107 | the answer and the caller's new record are the admission decision on the (created if missing) record; every other user's record is unchanged |
| Entitlements.FreeAdmissionsBoundedPerDay | api/src/services/entitlement.service.ts:41-104 | over sequential calls on one UTC day a FREE user is admitted at most 5 − (today's usage) times, at most 5 in all, and plan and status stay as they were |
| Entitlements.FreeAdmittedUntilLimit | api/src/services/entitlement.service.ts:65-106 | while the quota lasts every same-day call of a FREE user is admitted and today's usage rises by exactly one per call |
| Entitlements.SixthSameDayCallRefused | api/src/services/entitlement.service.ts:65-67 | a FREE user who has not yet used the service today is admitted on five calls that day, and the sixth is refused |
| Billing.CheckoutUser | api/src/services/stripe.service.ts:66-68 | the user is the metadata user id when non-empty, else the client reference id when non-empty, else there is none |
| Billing.CustomerUser | api/src/services/stripe.service.ts:82-87 | a user is found exactly when the customer has a non-empty email registered to a user, and it is that user |
| Billing.WriteFor | api/src/services/stripe.service.ts:63-113 | checkout writes PRO/ACTIVE with no period end; a subscription update writes PRO/ACTIVE exactly when its status is "active" (else FREE/INACTIVE) with period end = seconds × 1000; deletion writes FREE/INACTIVE; each happens only for a resolved user, and other event types write nothing |
| Billing.Upsert | api/src/services/stripe.service.ts:116-133 | only the written user's record changes; plan and status are set; period end is set when given and otherwise kept (null on create); an existing record keeps its usage count and last-usage date; a created one starts with none |
| Billing.ApplyEvent | api/src/services/stripe.service.ts:62-114 | an event that resolves to no write leaves the table unchanged; no event ever changes anyone's usage fields |
| Billing.UpdateEntitlement | api/src/services/stripe.service.ts:116-133 | the table afterwards is the upsert of the write on the table before |
| Billing.HandleWebhook | api/src/services/stripe.service.ts:62-114 | the table afterwards is the event applied to the table before |
| Billing.UpsertIdempotent | api/src/services/stripe.service.ts:117-132 | performing the same write twice gives the same table as once |
| Billing.RedeliveryIsHarmless | api/src/services/stripe.service.ts:62-114 | handling the same event twice gives the same table as handling it once |
| Billing.CheckoutKeepsPeriodEnd | api/src/services/stripe.service.ts:64-71 | a completed checkout makes an existing user PRO/ACTIVE and leaves their stored period end as it was |
| Billing.DowngradeInheritsStaleCounter | api/src/services/stripe.service.ts:116-125 | a PRO user whose counter sits at the free limit is admitted in the morning; after a same-day cancellation they are FREE and refused for the rest of that day, because neither the PRO call nor the downgrade resets the counter |
| Schemas.OptionalText | api/src/schemas/action.schema.ts:13 | an optional nullable string reads as its text when present and as nothing when absent or null |
| Schemas.ContextName | api/src/schemas/action.schema.ts:7 | every context has one of the three enum names |
| Schemas.ContextNamed | api/src/schemas/action.schema.ts:7 | an accepted enum name denotes the context whose name it is |
| Schemas.ContextNamesCorrespond | api/src/schemas/action.schema.ts:7 | naming a context and reading the name back gives the same context, so names and contexts correspond one to one |
| Schemas.ParseGoal | api/src/schemas/action.schema.ts:8-14 | a valid goal object yields its id, title, description, priority and optional deadline; the round trip is `Schemas.GoalRoundTrip` |
| Schemas.GoalRoundTrip | api/src/schemas/action.schema.ts:8-14 | every goal, sent with its deadline as text, left out or null, is accepted and parses back to itself |
| Schemas.NextActionInputValid | api/src/schemas/action.schema.ts:4-15 | the input schema: minutes in [5, 1440], energy in [1, 5], a context name, goals absent or an array of goal objects; `Schemas.ParseNextActionInput` proves parsing succeeds exactly on it |
| Schemas.ParseNextActionInput | api/src/schemas/action.schema.ts:4-15 | parsing succeeds exactly on valid input; the result holds the input's minutes and energy (within their bounds), the context named by its text, and one parsed goal per element, with goals absent exactly when the field is |
| Schemas.NextActionInputRoundTrip | api/src/schemas/action.schema.ts:4-15 | a request sent as a client would is accepted exactly when its minutes and energy are in range, and then parses back to itself |
| Schemas.LlmResponseValid | api/src/schemas/action.schema.ts:18-26 | the response schema: five strings, 3 to 6 string steps, a numeric time and a difficulty in [1, 5]; `Schemas.ParseLlmAction` proves parsing succeeds exactly on it |
| Schemas.ParseLlmAction | api/src/schemas/action.schema.ts:18-26 | parsing succeeds exactly when all five strings are present, steps holds 3 to 6 strings, time is a number and difficulty is in [1, 5]; the fields are carried over |
| Schemas.StepBoundsAndUnboundedMinutes | api/src/schemas/action.schema.ts:21-23 | replies with 2 or 7 steps are rejected, 3 and 6 accepted, and a negative time is accepted |
| Schemas.FeedbackTypeName | api/src/schemas/action.schema.ts:31 | every feedback type has one of the four enum names |
| Schemas.FeedbackTypeNamed | api/src/schemas/action.schema.ts:31 | an accepted enum name denotes the feedback type whose name it is |
| Schemas.FeedbackTypeNamesCorrespond | api/src/schemas/action.schema.ts:31 | naming a feedback type and reading the name back gives the same type |
| Schemas.FeedbackInputValid | api/src/schemas/action.schema.ts:29-33 | the feedback schema: a string action id, a feedback type name and a note that is absent, null or a string; `Schemas.ParseFeedbackInput` proves parsing succeeds exactly on it |
| Schemas.ParseFeedbackInput | api/src/schemas/action.schema.ts:29-33 | parsing succeeds exactly on valid feedback and yields its action id, the type its name denotes and the note (none when absent or null); the round trip is `Schemas.FeedbackRoundTrip` |
| Schemas.FeedbackRoundTrip | api/src/schemas/action.schema.ts:29-33 | all feedback, with the note given, left out or null, is accepted and parses back to itself |
| Actions.UserGoals | api/src/services/action.service.ts:16-25 | only the user's goals, no more than are stored, and every stored goal of the user is among them; order and multiplicity are fixed by `Actions.UserGoalsAppend` and `Actions.UserGoalsSingle` |
| Actions.UserGoalsAppend | api/src/services/action.service.ts:16-25 | selecting from two tables in a row gives the selection from the first followed by the selection from the second, so the user's goals keep their table order and multiplicity |
| Actions.UserGoalsSingle | api/src/services/action.service.ts:16-25 | a single row is selected exactly when the user owns it |
| Actions.ResolveGoals | api/src/services/action.service.ts:14-34 | the caller's goals when given and non-empty; otherwise each of the user's stored goals with its deadline as ISO text or null |
| Actions.RawJson | api/src/services/action.service.ts:92 | the stored raw text is the reply's content when non-empty and `'{}'` otherwise, so it is never empty |
| Actions.FailureText | api/src/services/action.service.ts:100-103 | the failure message is the fixed prefix followed by the last attempt's error |
| Actions.Generation | api/src/services/action.service.ts:62-109 | the loop's outcome attempt by attempt: success on attempt 1 exactly when the first reply is accepted; failure exactly when both attempts fail, the second having been told the first one's error; a success takes 1 or 2 attempts |
| Actions.OrUnknown | api/src/services/action.service.ts:100 | an error message is kept when non-empty and otherwise becomes "Unknown error", so it is never empty |
| Actions.Judge | api/src/services/action.service.ts:85-100 | an attempt succeeds exactly when the reply parsed and satisfies the response schema, keeping the raw text (`'{}'` for no content) and the parsed action; a failure always has a non-empty message, the thrown one when there is one |
| Actions.RequestAction | api/src/services/action.service.ts:62-109 | one or two attempts; the first sends the system and user messages; the second is sent only after the first failed, with a note quoting its error appended; success iff the last attempt was accepted; after two failures the error is the fixed prefix plus the last message; the outcome equals the attempt-by-attempt specification |
| Actions.NewRecord | api/src/services/action.service.ts:112-129 | the stored record carries exactly the validated action, the given id, user and creation time, no goal, the model name and the raw reply text |
| Actions.GeneratedRecordWithinSchema | api/src/services/action.service.ts:112-129 | the record stored for an accepted reply has 3 to 6 steps, difficulty in [1, 5], no goal and model "gpt-3.5-turbo" |
| Actions.FindAction | api/src/services/action.service.ts:144-146 | absent exactly when no action has that id; when found it has that id |
| Actions.FindActionUnique | api/src/services/action.service.ts:144-146 | with ids a unique key, the lookup of an id finds the one action that has it |
| Actions.Latest | api/src/services/action.service.ts:134-140 | at most n actions, all the user's own and all stored |
| Actions.LatestIsNewestOwned | api/src/services/action.service.ts:134-140 | the history is the user's actions newest first, cut to the first n |
| Actions.NewActionHeadsHistory | api/src/services/action.service.ts:134-140 | a new action heads its owner's history followed by the previous newest 19, and leaves every other user's history unchanged |
| Actions.ActionStore.constructor | api/src/services/action.service.ts:12-160 | the tables start with the given goals, no actions and no feedback, and action ids are distinct |
| Actions.ActionStore.GenerateNextAction | api/src/services/action.service.ts:12-132 | on success exactly one record built from the accepted reply is appended and returned; on failure the loop's error is returned and nothing is appended; goals and feedback are untouched; given a fresh id, action ids stay distinct |
| Actions.ActionStore.GetHistory | api/src/services/action.service.ts:134-140 | the caller's actions newest first, cut to the first 20; each is the caller's own and stored |
| Actions.ActionStore.SubmitFeedback | api/src/services/action.service.ts:142-160 | a missing action or one owned by someone else gives "Action not found or unauthorized" and no record; otherwise exactly one feedback record with the given user, action, type and note is appended; with distinct ids, feedback is accepted exactly when the action with that id is the caller's |
| FocusTimer.FormatTime | web/src/components/FocusTimer.tsx:52-56 | the text is at least five characters, with ':' third from the end for a non-negative count; its meaning is stated by `FocusTimer.FormatTimeRoundTrip` |
| FocusTimer.Decimal | web/src/components/FocusTimer.tsx:55 | `toString()` of a natural number that is a safe integer (at most 2^53 − 1) is a non-empty digit string with no leading zero, one digit exactly below 10 and at most two below 100 |
| FocusTimer.PadStart2 | web/src/components/FocusTimer.tsx:55 | `padStart(2, '0')` prefixes zeros up to width 2 and leaves longer strings as they are |
| FocusTimer.JsRem | web/src/components/FocusTimer.tsx:54 | JavaScript's `%` is the mathematical remainder for a non-negative dividend and takes the dividend's sign otherwise |
| FocusTimer.DecimalValue | web/src/components/FocusTimer.tsx:55 | for a safe integer, the digits of `toString()` read back as the number |
| FocusTimer.PaddedFieldValue | web/src/components/FocusTimer.tsx:55 | for a safe integer, a padded field is all digits and reads back as its number |
| FocusTimer.PaddedFieldWidth | web/src/components/FocusTimer.tsx:55 | a padded field has at least two characters, and exactly two below 100 |
| FocusTimer.FormatTimeRoundTrip | web/src/components/FocusTimer.tsx:52-56 | for a count `s` that is a non-negative safe integer, `formatTime(s)` is minutes, ':' and a two-digit seconds field, whose values satisfy minutes·60 + seconds = s with seconds < 60 |
| FocusTimer.FormatTimeWidth | web/src/components/FocusTimer.tsx:52-56 | below 100 minutes the text is five characters with ':' in the middle |
| FocusTimer.DefaultStartShows2500 | web/src/components/FocusTimer.tsx:15-19 | the default 25-minute timer starts at "25:00" |
| FocusTimer.Timer.constructor | web/src/components/FocusTimer.tsx:14-21 | a new timer is inactive with the whole duration in seconds left |
| FocusTimer.Timer.Tick | web/src/components/FocusTimer.tsx:23-42 | while active with time left, one second goes by and nothing else changes; at zero the timer stops and the completion callback fires; otherwise nothing changes; the count stays within [0, duration] |
| FocusTimer.Timer.Toggle | web/src/components/FocusTimer.tsx:44 | running and paused swap and nothing else changes |
| FocusTimer.Timer.Reset | web/src/components/FocusTimer.tsx:46-50 | the timer stops with the whole duration back |
| FocusTimer.RunToCompletion | web/src/components/FocusTimer.tsx:23-42 | a started timer of m minutes has fired once after exactly m·60 + 1 effect runs, ending stopped at zero; stopping changes a dependency of the effect, so the next run fires the callback a second time |
| GoalEditor.Trim | web/src/components/GoalEditor.tsx:17-18 | `trim()` is empty exactly for blank text; otherwise it is the text between the leading and trailing white space and starts and ends with a non-space |
| GoalEditor.TrimIdempotent | web/src/components/GoalEditor.tsx:17-18 | trimming trimmed text changes nothing |
| GoalEditor.WithoutIndex | web/src/components/GoalEditor.tsx:23-25 | a valid index removes exactly that element and keeps the rest in order; any other index changes nothing |
| GoalEditor.AddedGoal | web/src/components/GoalEditor.tsx:16-21 | non-blank input is appended trimmed and the input cleared; blank input changes neither |
| GoalEditor.EditsKeepGoalsTidy | web/src/components/GoalEditor.tsx:16-25 | adding and removing keep every goal non-empty and trimmed |
| GoalEditor.RemoveUndoesAdd | web/src/components/GoalEditor.tsx:16-25 | removing the goal just added restores the list |
| GoalEditor.Editor.constructor | web/src/components/GoalEditor.tsx:13-14 | the editor shows the given goals with an empty input |
| GoalEditor.Editor.SetNewGoal | web/src/components/GoalEditor.tsx:45 | typing replaces the input and leaves the goals alone |
| GoalEditor.Editor.AddGoal | web/src/components/GoalEditor.tsx:16-21 | goals and input become the result of adding the input |
| GoalEditor.Editor.RemoveGoal | web/src/components/GoalEditor.tsx:23-25 | the goals lose the element at the index, the input is untouched |
| GoalEditor.Editor.HandleKeyDown | web/src/components/GoalEditor.tsx:27-31 | Enter behaves as adding; any other key changes nothing |
| GoalEditor.Editor.AddDisabled | web/src/components/GoalEditor.tsx:50 | the add button is disabled exactly when the input is blank |
| ConstraintPicker.EnergyLabel | web/src/components/ConstraintPicker.tsx:30-34 | "Low" exactly below 30, "Medium" exactly from 30 to 69, "High" exactly from 70 |
| ConstraintPicker.EnergyLabelMonotone | web/src/components/ConstraintPicker.tsx:30-34 | more energy never shows a lower label |
| ConstraintPicker.OnEnergyChange | web/src/components/ConstraintPicker.tsx:18-20 | energy becomes the first slider value; time and context are kept |
| ConstraintPicker.OnTimeChange | web/src/components/ConstraintPicker.tsx:22-24 | time becomes the first slider value; energy and context are kept |
| ConstraintPicker.OnContextChange | web/src/components/ConstraintPicker.tsx:26-28 | context becomes the typed text; energy and time are kept |
| ConstraintPicker.EditsCommute | web/src/components/ConstraintPicker.tsx:18-28 | edits to different fields commute, and a second energy edit overrides the first |
| ConstraintPicker.EnergyPositionsAre | web/src/components/ConstraintPicker.tsx:47-53 | the energy slider reports exactly the multiples of 5 from 0 to 100 |
| ConstraintPicker.TimePositionsAre | web/src/components/ConstraintPicker.tsx:64-71 | the time slider reports exactly the multiples of 5 from 5 to 120 |
| ConstraintPicker.EnergyLabelsOnSlider | web/src/components/ConstraintPicker.tsx:30-53 | along the energy slider the first six positions read Low, the next eight Medium and the last seven High |
| Onboarding.NextStep | web/src/pages/Onboarding.tsx:30-36 | Next moves one step forward below step 3 and stays on step 3 |
| Onboarding.BackStep | web/src/pages/Onboarding.tsx:38-40 | Back moves one step back above step 1 and stays on step 1 |
| Onboarding.StepStaysInRange | web/src/pages/Onboarding.tsx:30-40 | from a step in 1..3, any sequence of Next and Back presses stays in 1..3 |
| Onboarding.StepBoundedByNextPresses | web/src/pages/Onboarding.tsx:30-40 | the step rises by at most the number of Next presses, so the last screen takes at least two |
| Onboarding.Wizard.constructor | web/src/pages/Onboarding.tsx:15-21 | the wizard starts on step 1 with no goals, constraints 70 / 30 / "At desk", nothing stored and no navigation |
| Onboarding.Wizard.SetGoals | web/src/pages/Onboarding.tsx:110 | the goal editor replaces the goals and nothing else |
| Onboarding.Wizard.SetConstraints | web/src/pages/Onboarding.tsx:126 | the constraint picker replaces the constraints and nothing else |
| Onboarding.Wizard.HandleNext | web/src/pages/Onboarding.tsx:30-68 | below step 3 the step advances and nothing is stored; on step 3 the step stays, the goals and constraints are stored and the home route is entered; the step stays in 1..3 |
| Onboarding.Wizard.HandleBack | web/src/pages/Onboarding.tsx:38-40 | the step goes back one above step 1, stays otherwise, and nothing else changes |
| Onboarding.Wizard.BackDisabled | web/src/pages/Onboarding.tsx:151 | Back is disabled exactly on step 1 |
| Onboarding.Wizard.NextDisabled | web/src/pages/Onboarding.tsx:154 | Next is disabled exactly on step 1 with no goals |
| WebClient.DashboardRequest | web/src/pages/Dashboard.tsx:45-65 | a request is sent exactly when there is at least one goal, with the goals, energy, time and context as its body |
| WebClient.RequestBodyAcceptedIff | web/src/pages/Dashboard.tsx:60-65 | the input schema accepts the body exactly when it has no goals, energy in [1, 5], time in [5, 1440] and a context name |
| WebClient.EveryDashboardRequestRejected | web/src/pages/Dashboard.tsx:46-65 | every request the dashboard sends fails the input schema, whatever the constraints |
| WebClient.InitialConstraintsRejected | web/src/pages/Dashboard.tsx:22-26 | the starting constraints fail on energy (70 > 5) and on context ("At desk"), though their time passes |
| WebClient.SliderEnergyAcceptedOnlyAtFive | web/src/components/ConstraintPicker.tsx:47-53 | of all energy slider positions only 5 is within the schema's [1, 5] |
| WebClient.SliderTimeAlwaysAccepted | web/src/components/ConstraintPicker.tsx:64-71 | every time slider position is within the schema's [5, 1440] |

## Left out

- Billing-provider SDK calls are outside the model: session and portal creation, the customer search, `customers.retrieve` and its failures, and webhook signature checking (`constructEvent`). The customer → email and email → user lookups are given maps.
- The model call, the prompt text and `JSON.parse` are collapsed into the oracle `llm`. The system and user prompts are abstract messages that carry the input and goals.
- Database access (Prisma) is replaced by in-memory maps and sequences. Generated ids and creation times are parameters. History order is creation order, assuming creation times grow with insertion.
- Concurrency is not modelled: calls are sequential. The read-then-write race between two concurrent admission calls is outside the model, and so is the 5-per-day bound under interleavings.
- Entitlements.EntitlementStore.CheckAndIncrementUsage: the source reads the clock once in `getStatus` and again before writing. The model uses one time for both reads, so a call that straddles midnight is not modelled.
- Actions.ActionStore.GenerateNextAction: requires a fresh id. The database generates a unique id for each new action.
- Entitlements.EntitlementStore.CheckAndIncrementUsage: the missing-record guard after the re-read never fires with sequential calls, so the model has no branch for it.
- Dates out of `toISOString`'s range (which throw) are not modelled.
- Actions.ResolveGoals: ISO formatting of a deadline is a parameter `iso`.
- The HTTP layer is not modelled: controllers, middleware, routes and the status codes they choose.
- FocusTimer.Decimal: prints plain decimal digits for every natural number. JavaScript's `toString` does so only below 1e21 (from there on it uses exponent notation, `"1e+21"`), and a number above 2^53 − 1 is not held exactly. The timer's count is modelled as an exact, unbounded integer, so the model agrees with the source only for safe integers; the lemmas about read-back require a safe integer.
- FocusTimer.IntToString and FocusTimer.FormatTime: the same limit; `formatTime` of a count beyond the safe integers is not modelled as the source prints it.
- Floating point is not modelled: the timer's progress percentage, the onboarding progress bar and the billing page's bar width.
- `setInterval`, the notification sound, `localStorage` failures, the toast shown on error and the `isGenerating` flag are not modelled. The stored goals and constraints are a field of the wizard, and navigation is a field holding the route.
- FocusTimer.Timer.Tick: one call is one run of the effect. React reruns the effect only when its inputs change, and the model does not capture which reruns actually happen.
- FocusTimer.Timer: durations are whole minutes. A fractional `durationMinutes` (the prop accepts any number) gives a count that steps past 0 to a negative value and never completes; that is not modelled.
- FocusTimer.Timer.Tick: requires the timer's invariant, which the constructor establishes and every method keeps.
- FocusTimer.Timer.Toggle and FocusTimer.Timer.Reset: the same invariant precondition.
- ConstraintPicker.OnEnergyChange: requires a non-empty slider value array. The slider has one thumb and always reports one value; an empty array would store `undefined`.
- ConstraintPicker.OnTimeChange: requires a non-empty slider value array, for the same reason.
- Onboarding.Wizard.SetGoals: requires step 1, the only step that shows the goal editor.
- Onboarding.Wizard.SetConstraints: requires step 2, the only step that shows the constraint picker.
- Slider values are whole numbers. Energy and time are integers in the constraint record and become JSON numbers in the request body.
- Rendering, animation and the other pages (Billing, History, Landing, Layout, routing) are not modelled. Neither are the seed script or the `fetch` client.
