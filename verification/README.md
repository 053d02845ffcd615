# Verified models of an agent server's protocols

The server runs coding agents for pull requests, chat threads and schedules. This project models the parts of it
that have to be right under interleaving, failure or hostile input, and proves what they promise.

* **Streams and envelopes.** `Ttft` cuts a byte stream into frames and watches for each run's first text. `Xml` is a reader
  and printer for the fragment of XML 1.0 that the messages use; `InputMessages`, `DynamicContext` and `BuildInput` are the
  envelopes printed with it: serializing, splicing data into, hashing, and reading back.
* **Watching CI.** `BabySit` is the stored watch of one pull request under its lock: evaluations, webhooks, recorded retries,
  starting and stopping.
* **Lifecycles with failures.** `PlanReview` (approve, reject, roll back), `Sandbox` (bind a thread to a sandbox), `Schedules`
  (one live cron per enabled schedule), `Profiles` (refresh a token once) and `Environments` (capture a snapshot). Each access
  to the store, the platform or GitHub is a step that may fail; where callers interleave, a run is a sequence of such steps.
* **Lists and aggregates.** `AgentUsage` (the leaderboard), `Skills` with `Base64` (cursor paging), `ReviewList` (a bounded,
  filtered scan), `ReviewThreads` (a block of untrusted text) and `Completion` (a window of run ids).
* `Common`, `Sorting` and `Json` hold the shared vocabulary: Python's `find`, `strip`, `split`, stable `sorted`, string order.

What another system answers is a parameter of the model: GitHub, the store, the sandbox platform, clocks, SHA-256 and
`json.loads`. Proofs hold for every value of these parameters. Code that works by updating records step by step is a class
or a method with loops, proved equal to a function on states; the theorems are about that function and its runs.

Where a promise fails in the code, the code is kept as it is: there is a lemma with an input that shows the failure, and a
theorem that says exactly when the promise holds. These are:

* a non-finite timestamp makes `feed` raise and uses up its message (`Ttft.NonFiniteTimestampRaises`; exact in
  `Ttft.ObservedExactlyOncePerMessage`, and `Ttft.EveryChunkingAgrees` covers the exception);
* a data field named `content` hides an envelope's text (`InputMessages.ContentFieldHidesTheText`; exact in
  `InputMessages.EnvelopeRoundTrip`), and a carriage return changes it (`InputMessages.CarriageReturnIsRewritten`; exact in
  `InputMessages.TextComesBackUnchanged`);
* an identity without fields, or with a carriage return in one, fails its own hash check (`DynamicContext.NoFieldsNoHash`,
  `DynamicContext.ReturnInAFieldNoHash`; exact in `DynamicContext.SelfVerifying`);
* a watch that loses a sighting, such as by a stop whose cron stays, can complete on a check set seen before another head
  (`BabySit.StaleKeyCompletesAfterFailedStop`; exact per evaluation in `BabySit.EvaluationWitnesses`);
* a failed read while marking or rolling back an approval drops the plan, a failed put of the rollback leaves it approved though
  nobody implements it, and a lost metadata update leaves it undecidable (`PlanReview.FailedReadLosesThePlan`,
  `PlanReview.FailedRollbackStaysApproved`, `PlanReview.LostUpdateLeavesUndecidable`; exact in `PlanReview.FailedDispatchRollsBack`);
* a stale id in a run's configuration splits a sandbox binding, and a failed metadata lookup abandons a healthy sandbox
  (`Sandbox.StaleReadSplitsTheBinding`, `Sandbox.FailedLookupAbandonsTheSandbox`; exact in `Sandbox.BindingIsAllOrNothing` and
  `Sandbox.IdentityChangesOnlyForCause`);
* a cron deletion that fails unnoticed leaves a cron without a schedule (`Schedules.FailedDeletionLeavesACron`; exact in
  `Schedules.DeleteAgrees` and `Schedules.UpdateAgrees`);
* a login that arrives between the last check and the deletion of a dead authorization is deleted (`Profiles.LateCallbackIsLost`;
  exact in `Profiles.OnlyTheRefusedIsDropped`), and one that arrives during a refresh that succeeds is overwritten with tokens of
  the older grant (`Profiles.SuccessfulRefreshOverwritesALogin`; exact in `Profiles.RefreshesReplaceWhatTheyRead`);
* two failed look-ups around one capture leave a ready environment on a deleted snapshot
  (`Environments.LostRecordBootsADeletedSnapshot`; exact in `Environments.CaptureBootsLive`); a capture that raises can leave a
  ready environment capturing, when the result of its failure cannot be written (`Environments.UnrestoredCaptureIsNotReady`) or
  when it succeeded and cannot be recorded (`Environments.UnrecordedCaptureIsNotReady`; both exact in
  `Environments.FailedCaptureKeepsTheSnapshot`); and so can one that returns (`Environments.ReturnedCaptureIsNotReady`; exact in
  `Environments.ReturnedCaptureIsBooted`);
* a caller with two leaderboard rows past the limit is shown only the worse one (`AgentUsage.TwoPlacesOneShown`; exact in
  `AgentUsage.WhoIsShown`);
* a login that ends in a line feed passes the login check of the review thread block (`ReviewThreads.LineFeedAfterALogin`; exact in
  `ReviewThreads.LineFeedInLogin`);
* a failure reply or cost refresh that could not be noted in the metadata is repeated when its webhook is redelivered (both halves
  in `Completion.RedeliveryIsActedOn`).

## Model

| member | source | states |
|---|---|---|
| `Ttft.CutAtFirstCompleteSeparator` | agent/dashboard/ttft.py:39-47 | The cut by lowest start is the cut by lowest end: there is none exactly when no separator is complete, and otherwise it is the separator completed first, whichever spelling |
| `Ttft.CutAfterAppend` | agent/dashboard/ttft.py:39-47 | Bytes that arrive later never move a cut that was already possible |
| `Ttft.ChunkInvariance` | agent/dashboard/ttft.py:28-47 | For every state and all bytes a, b: feeding a then b gives the same observations, exception and state as feeding a+b |
| `Ttft.EveryChunkingAgrees` | agent/dashboard/ttft.py:28-47 | For every chunking of a stream, outcome and state are those of feeding it whole; after an exception only unfed bytes differ |
| `Ttft.DrainLeavesNoSeparator` | agent/dashboard/ttft.py:28-37 | A `feed` that returns leaves no complete separator in the buffer |
| `Ttft.ObserveClassifies` | agent/dashboard/ttft.py:63-124 | The nested type checks read every JSON payload as one of five events, and act as that event says |
| `Ttft.ReplayedSets` | agent/dashboard/ttft.py:63-124 | After any events, the run id and the two namespace sets are what the history says: the latest run, the open AI messages, and those whose text was seen |
| `Ttft.RunStartMeans` | agent/dashboard/ttft.py:63-124 | A payload starts a run if and only if it is the root's lifecycle event `running` with an id `synth:<run>:`, and the run is what stands between those colons |
| `Ttft.StartAndFinishMean` | agent/dashboard/ttft.py:78-90 | A message starts exactly with `message-start` and the role `ai`, and finishes exactly with `message-finish`, in the namespace the payload names |
| `Ttft.TextMeans` | agent/dashboard/ttft.py:91-111 | A text arrives exactly with a non-empty text delta of its namespace; its time is the timestamp without its fraction, or not finite |
| `Ttft.ObservedExactlyOncePerMessage` | agent/dashboard/ttft.py:91-111 | An event is observed if and only if it is the first usable text of an open AI message with a known run; it carries the latest run id and the event's timestamp, and raises exactly for non-finite ones |
| `Ttft.NonFiniteTimestampRaises` | agent/dashboard/ttft.py:98-111 | A first text with a non-finite timestamp raises, and a later text of the message, observed without it, no longer is |
| `Ttft.ObservationsAreSeparated` | agent/dashboard/ttft.py:81-111 | Between two observations in one namespace lies that namespace's AI message-start |
| `Ttft.ObservedStaysWithinOpen` | agent/dashboard/ttft.py:81-124 | Observed namespaces are always among the open AI namespaces |
| `Ttft.StreamIsObserved` | agent/dashboard/ttft.py:28-124 | End to end: however a stream is chunked, a new detector raises if and only if one of its frames makes it raise, and otherwise returns exactly the observations of the events in its frames, in the state those events leave; what a frame says is `Ttft.FrameReachesTheDecoder` |
| `Ttft.FrameReachesTheDecoder` | agent/dashboard/ttft.py:49-61 | For all lines and line ends: a frame means what the decoder makes of the texts of its data lines, joined by line feeds, without `data:` and the white space after it; other lines do not count, and without a data line there is no payload |
| `Ttft.EveryFrameIsWritten` | agent/dashboard/ttft.py:49-61 | Every frame is such a text of lines and line ends, so the decoder is reached in no other way |
| `Ttft.FrameIsFed` | agent/dashboard/ttft.py:28-124 | Lifted to `feed`: one frame and its separator do to state and caller exactly what the object in its data lines says, and nothing without one |
| `Ttft.AssistantTextEventDetector.PopFrame` | agent/dashboard/ttft.py:39-47 | Removes exactly the first frame and its separator from the buffer, or nothing |
| `Ttft.AssistantTextEventDetector.ObserveLifecycle` | agent/dashboard/ttft.py:113-124 | Changes the fields as the lifecycle function of the payload does |
| `Ttft.AssistantTextEventDetector.Observe` | agent/dashboard/ttft.py:63-111 | Result and new fields are those of the specification of one payload |
| `Ttft.AssistantTextEventDetector.Feed` | agent/dashboard/ttft.py:28-37 | The while loop computes the specified observations and final state, which `Ttft.FrameIsFed` gives by the lines of a frame |
| `Xml.EscapeIsCharwise` | agent/input_messages.py:84-89 | The chained replacements of `html.escape` act on each character once |
| `Xml.ReadPrinted` | agent/input_messages.py:109-144 | Reading inverts printing exactly for trees with legal names, for every text, attribute and following input |
| `Xml.PrintedChars` | agent/input_messages.py:84-89 | Escaping neither hides nor introduces a character XML forbids |
| `Xml.ReadPrintedDocument` | agent/input_messages.py:109-144 | A printed tree parses if and only if its names and characters are legal, and comes back with line ends normalized (sections 2.2, 2.11 and 3.1 of XML 1.0) |
| `InputMessages.DataElementPrints` | agent/input_messages.py:223-232 | The string a data value is written as is the print of its tree; it fails exactly for an invalid name anywhere inside |
| `InputMessages.FieldNamesAre` | agent/input_messages.py:223-225 | A field name is valid if and only if what is left of it without underscores and hyphens is a non-empty text of letters and digits |
| `InputMessages.IdsAre` | agent/input_messages.py:92-97 | An id is valid if and only if it holds a colon and neither white space nor one of the four markup characters |
| `InputMessages.SerializePrints` | agent/input_messages.py:235-248 | Serializing succeeds exactly for valid ids and names, and prints the envelope's tree, which `InputMessages.EnvelopeReadsBack` spells out |
| `InputMessages.SpliceExtends` | agent/input_messages.py:254-260 | A splice lands just inside the envelope's own end tag, whatever text and data contain: it adds one field to the tree |
| `InputMessages.AppendAllExtends` | agent/input_messages.py:254-280 | Any number of splices is the serialization with those fields added, and fails exactly at an invalid name |
| `InputMessages.EnvelopeReadsBack` | agent/input_messages.py:223-280 | Every legal envelope, after any splices, reads back with its sender, the channel exactly if there is one, surface and kind by their literal names, and then each data field, the text as `content`, and each spliced field, in order, by name and line-normalized text |
| `InputMessages.EnvelopeRoundTrip` | agent/input_messages.py:109-144 | For every text, valid context and sequence of splices: sender unchanged and text stripped come back if and only if all names and characters are legal, unless a field named `content` hides the text |
| `InputMessages.BlocksAreReadInOrder` | agent/input_messages.py:109-144 | A content of several blocks reads as its parts do: their texts in order, a blank line apart, and the first sender there is |
| `InputMessages.TextComesBackUnchanged` | agent/input_messages.py:127-144 | The text read back is exactly the stripped text if and only if no carriage return is left inside it |
| `InputMessages.ContentFieldHidesTheText` | agent/input_messages.py:127-144 | With a data field `content` holding "b", the text "a" reads back as "b" |
| `InputMessages.CarriageReturnIsRewritten` | agent/input_messages.py:127-144 | A carriage return between two letters reads back as a line feed |
| `DynamicContext.CanonicalPrints` | agent/input_messages.py:192-208 | The canonical text is the print of the context's tree |
| `DynamicContext.MessagePrints` | agent/input_messages.py:192-208 | Replacing the first `>` puts the hash into the opening tag as one more attribute |
| `DynamicContext.RerenderedText` | agent/input_messages.py:147-164 | What the reader hashes is the canonical text with normalized line ends, and a different text when there are no fields |
| `DynamicContext.IntroductionReadsBack` | agent/input_messages.py:192-220 | Every legal introduction reads back with its kind of entity by name, id and hash, and then exactly the known fields the identity has, in order, each with its line-normalized value; topic and purpose are marked untrusted, and nothing else is |
| `DynamicContext.ConditionsMean` | agent/input_messages.py:64-80 | The three conditions of `DynamicContext.SelfVerifying`, by the identity's fields: some known field is not empty, one of those holds a carriage return, all hold only legal characters |
| `DynamicContext.SelfVerifying` | agent/input_messages.py:147-208 | The hash read back is the embedded one if and only if there is a non-empty field, every character is legal and no field holds a carriage return; otherwise there is none. Of the digest it needs only that it tells this context's two renderings apart when they differ |
| `DynamicContext.NoFieldsNoHash` | agent/input_messages.py:147-208 | An introduction without fields carries no hash its reader confirms |
| `DynamicContext.ReturnInAFieldNoHash` | agent/input_messages.py:147-208 | Nor does one with a carriage return in a field |
| `BuildInput.AppendMessageData` | agent/input_messages.py:263-280 | The backwards loop splices into the last text block that is an envelope, and changes no other block |
| `BuildInput.BlocksAreStructured` | agent/input_messages.py:283-294 | Of the blocks of a content exactly the text blocks become envelopes around their text; it fails if and only if there is one and the context is invalid |
| `BuildInput.EachContextIsIntroducedOnce` | agent/input_messages.py:329-357 | Introduced hashes are distinct and were not injected before, and exactly they are added to the injected set |
| `BuildInput.InvalidIdsRaise` | agent/input_messages.py:92-97 | Introducing raises exactly when some identity's id is not a valid namespaced identifier |
| `BuildInput.VerifiedContextsAreRecorded` | agent/input_messages.py:329-357 | With valid ids, every identity whose hash verifies is in the injected set afterwards, and nothing is forgotten |
| `BuildInput.SecondCallIntroducesNothing` | agent/input_messages.py:329-357 | With valid ids, a second call with the set the first left introduces nothing and leaves the set unchanged |
| `BuildInput.BuildInputMessages` | agent/input_messages.py:329-357 | The loop over people, channels and systems yields the specified introductions, the content last, and mutates the caller's set accordingly |
| `BuildInput.FilterNewDynamicContexts` | agent/input_messages.py:309-326 | The filter drops exactly the messages whose verified hash was injected before, in order, and reports the hashes of the others |
| `BuildInput.FilteredAre` | agent/input_messages.py:309-326 | What is kept and where it stood: all messages but the texts whose verified hash was injected before |
| `BuildInput.WrappedHoldsAdditions` | agent/input_messages.py:385-417 | A wrapped prompt is wrapped and contains the serialization of every addition |
| `BuildInput.WrapIsIdempotent` | agent/input_messages.py:385-417 | Wrapping again with the same additions changes nothing, for every text and additions |
| `BuildInput.FreshPromptIsWrapped` | agent/input_messages.py:402-417 | A prompt that is not wrapped becomes, between the wrapper's two tags and a line each, the introduction of Open SWE, the prompt and each addition as messages of `system:open-swe`, in order |
| `BuildInput.WrappedPromptGains` | agent/input_messages.py:385-401 | A wrapped prompt gains right before its end tag exactly the messages of those additions it does not hold yet, and is left alone when there are none |
| `BuildInput.WrappedPromptReadsBack` | agent/input_messages.py:385-417 | For every prompt and additions: reading the wrapped prompt finds Open SWE as the sender and exactly the prompt and the additions, stripped and in order, as the text; and nothing if some character is illegal |
| `BabySit.CheckListOrderIsIrrelevant` | agent/baby_sit.py:362-411 | Aggregate state and check-set key are the same for every reordering of the check runs and statuses |
| `BabySit.StatesMean` | agent/baby_sit.py:334-411 | By the fields of the checks, four times if and only if: failing when some completed run or status failed; pending when none did and not all are done; success when there is a check and all passed; blocked otherwise |
| `BabySit.KeysTellCheckSetsApart` | agent/baby_sit.py:362-373 | With names without a bar: two check sets have the same hashed text if and only if they hold the same checks, each with the same id, name, status and conclusion |
| `BabySit.BarLooksLikeTwoChecks` | agent/baby_sit.py:362-373 | With a bar in its name, one check can have the text of two |
| `BabySit.EvaluationAnswersWith` | agent/baby_sit.py:498-584 | For every state, answer and check list: what an evaluation answers and records, by the fields of the checks. A run starts if and only if a check failed, fewer than 3 retries are used and none was started for as many; the watch completes if and only if all passed and have for ten minutes |
| `BabySit.EvaluationLeaves` | agent/baby_sit.py:498-584 | The record it leaves unless it stops: a new head starts over, a pending check forgets the sighting, passing ones keep the time of the first, a started run is noted |
| `BabySit.ThirdErrorStops` | agent/baby_sit.py:457-515 | Two evaluations in a row may go unanswered; a third stops the watch, as a closed pull request or an inactive watch does |
| `BabySit.StopMeans` | agent/baby_sit.py:249-263 | A stopped watch has no record, or an inactive one while its cron stays, or is unchanged when the write fails |
| `BabySit.NothingToWatch` | agent/baby_sit.py:477-482 | Without a record an evaluation does nothing, nor does a webhook without an active one |
| `BabySit.WebhookIsNotedOnce` | agent/baby_sit.py:613-637 | A delivery among the last 50 changes nothing; any other is noted and evaluated |
| `BabySit.RetryIsCounted` | agent/baby_sit.py:671-718 | A retry counts if and only if thread and head are the watched ones, fewer than 3 are used and it is stored; it changes the count and the last 30 alerts only |
| `BabySit.CheckIsNamed` | agent/baby_sit.py:671-706 | An alert names its check: stripped, at most 200 characters, and `CI check` for an empty name |
| `BabySit.AlertsTellApart` | agent/baby_sit.py:645-706 | Retries of checks without a bar in their names are one alert if and only if they show the same name and the same link, and only links to github.com are shown |
| `BabySit.RetryReopensDispatch` | agent/baby_sit.py:551-584 | After any run: once a retry is counted and some are left, the next evaluation that sees a failure starts a run again, if its write and dispatch succeed |
| `BabySit.StartMeans` | agent/baby_sit.py:190-246 | Which starts are refused, and the record a completed one leaves: counted and noted things are kept for the same head and empty for another |
| `BabySit.OperationKeepsSafe` | agent/baby_sit.py:477-718 | Every locked operation, start and stop keeps: retries at most 3, dispatched keys distinct, remembered and one per (epoch, retry count), whatever is answered |
| `BabySit.EveryRunIsSafe` | agent/baby_sit.py:477-718 | The same over every interleaving of operations from an empty store |
| `BabySit.LiveKeysAreFew` | agent/baby_sit.py:561-565 | A head has at most three live keys, so keeping the last thirty forgets none |
| `BabySit.AtMostThreeDispatchesPerEpoch` | agent/baby_sit.py:551-584 | Over every run, at most three failure runs are dispatched for one epoch |
| `BabySit.RetriesNeverFall` | agent/baby_sit.py:477-718 | No operation lowers the retry count of the head it counts for |
| `BabySit.RetriesGrowWithinAnEpoch` | agent/baby_sit.py:671-718 | Between any two points of a run an epoch keeps its head, and its retries only grow, up to 3 |
| `BabySit.EvaluationWitnesses` | agent/baby_sit.py:477-584 | For every state and every answer: after an evaluation the sighting on record is a real, uninterrupted one if and only if the evaluation did not lose one, that is, saw a new head, pending check or other passing set it could not write, or a blocked new head whose stop failed |
| `BabySit.CompletionIsEarned` | agent/baby_sit.py:376-545 | Over every run in which no evaluation loses a sighting, a completion follows a sighting of the same head with the same passing key at least ten minutes earlier, with nothing else seen in between; what passing means is `BabySit.StatesMean` and `BabySit.EventsAnswerToChecks` |
| `BabySit.EventsAnswerToChecks` | agent/baby_sit.py:477-584 | Over every run: each completion comes from an evaluation whose checks all passed, and each started run from one that saw a failure |
| `BabySit.LostSightingCompletesUnearned` | agent/baby_sit.py:376-545 | The condition is needed: after any run, once an evaluation loses a sighting, starting the watch again and one evaluation complete it unearned |
| `BabySit.StaleKeyCompletesAfterFailedStop` | agent/baby_sit.py:249-263 | A run of real operations whose failed stop loses a sighting: it completes on a check set last seen before another head, so its completions are not earned |
| `BabySit.WatchStore.StopWatch` | agent/baby_sit.py:249-263 | New record equals the specified stop: deleted, or kept inactive when the cron cannot be deleted |
| `BabySit.SettledMeansTenMinutes` | agent/baby_sit.py:376-390 | Over any sequence of passing check sets, a set has settled if and only if every one since some sighting at least ten minutes ago was the same |
| `BabySit.WatchStore.CheckSetSettled` | agent/baby_sit.py:376-390 | Settled if and only if the same key has been on record for ten minutes, and then nothing changes; otherwise the key is on record afterwards with the time it was first seen, and no other field changes |
| `BabySit.WatchStore.DispatchFailure` | agent/baby_sit.py:551-584 | Record, history and answer are those of the specified failing branch, with the key undone after a failed dispatch |
| `BabySit.WatchStore.EvaluateWatch` | agent/baby_sit.py:477-584 | Record, history and answer are those of the specified evaluation, which `BabySit.EvaluationAnswersWith`, `BabySit.EvaluationLeaves` and `BabySit.ThirdErrorStops` give by the checks' fields |
| `BabySit.WatchStore.HandleWebhook` | agent/baby_sit.py:613-637 | Duplicate deliveries change nothing; others are noted and evaluated as specified |
| `BabySit.WatchStore.RecordRetry` | agent/baby_sit.py:671-718 | Refused without change for another thread, head or a spent limit; otherwise one more retry and its alert key |
| `BabySit.WatchStore.StartWatch` | agent/baby_sit.py:190-246 | Counters survive exactly for the same head; a failed cron removes a new record |
| `PlanReview.PlanStore.SavePlanContent` | agent/dashboard/plan_store.py:75-115 | Record and metadata after each combination of failing accesses |
| `PlanReview.PlanStore.SetPlanStatus` | agent/dashboard/plan_store.py:156-197 | The new record keeps html, markdown and path of what was read; a failed read counts as no record, a failed merge is swallowed |
| `PlanReview.PlanStore.UpdatePlan` | agent/dashboard/plan_api.py:109-149 | Which edits are refused with which status, and the record an accepted one leaves |
| `PlanReview.DecisionsNeedPublications` | agent/dashboard/plan_api.py:215-297 | Over every interleaving of approvals, rejections, cancellations, failures and writers outside the lock, successful decisions never exceed ready publications |
| `PlanReview.DecisionsKeepThePlan` | agent/dashboard/plan_api.py:215-297 | Over every interleaving of decisions, failed dispatches, rollbacks and cancellations, without writers outside the lock and swallowed read failures, html, markdown and path stay the same, and a rollback leaves the record ready |
| `PlanReview.CountersCount` | agent/dashboard/plan_api.py:215-297 | Over every run: the decisions are the callers that ended with one, and the publications the ready plan there was and the ready ones written |
| `PlanReview.ApprovalLeaves` | agent/dashboard/plan_api.py:215-273 | From any state it can start in: record, metadata, counters and lock after an approval whose run was dispatched, as literals |
| `PlanReview.RejectionLeaves` | agent/dashboard/plan_api.py:276-304 | The same after a completed rejection: the plan is `revising`, keeps its text and has no approver; metadata says so too unless its update was lost |
| `PlanReview.NotReadyIsRefused` | agent/dashboard/plan_api.py:215-297 | A decision is refused if and only if record or metadata is not ready, or an approval finds no plan mode; then nothing changes |
| `PlanReview.StatusesKeepText` | agent/dashboard/plan_store.py:156-197 | Setting a status keeps html, markdown and path, except that a shared plan that is planned anew starts empty |
| `PlanReview.FailedDispatchRollsBack` | agent/dashboard/plan_api.py:237-265 | After a failed dispatch, for every failure around it: no decision counts; the record is ready if and only if the rollback's put succeeded; contents are the same if and only if each read that was restated succeeded or nothing could be lost; it can be decided again if and only if that put succeeded and the last metadata update arrived or the first did not |
| `PlanReview.FailedReadLosesThePlan` | agent/dashboard/plan_store.py:138-153 | One failed read during the rollback, and the plan's html is gone |
| `PlanReview.FailedRollbackStaysApproved` | agent/dashboard/plan_api.py:261-265 | The put of the rollback fails: the plan stays approved, no decision counted, and cannot be decided |
| `PlanReview.LostUpdateLeavesUndecidable` | agent/dashboard/plan_store.py:190-197 | The last metadata update is lost: the record is ready again, but cannot be decided |
| `Sandbox.BindingIsAllOrNothing` | agent/server.py:511-677 | A call that fails changes nothing; one that returns published what it returned, and the metadata names the same sandbox if and only if the call did not connect to, or receive again, a stale id from the run's configuration |
| `Sandbox.StaleReadSplitsTheBinding` | agent/utils/sandbox_state.py:371-392 | A stale inline id leaves metadata and published backend different |
| `Sandbox.IdentityChangesOnlyForCause` | agent/server.py:474-508 | For every read, inline, live or failed: a bound thread gets another sandbox if and only if its own was replaced (gone, or unreachable and allowed) or abandoned after a failed lookup, by a new one, or a cached backend overrides metadata and read |
| `Sandbox.FailedLookupAbandonsTheSandbox` | agent/utils/sandbox_state.py:371-399 | A failed lookup reads as no sandbox, and a healthy one is replaced without cause |
| `Sandbox.RecreationNeeds` | agent/server.py:640-677 | A fresh sandbox is bound if and only if the thread had one, the new one is another, and both writes succeed |
| `Sandbox.OneEventKeeps` | agent/server.py:511-677 | Each call or restart, whatever it reads: the published backend stays the one in the metadata if and only if the call does not split the binding, and the thread keeps its sandbox if and only if the call does not give it up |
| `Sandbox.ThreadKeepsItsSandbox` | agent/server.py:511-677 | Over every run of calls, failures and restarts in which no call splits the binding, the published backend is the one in the metadata, and it stays the same unless given up |
| `Sandbox.ThreadSandbox.ConnectExisting` | agent/server.py:440-508 | The backend that is there wins over the id read; it is connected if and only if its credentials were refreshed and it was there or could be reached, and gone if and only if nothing was there and the platform says so |
| `Sandbox.ThreadSandbox.EnsureSandbox` | agent/server.py:511-637 | Cache, metadata and outcome are the specified ones for every answer |
| `Sandbox.ThreadSandbox.RecreateSandbox` | agent/server.py:640-677 | The same for rebinding to a fresh sandbox |
| `Schedules.NormalizingIsIdempotent` | agent/dashboard/schedules.py:154-161 | An accepted, normalized schedule normalizes to itself |
| `Schedules.AcceptedAreFiveFields` | agent/dashboard/schedules.py:126-161 | Accepted are exactly the texts whose white-space separated words are five fields, each valid for its range |
| `Schedules.FiveNumbers` | agent/dashboard/schedules.py:126-161 | Five numbers are a schedule if and only if they lie in 0-59, 0-23, 1-31, 1-12 and 0-7, and then normalize to themselves |
| `Schedules.SegmentsMean` | agent/dashboard/schedules.py:126-150 | An element without a step is valid if and only if it is a star, a number in range, or an ascending range of two |
| `Schedules.StepsMean` | agent/dashboard/schedules.py:135-150 | With a step it is valid if and only if its base is and the step is a positive number within the range |
| `Schedules.ListsMean` | agent/dashboard/schedules.py:135-150 | A list is valid if and only if each of its elements is |
| `Schedules.NumeralsAre` | agent/dashboard/schedules.py:126-132 | The unsigned numbers are the digits with single underscores between them |
| `Schedules.NumbersRead` | agent/dashboard/schedules.py:126-132 | The decimal text of every number, with or without a sign, reads as that number |
| `Schedules.CreateAgrees` | agent/dashboard/schedules.py:352-400 | Creating leaves record and crons in agreement if and only if nothing was stored, all was, or the record of a cron that never came was cleaned up |
| `Schedules.UpdateAgrees` | agent/dashboard/schedules.py:403-464 | The exact failures after which an update leaves record and crons in agreement |
| `Schedules.UpdateLeaves` | agent/dashboard/schedules.py:403-464 | The record an update leaves: the values given, the old ones for the rest, and the new cron exactly if it starts one; the old record if its cron or its put failed |
| `Schedules.DeleteAgrees` | agent/dashboard/schedules.py:467-473 | Deleting agrees if and only if a live cron and its record go or stay together |
| `Schedules.SchedulesAndCronsAgree` | agent/dashboard/schedules.py:352-473 | After any sequence of completed operations with working cron deletions: enabled means exactly one live cron, with the current expression, recorded as `cron_id`; disabled or deleted means none |
| `Schedules.FailedDeletionLeavesACron` | agent/dashboard/schedules.py:343-349 | A swallowed deletion failure leaves a live cron for a deleted schedule |
| `Schedules.AgentSchedule.Create` | agent/dashboard/schedules.py:352-400 | Record and crons after each combination of failing accesses |
| `Schedules.AgentSchedule.Update` | agent/dashboard/schedules.py:403-464 | Record and crons after each combination of failing accesses |
| `Schedules.AgentSchedule.Delete` | agent/dashboard/schedules.py:467-473 | Record and crons after each combination of failing accesses |
| `Profiles.EachRecordIsRefreshedOnce` | agent/dashboard/profiles.py:282-347 | Over every interleaving of callers, forced or not, callbacks and failures, no stored record is successfully refreshed twice |
| `Profiles.OnlyExpiredAreRefreshed` | agent/dashboard/profiles.py:189-198 | Without forced callers, only records within the skew of their expiry are refreshed |
| `Profiles.ConcurrentCallersRefreshOnce` | agent/dashboard/profiles.py:304-347 | Any number of unforced callers, interleaved with callbacks and failures, cause at most one successful refresh as long as nothing written meanwhile has expired |
| `Profiles.NewerAuthorizationIsReturned` | agent/dashboard/profiles.py:329-343 | Over every run: a caller whose refresh was refused returns the access token of the last login written since its read and leaves the store alone if that login has another refresh token, and goes on to delete otherwise |
| `Profiles.OnlyTheRefusedIsDropped` | agent/dashboard/profiles.py:329-345 | Over every run: every authorization deleted has the refused refresh token if and only if before each deletion no login was written since the last check, or the last one kept that token |
| `Profiles.LateCallbackIsLost` | agent/dashboard/profiles.py:329-345 | A login written between the last check and the deletion is deleted |
| `Profiles.RefreshesReplaceWhatTheyRead` | agent/dashboard/profiles.py:282-303 | Over every run: every successful refresh replaces the very record it began from if and only if no login was written between read and put |
| `Profiles.SuccessfulRefreshOverwritesALogin` | agent/dashboard/profiles.py:282-303 | A login written while a refresh is in flight is overwritten with the tokens of the older grant |
| `Profiles.GrantIsStored` | agent/dashboard/profiles.py:189-252 | What a granted answer leaves: its token, unexpired for exactly `expires_in` minus five minutes, or for ever without it; the new refresh token or the old one; the email given or the old one |
| `Profiles.ReadsMean` | agent/dashboard/profiles.py:304-327 | Both reads: without a token there is nothing to return, one that is not within five minutes of its expiry and not forced is returned, and one that is and has a refresh token is refreshed |
| `Profiles.TokensAreUsable` | agent/dashboard/profiles.py:304-347 | Over every run no caller is handed an empty token |
| `Profiles.TokenStore.Upsert` | agent/dashboard/profiles.py:201-252 | The record written over the existing one; a response without an access token writes nothing |
| `Profiles.TokenStore.Delete` | agent/dashboard/profiles.py:255-265 | No record is left |
| `Profiles.TokenStore.GetValidAccessToken` | agent/dashboard/profiles.py:304-347 | Token and record after every answer, also when the callback writes during the request |
| `Skills.CursorRoundTrip` | agent/dashboard/skills.py:172-203 | The cursor of every valid name decodes to the name |
| `Skills.CursorsDecodeTo` | agent/dashboard/skills.py:176-203 | A cursor decodes to a name if and only if it is Base64 for an object whose only member is that name, a valid one; no cursor is the start, and every other cursor is a 400 |
| `Skills.ValidNamesAre` | agent/dashboard/skills.py:22-40 | The valid names are those of 1 to 64 lower-case letters, digits and single inner hyphens |
| `Skills.JsonRoundTrip` | agent/dashboard/skills.py:172-173 | Every text that is written as a JSON string, with its escapes and surrogate pairs, is read back from it (section 7 of RFC 8259) |
| `Skills.DumpedNameReads` | agent/dashboard/skills.py:172-173 | What a cursor encodes is an object with one member, the name; a valid name needs no escape |
| `Skills.CursorFits` | agent/dashboard/routes.py:1821-1822 | Every cursor handed out is short enough for the route that takes it back |
| `Base64.DecodeEncoded` | agent/dashboard/skills.py:172-173 | Decoding undoes padded URL-safe encoding, for all bytes (section 5 of RFC 4648) |
| `Base64.UnpaddedRoundTrip` | agent/dashboard/skills.py:172-185 | So does stripping the padding, padding again and decoding |
| `Base64.BothSpellingsDecode` | agent/dashboard/skills.py:181-186 | Decoding with validation takes the plain alphabet's `+` and `/` for `-` and `_` |
| `Skills.PagesAreTheWholeList` | agent/dashboard/skills.py:206-226 | From any cursor and for any page size, following `next_cursor` ends and concatenates to everything that remains, sorted |
| `Skills.EverySkillIsListedOnce` | agent/dashboard/skills.py:206-226 | From the start it lists exactly the stored skills, strictly sorted by name |
| `Skills.TooManySkills` | agent/dashboard/skills.py:206-213 | A page is refused with 409 exactly when more than 1000 items are stored |
| `Skills.CheckedMeans` | agent/dashboard/skills.py:25-57 | Which fields are accepted, by their lengths and characters, and what is stored of them |
| `Skills.OrganizationSkills.Create` | agent/dashboard/skills.py:127-236 | Which creations are refused and the store an accepted one leaves; the store stays listable |
| `Skills.OrganizationSkills.Update` | agent/dashboard/skills.py:135-142 | Replaces exactly the named skill, keeping its name; the store stays listable |
| `Skills.OrganizationSkills.Delete` | agent/dashboard/skills.py:145-149 | Removes exactly the named skill; the store stays listable |
| `AgentUsage.TalliesAreExact` | agent/dashboard/agent_usage.py:621-651 | Each user some record counts for is listed once, with the sum over exactly its in-period records, and lines equal additions plus deletions; the numbers themselves are `AgentUsage.NumbersAreCounted` |
| `AgentUsage.TotalsAreConserved` | agent/dashboard/agent_usage.py:621-651 | Sums over all users of runs, pull requests, merges, lines, additions and deletions equal the totals over in-period records that name somebody, which `AgentUsage.NumbersAreCounted` counts |
| `AgentUsage.NumbersAreCounted` | agent/dashboard/agent_usage.py:621-651 | For each user and for the sums: runs and pull requests are the numbers of such records, merged the number of those that say merged, additions and deletions their sums, lines the sum of both |
| `AgentUsage.WhoseRecord` | agent/dashboard/agent_usage.py:48-65 | A record counts for its login, else for the login its email is an alias of, else for its email; and only with a positive time not before the cutoff, in milliseconds or, up to ten billion, in seconds |
| `AgentUsage.AliasIsLatestPairing` | agent/dashboard/agent_usage.py:548-554 | An email is an alias exactly when some record pairs it with a login, and the latest such record decides |
| `AgentUsage.PairedEmailIsNoUser` | agent/dashboard/agent_usage.py:557-562 | Once paired, nothing is counted under the bare email |
| `AgentUsage.RanksFollowTheOrder` | agent/dashboard/agent_usage.py:653-690 | Ranks are 1..n in the five-key order of exactly the counted users, and each row shows its user's exact numbers; by the records themselves: `AgentUsage.PlacesFollowTheNumbers` and `AgentUsage.RowsSay` |
| `AgentUsage.PlacesFollowTheNumbers` | agent/dashboard/agent_usage.py:653-662 | Of any two places the better has more merged pull requests, or as many and more lines, then pull requests, then runs, then the lesser name |
| `AgentUsage.UsersAreNamed` | agent/dashboard/agent_usage.py:557-580 | A user is named by its login, or by the part of its email before the `@`, and keeps the email of its first record |
| `AgentUsage.RowsSay` | agent/dashboard/agent_usage.py:663-690 | Each row by the records that count for its user: place, counted numbers, login if there is one, and email or a name made from it for nobody but the caller |
| `AgentUsage.WhoIsShown` | agent/dashboard/agent_usage.py:583-589 | A caller's row is shown if and only if it is within the limit or is the caller's last |
| `AgentUsage.ShownRowsAreTrue` | agent/dashboard/agent_usage.py:583-690 | Every row shown is a user's own with the true rank, and nobody else's email, nor a name made from it, is shown |
| `AgentUsage.CurrentUserIsShown` | agent/dashboard/agent_usage.py:583-692 | With only a login, only an email, or an email some record pairs with a login, the caller's row is always shown with its true rank |
| `AgentUsage.TwoPlacesOneShown` | agent/dashboard/agent_usage.py:663-690 | Otherwise a caller can hold two places, of which the worse is shown and the better is not |
| `AgentUsage.ListAgentUsageLeaderboard` | agent/dashboard/agent_usage.py:620-692 | The loops compute the specified rows, which `AgentUsage.RowsSay` gives by the records, with the member count and the rank of the caller |
| `AgentUsage.CountRecords` | agent/dashboard/agent_usage.py:623-651 | One loop over records yields the specified users, whose numbers `AgentUsage.NumbersAreCounted` counts |
| `AgentUsage.AttributionIsKept` | agent/dashboard/agent_usage.py:360-385 | Over any reports of one pull request, attribution stays the first report's, a merge is never undone, one reported after its merge is closed, and the rest is the latest report's |
| `AgentUsage.FirstTimesAreKept` | agent/dashboard/agent_usage.py:470-498 | Over any events of a finding, the times it was recorded, first surfaced and first resolved, and the commit that resolved it, are kept |
| `AgentUsage.LatestEventDecides` | agent/dashboard/agent_usage.py:460-545 | The rest of a finding's record is the latest event's; a change of state keeps what it does not mention |
| `AgentUsage.OnlyPublicationsRecord` | agent/dashboard/agent_usage.py:514-545 | State changes alone record nothing |
| `ReviewThreads.EscapeFixesExactly` | agent/reviewer.py:713-734 | Escaping changes a text if and only if it holds a wrapper's closing tag, in any case and spacing, and escaping twice is escaping once |
| `ReviewThreads.EscapedHasNoCloser` | agent/reviewer.py:713-734 | Escaped text holds no closing tag, including across the places where text was replaced |
| `ReviewThreads.BlockHasOnlyItsClosers` | agent/reviewer.py:737-813 | Whatever authors, paths and bodies hold, the block contains one closing tag of its own, one per visible thread and two per rendered comment, and no other |
| `ReviewThreads.JoinCounts` | agent/reviewer.py:813 | Joining lines creates no closing tag when foreign text always stands between markup |
| `ReviewThreads.LoginCharacters` | agent/reviewer.py:697-706 | An author contributes at most 45 letters, digits, hyphens, brackets and a line feed |
| `ReviewThreads.LineFeedInLogin` | agent/reviewer.py:697-706 | The line feed if and only if the author is a login, with or without `[bot]`, followed by one line feed |
| `ReviewThreads.LineFeedAfterALogin` | agent/reviewer.py:697-706 | The author "ab" followed by a line feed is printed with it |
| `ReviewThreads.OpenThreadsComeFirst` | agent/reviewer.py:767-778 | The block shows exactly the visible threads, sorted by the key, all open ones first |
| `ReviewThreads.BlockSays` | agent/reviewer.py:737-813 | The whole block, from start to end: for each visible thread in order its location, the status word and, for each comment that is a dict, its author and its escaped body |
| `ReviewThreads.OrdinaryBodyIsKept` | agent/reviewer.py:799-808 | A body of at most 4000 characters without a closing tag stands there unchanged |
| `ReviewThreads.CloserIsMadeInert` | agent/reviewer.py:713-734 | Each of the six wrappers' closing tags, in any case and with any space around its name, becomes the tag of a name that closes nothing |
| `ReviewThreads.LooseLettersAreInert` | agent/reviewer.py:713-734 | So do names with the letters beyond ASCII that match without regard to case: a dotless or dotted I and a long S |
| `ReviewThreads.OtherTextStays` | agent/reviewer.py:713-734 | Escaping leaves every other character where it is |
| `ReviewThreads.ThreadsAreInOrder` | agent/reviewer.py:737-778 | Open threads come before outdated before resolved ones, those by path, and those by `line`, or by the original line without one |
| `ReviewThreads.VisibleHaveComments` | agent/reviewer.py:756-766 | The visible threads are those with a comment, in the order given |
| `ReviewThreads.AuthorIsShown` | agent/reviewer.py:697-706 | An author is shown if and only if it is a login, with or without `[bot]` and one line feed, and is `unknown` otherwise |
| `ReviewThreads.NamesAre` | agent/reviewer.py:697-699 | The logins are those of 1 to 39 letters, digits and single inner hyphens |
| `ReviewThreads.LocationIsQuoted` | agent/reviewer.py:779-790 | A location loses its quotes and closing brackets and nothing else |
| `ReviewThreads.FormatPrReviewThreads` | agent/reviewer.py:756-813 | The nested loops print the specified block, which `ReviewThreads.BlockSays` reads out |
| `ReviewList.ListReviews` | agent/dashboard/review_api.py:288-320 | Despite early exits: the page is exactly the slice of all visible reviews among the scannable threads, and `has_more` says whether more exist |
| `ReviewList.PagesTile` | agent/dashboard/review_api.py:319-320 | `has_more` holds exactly when the next page is non-empty, and consecutive pages concatenate to the longer page |
| `Environments.CaptureWithNameRetry` | agent/dashboard/environments.py:537-555 | Succeeds if and only if one of five attempts is captured after only taken names, under that attempt's name |
| `Environments.CaptureResultMeans` | agent/dashboard/environments.py:128-137 | The capture is the first of five answers that is not a taken name, under the stem, or the stem with -2 to -5; there is none if and only if all five are taken or that answer is another error |
| `Environments.CaptureBootsLive` | agent/dashboard/environments.py:558-611 | After a capture a ready record still names a live snapshot, exactly unless both look-ups around a successful capture failed |
| `Environments.LostRecordBootsADeletedSnapshot` | agent/dashboard/environments.py:294-300 | In that case it boots from a deleted snapshot |
| `Environments.FailedCaptureKeepsTheSnapshot` | agent/dashboard/environments.py:571-608 | Whatever makes a call raise: it deletes no snapshot, adds at most the one it captured, and keeps the id; a ready record stays ready if and only if it was never marked, or nothing was captured and that was written back |
| `Environments.UnrestoredCaptureIsNotReady` | agent/dashboard/environments.py:590-599 | All names are taken and the look-up of the result fails: a ready environment stays capturing, with its snapshot still live |
| `Environments.UnrecordedCaptureIsNotReady` | agent/dashboard/environments.py:600-608 | The capture succeeds and the put of its result raises: a ready environment stays capturing, and the new snapshot has no record |
| `Environments.ReturnedCaptureIsBooted` | agent/dashboard/environments.py:571-611 | A call that returns has captured a snapshot, and the environment boots from it if and only if the look-up of the result succeeded, or the record was never marked and names it already |
| `Environments.ReturnedCaptureIsNotReady` | agent/dashboard/environments.py:600-611 | That look-up fails: the call returns, the environment stays capturing, and the snapshot on its record is deleted |
| `Environments.OldSnapshotGoesLast` | agent/dashboard/environments.py:600-610 | The old snapshot goes only after a capture; the record points at the new one exactly when the last look-up succeeded |
| `Environments.ReadyBootsLive` | agent/dashboard/environments.py:443-448 | Over any sequence of captures and deletions that keep track of the record, a ready environment names a live snapshot |
| `Environments.EnvironmentStore.CaptureSnapshot` | agent/dashboard/environments.py:558-611 | Record, snapshots and outcome after each combination of failing accesses |
| `Environments.EnvironmentStore.DeleteEnvironment` | agent/dashboard/environments.py:363-373 | Record, snapshots and result after each combination of failing accesses |
| `Completion.NotingAppends` | agent/completion.py:178-213 | Whatever the metadata held, also a latest id without a list or a list without one: noting an id puts it last, once, drops the oldest past twenty and leaves list and latest id in agreement |
| `Completion.IdsNamed` | agent/completion.py:178-213 | The ids on record are the non-empty texts of the list and the latest id, which comes last when the list misses it |
| `Completion.WindowHoldsTheLastNoted` | agent/completion.py:178-213 | From any metadata, over any completions, acted on or not, noted or not: the ids on record are those at the start until one is noted, and then the last 20 of those followed by the noted ones, in order; none appears twice that did not at the start |
| `Completion.ActedOnOutsideTheWindow` | agent/completion.py:313-328 | From any metadata and after any run, a completion is acted on if and only if its run is not in that window |
| `Completion.RedeliveryIsActedOn` | agent/completion.py:313-328 | With any metadata, a webhook that is delivered again is acted on again if and only if the first reply could not be noted |
| `Completion.RunsAreAnsweredOnceInTwenty` | agent/completion.py:313-328 | From any metadata, a run whose reply was noted is answered again only after at least 20 more were noted |
| `Completion.ThreadCompletions.HandleFailure` | agent/completion.py:302-328 | Answer and metadata for every failed run, with and without an id; with an id it is one step of the runs above on the failure list, and leaves the cost list alone |
| `Completion.ThreadCompletions.HandleSuccess` | agent/completion.py:222-272 | Answer and metadata for every successful run: one step of those runs on the cost list, and none on the failure list |

## Left out

- The XML reader covers elements, attributes, text and the five predefined and numeric references; comments, CDATA sections, processing instructions and document types are not part of this model.
- XML names follow the ranges of the fifth edition; `isalnum` counts every character from U+0080 up as alphanumeric, so that which of those Unicode calls letters is not modelled, and lone surrogates do not occur in strings here.
- `json.loads` of a frame or a cursor is a parameter: for cursors it is only assumed to read back the objects `json.dumps` makes of valid names; of JSON itself only strings are read and written.
- SHA-256 is a parameter that gives 64 lower-case hexadecimal digits; only DynamicContext.SelfVerifying and its two examples assume more, namely that it tells a context's canonical text from what its reader renders when the two differ.
- The lock of a watch is held until released: its expiry, and the answer given when it is busy, are not modelled; starting and stopping do not overlap a locked operation.
- The text of prompts and notifications, and whether a notification arrives, are not modelled; neither is the fan-out of one webhook over several watches.
- Profiles.ConcurrentCallersRefreshOnce: forced callers may refresh again; for them EachRecordIsRefreshedOnce says what remains.
- PlanReview.DecisionsKeepThePlan: a writer outside the lock may store another plan at any time, and the last write wins; FailedDispatchRollsBack gives the exact condition for one decision.
- Stored timestamps that are malformed texts count as absent; leaderboard timestamps are numbers.
- The leaderboard's cache, its backfill of old records, favourite models and review statistics are not modelled; `str.lower` is a parameter.
- Comments on a plan, the texts sent to the agent and the message posted after an approval are not modelled; a rejection counts as decided when its status is stored.
- Snapshots, schedules and sandboxes are modelled one at a time, and captures of one environment do not overlap; ids handed out by a platform for crons are new.
- A pydantic model that refuses its fields is the outcome `Invalid`; the status the web framework gives it, 422 for a request body, is not modelled.
- `int` of non-ASCII digits in a cron field, and other Unicode decimal digits, are not modelled.
- A store write either happens or raises, and a dispatch either starts its run or raises; one that raises after having written, or after having started its run, is not modelled.
- Completions of one thread are handled one after the other; two that overlap may both read the metadata before either writes it, which is not modelled.
- Review threads whose path is not a string, or whose line is a boolean, are not modelled.
- Graph factories, model tables, prompt texts and the user interface are tables, texts and wiring without a protocol of their own; sandbox providers and the checking of webhook signatures are calls into other systems and libraries. None of them is modelled.
