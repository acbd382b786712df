# ScrapeCraft backend core, modelled in Dafny

ScrapeCraft is a web-scraping assistant. A user chats with an agent, which collects URLs, defines a schema of fields to extract, generates scraping code and runs it through the ScrapeGraph API. The Python backend keeps this state in several places:

- a ten-phase workflow record with a transition log and an approval queue;
- two workflow managers and the workflow HTTP endpoints;
- a pattern learner that aggregates past runs into per-domain knowledge;
- two websocket session managers with a single-holder edit lock, timers and response streaming;
- several conversational agents and the tools they call;
- the ScrapeGraph client wrappers;
- two in-memory HTTP stores, for pipelines and for scraping tasks.

This project models that logic as pure Dafny functions over immutable datatypes and proves what the code promises about it. There is one module per source file. `Base` holds the shared vocabulary:

- `Option` and `Result`;
- ordered dictionaries (`Dict`, as Python dicts keep insertion order);
- ASCII lower-casing and stripping;
- a simplified `urlparse`;
- order-keeping de-duplicating merges.

Nothing outside the core logic is modelled. Clocks, uuids, LLM replies, ScrapeGraph responses, HEAD requests and regular-expression matches become parameters. Timers become explicit records that a later event fires. Python exceptions become `Result` errors.

Two facts about the code shape the model:

- an edit by the lock holder does not renew the lock's expiry (`backend/app/services/enhanced_websocket.py:320-337`);
- `add_transition` records any transition without consulting the legality table (`backend/app/models/workflow.py:105-116`), and the lemmas in `Workflow` and `WorkflowManager` show which call sites leave the table.

## Model

| member | source | states |
|---|---|---|
| Workflow.Rank | backend/app/models/workflow.py:10-22 | each phase has one position in the enum's declaration order |
| Workflow.Successors | backend/app/models/workflow.py:172-183 | no phase lists itself or a target twice; only COMPLETED and ERROR may go to INITIAL; every phase but INITIAL, COMPLETED and ERROR may go to ERROR; INITIAL, COMPLETED and ERROR have exactly one target |
| Workflow.TransitionShape | backend/app/models/workflow.py:170-185 | every allowed move advances one phase, steps back from a validation or ready phase, fails into ERROR from any phase but INITIAL, or restarts from COMPLETED or ERROR |
| Workflow.Progress | backend/app/models/workflow.py:154-168 | progress is exactly -1.0 for ERROR and negative only there, otherwise between 0 and 1; it is 0 only for INITIAL and 1 only for COMPLETED |
| Workflow.ProgressIncreasesAlongChain | backend/app/models/workflow.py:156-167 | away from ERROR, a later phase in declaration order has strictly more progress, and conversely |
| Workflow.NewWorkflow | backend/app/models/workflow.py:65-103 | a new workflow starts in INITIAL at version 1 with empty logs and no approvals, and satisfies the state invariant |
| Workflow.AddTransition | backend/app/models/workflow.py:105-116 | exactly one transition record, from the old phase to the target with the given reason and actor, is appended; the phase becomes the target, the actor the last modifier and the time the update time, and nothing else changes; the log stays legal exactly when the move is in the table, which is not consulted |
| Workflow.AddUserModification | backend/app/models/workflow.py:118-130 | exactly one modification is appended and the version grows by exactly one; phase, transitions and approvals stay |
| Workflow.CreateApprovalRequest | backend/app/models/workflow.py:132-142 | one pending request for the current phase is appended under the fresh id; history, phase and version stay |
| Workflow.FindPending | backend/app/models/workflow.py:146-147 | finds the first pending request with the id, or reports that none has it |
| Workflow.ProcessApproval | backend/app/models/workflow.py:144-152 | an unknown id changes nothing; otherwise the first pending request with the id is cut out of the pending list, the others keeping their order, and appended to the history with the new status, the user becomes the last modifier, and nothing else changes |
| Workflow.ProcessKeepsApprovalsWf | backend/app/models/workflow.py:146-152 | moving a request out of the pending list keeps ids unique and leaves no pending request with that id |
| Workflow.ProcessApprovalSettlesOnce | backend/app/models/workflow.py:144-152 | processing the same id a second time changes nothing |
| Workflow.ProgressIsTableLookup | backend/app/models/workflow.py:156-168 | every phase has an entry in the phase_weights table and its progress is that weight, so the lookup's 0.0 default never applies |
| WorkflowManager.GetWorkflow | backend/app/services/workflow_manager.py:26-28 | finds a workflow exactly for a known pipeline, and returns the stored one |
| WorkflowManager.CreateWorkflow | backend/app/services/workflow_manager.py:30-37 | stores a fresh INITIAL workflow at version 1 under the pipeline; every other pipeline and the waiters stay |
| WorkflowManager.GetOrCreate | backend/app/services/workflow_manager.py:47 | afterwards the pipeline has a workflow; an existing one is kept unchanged |
| WorkflowManager.ReplaceKeepsValid | backend/app/services/workflow_manager.py:36 | storing a valid workflow under its own pipeline keeps the manager valid |
| WorkflowManager.EditUrls | backend/app/services/workflow_manager.py:75-98 | the URLs are replaced one for one with the defaults "", "medium" and false and the user as adder; one modification is logged and the version grows by one; only URL_COLLECTION moves on, to URL_VALIDATION |
| WorkflowManager.UpdateUrls | backend/app/services/workflow_manager.py:64-101 | an unknown pipeline is an error with its message; otherwise only that pipeline's workflow changes, and validity is kept |
| WorkflowManager.EditSchema | backend/app/services/workflow_manager.py:114-138 | the fields are replaced one for one with the defaults "" and required; one modification is logged; from SCHEMA_DEFINITION or SCHEMA_VALIDATION the schema is marked validated and the phase becomes CODE_GENERATION |
| WorkflowManager.UpdateSchema | backend/app/services/workflow_manager.py:103-141 | an unknown pipeline is an error with its message; otherwise only that pipeline's workflow changes, and validity is kept |
| WorkflowManager.UpdateSchemaSkipsValidation | backend/app/services/workflow_manager.py:132-138 | from SCHEMA_DEFINITION the manual update records a move to CODE_GENERATION that the transition table does not allow |
| WorkflowManager.NextPhase | backend/app/services/workflow_manager.py:229-241 | COMPLETED and ERROR have no next phase; every other phase's next phase is the allowed one step further along the chain |
| WorkflowManager.NextPhaseWalksChain | backend/app/services/workflow_manager.py:231-240 | INITIAL leads to URL_COLLECTION, no phase leads back to INITIAL, and every phase but COMPLETED and ERROR has a next one |
| WorkflowManager.Decide | backend/app/services/workflow_manager.py:155-181 | approval moves to the next phase with reason "Approved by" the user when there is one; rejection moves URL_VALIDATION back to URL_COLLECTION and leaves other phases; a pending request is settled into the history |
| WorkflowManager.ApproveAction | backend/app/services/workflow_manager.py:143-184 | an unknown pipeline is an error; otherwise the workflow is decided and the waiter for this approval, if any, is signalled while the others stay |
| WorkflowManager.RequestApproval | backend/app/services/workflow_manager.py:186-205 | a pending request for the current phase is created under the fresh id and an unsignalled waiter is registered for it |
| WorkflowManager.FirstRecord | backend/app/services/workflow_manager.py:215-217 | finds the first history record with the id, or reports that none has it |
| WorkflowManager.ResumeApproval | backend/app/services/workflow_manager.py:207-227 | the waiter is always removed; a signalled wait answers whether the first history record with the id is approved; an unsignalled one (the timeout) marks the request expired and answers false |
| WorkflowManager.ApprovalReachesWaiter | backend/app/services/workflow_manager.py:143-227 | requesting an approval, approving it and then resuming the waiter answers true |
| Base.FirstWithAt | backend/app/services/workflow_manager.py:215-217 | the first element carrying the key is the one found, which is how the approval waiter picks its record |
| WorkflowManager.ContentOnlyKeepsValid | backend/app/services/workflow_manager.py:258-283 | changing only URLs, schema, code and results keeps the state invariant and the legality of the log |
| WorkflowManager.MergeContent | backend/app/services/workflow_manager.py:258-283 | non-empty URLs replace the list and set the validated flag to all-validated; a non-empty schema replaces the fields in order and marks them validated; non-empty code replaces the code and clears its validation; empty parts keep the old values |
| WorkflowManager.MergeAgentResult | backend/app/services/workflow_manager.py:249-256 | the phase becomes the agent's; a transition by "agent" is recorded only when it differs; the content is that of the content merge; the log stays legal exactly when the move is allowed or absent |
| WorkflowManager.AppendErrorRecords | backend/app/services/workflow_manager.py:286-293 | one self-transition per error, in order, is appended and nothing else changes |
| WorkflowManager.SelfLoopsKeepChained | backend/app/services/workflow_manager.py:286-293 | transitions from the current phase to itself, appended to a chained log, keep every record starting where the previous one ended |
| WorkflowManager.UpdateFromResult | backend/app/services/workflow_manager.py:243-293 | the phase becomes the agent's; the URLs, schema, code and results, with their flags, are those the content merge gives; the log grows by one for a phase change plus one per error; version and modifications stay |
| WorkflowManager.ErrorsBreakLegalLog | backend/app/services/workflow_manager.py:286-293 | an error record is a self-transition, which the table never allows, so any reported error makes the log illegal |
| WorkflowManager.ProcessMessage | backend/app/services/workflow_manager.py:39-62 | the pipeline's workflow exists afterwards in the agent's phase, with the URLs, schema, code and results the content merge gives for the agent's result; other pipelines and the waiters stay; the reply is the agent's and action is required exactly when approvals are pending |
| WorkflowManager.GetSummary | backend/app/services/workflow_manager.py:303-319 | an unknown pipeline gives "Workflow not found"; otherwise the counts are those of the workflow, the progress is the phase's progress, code is reported exactly when non-empty, and execution is possible exactly in READY_TO_EXECUTE |
| WorkflowManagerV2.KeywordRoute | scrapecraft-repo/backend/app/services/workflow_manager_v2.py:80-89 | a search phrase records a user move to URL_COLLECTION; otherwise an extraction phrase records a move to EXECUTING when URLs exist and an agent move to URL_COLLECTION when not; otherwise nothing changes |
| WorkflowManagerV2.ScrapeJumpsTable | scrapecraft-repo/backend/app/services/workflow_manager_v2.py:85-87 | from INITIAL with URLs, an extraction phrase jumps to EXECUTING, a move the transition table forbids |
| WorkflowManagerV2.ApplyTool | scrapecraft-repo/backend/app/services/workflow_manager_v2.py:106-133 | a search result with hits replaces the URLs one for one (relevance "high", not validated), moves to URL_VALIDATION and asks for action; a successful extraction appends the data and moves to COMPLETED; anything else changes nothing |
| WorkflowManagerV2.ApplyTools | scrapecraft-repo/backend/app/services/workflow_manager_v2.py:106-135 | action is required exactly when some search result had hits; the execution results gain the data of every successful extraction, in order; without hits the URLs stay, and with no effective result the state stays |
| WorkflowManagerV2.ProcessWithToolsAgent | scrapecraft-repo/backend/app/services/workflow_manager_v2.py:72-142 | the reply is the agent's; on success the reply's snapshot is the record after the intent step, taken before the tool results, and the kept record is that snapshot with the tool results applied; a failed agent result appends one move to ERROR, whose reason carries the error or "Unknown", to both; action is required exactly for a successful result with search hits |
| WorkflowManagerV2.ProcessWithStateAgent | scrapecraft-repo/backend/app/services/workflow_manager_v2.py:144-213 | the phase and reply are the agent's, one transition is recorded only on a phase change, and action mirrors requires_approval |
| WorkflowManagerV2.StatePathKeepsLegalLog | scrapecraft-repo/backend/app/services/workflow_manager_v2.py:180-186 | the state-agent path keeps the log legal whenever the agent's phase is the current one or an allowed move |
| WorkflowManagerV2.ProcessMessage | scrapecraft-repo/backend/app/services/workflow_manager_v2.py:50-70 | the pipeline gets a workflow and the other pipelines stay; the state path and a failed tools reply keep what they reply with; a successful tools reply shows the record before the tools, and the kept record is that one with the tool results applied |
| WorkflowApi.GetWorkflowEndpoint | scrapecraft-repo/backend/app/api/workflow.py:45-52 | 404 "Workflow not found" exactly for an unknown pipeline; otherwise the stored workflow |
| WorkflowApi.AsNotFound | scrapecraft-repo/backend/app/api/workflow.py:79-80 | a manager error becomes a 404 with its message, and a success passes through |
| WorkflowApi.UpdateUrlsEndpoint | scrapecraft-repo/backend/app/api/workflow.py:61-82 | 404 with the manager's message exactly for an unknown pipeline; otherwise the URLs are edited by "user" |
| WorkflowApi.UpdateSchemaEndpoint | scrapecraft-repo/backend/app/api/workflow.py:85-106 | 404 with the manager's message exactly for an unknown pipeline; otherwise the schema is edited by "user" |
| WorkflowApi.ApproveEndpoint | scrapecraft-repo/backend/app/api/workflow.py:109-131 | 404 with the manager's message exactly for an unknown pipeline; otherwise the workflow is decided by "user" and no other pipeline changes |
| WorkflowApi.ManualTransition | scrapecraft-repo/backend/app/api/workflow.py:134-165 | 404 for an unknown pipeline, 400 naming both phases for a move the table forbids, with no change; otherwise exactly one transition by "user" with the reason or "Manual transition" is appended, the moved workflow changes only in phase, log, update time and last modifier, and every other pipeline and callback stays |
| WorkflowApi.ManualTransitionKeepsLegalLog | scrapecraft-repo/backend/app/api/workflow.py:146-156 | because the endpoint checks the table, it keeps a legal log legal |
| WorkflowApi.HistoryEndpoint | scrapecraft-repo/backend/app/api/workflow.py:168-182 | 404 for an unknown pipeline; otherwise the transitions, modifications and approval history unchanged |
| WorkflowApi.AllowedPhases | scrapecraft-repo/backend/app/api/workflow.py:196-202 | exactly the phases the table allows from the current one, each once, in enum order |
| WorkflowApi.PhaseOptionsEndpoint | scrapecraft-repo/backend/app/api/workflow.py:185-208 | 404 for an unknown pipeline; otherwise the current phase, all phases in enum order, and exactly the allowed targets |
| WorkflowManagerV2.ApplyToolsSnoc | scrapecraft-repo/backend/app/services/workflow_manager_v2.py:106-133 | the results are applied one after another: applying one more result acts on the record the earlier ones left, and action is required if either asked for it |
| WorkflowManagerV2.SearchHitNotInReply | scrapecraft-repo/backend/app/services/workflow_manager_v2.py:96-121 | a search hit moves the kept record to URL_VALIDATION with its URL, while the reply still shows the record without it |
| WorkflowManagerV2.Current | scrapecraft-repo/backend/app/services/workflow_manager_v2.py:57 | the stored workflow of the pipeline, or a fresh INITIAL one for it |
| WorkflowApi.MoveByUser | scrapecraft-repo/backend/app/api/workflow.py:152-157 | the move records one transition to the target by "user" with the reason, keeps the earlier log as its prefix, changes nothing else of the workflow or of the other pipelines, and keeps the manager valid for an allowed move |
| PatternLearner.Classify | backend/app/services/pattern_learner.py:136-150 | the category is decided by the first of the four word lists any lower-cased field name belongs to, "general" when none, each case as an if-and-only-if |
| PatternLearner.MentionsNames | backend/app/services/pattern_learner.py:138-141 | testing the fields one by one agrees with testing the set of lower-cased names the source builds |
| PatternLearner.ClassifyIsExact | backend/app/services/pattern_learner.py:141 | membership is exact: "Price" is e-commerce, "prices" is not |
| PatternLearner.PatternFieldsOfType | backend/app/services/pattern_learner.py:103-128 | the cached common fields of a category are found under its name, and only e-commerce, news and weather have any |
| PatternLearner.WeightedMerge | backend/app/services/pattern_learner.py:467-476 | the count-weighted average of the stored and new success rates lies between the two, and equals either one when the other's count is zero |
| PatternLearner.MergeTwice | backend/app/services/pattern_learner.py:474-476 | merging two batches in turn gives the weighted average over all three sample sets |
| PatternLearner.MergeExample | backend/app/services/pattern_learner.py:474 | 0.8 over 10 samples merged with 0.4 over 5 gives 2/3 |
| PatternLearner.UpdateKnowledge | backend/app/services/pattern_learner.py:451-487 | the common fields become the duplicate-free union of the old and new ones, the sample count adds the batch size, and the average rate becomes the count-weighted mean of the stored rate (0 when none) and the batch's rate; the other keys stay |
| PatternLearner.MakeInteraction | backend/app/services/pattern_learner.py:184-191 | an interaction counts as a success exactly when the response status is "success", and keeps the URLs and fields |
| PatternLearner.Members | backend/app/services/pattern_learner.py:414-420 | a group holds exactly the eligible interactions (with URLs and schema) whose first URL's domain and category give that key |
| PatternLearner.KeysOf | backend/app/services/pattern_learner.py:414-423 | the group keys, without repeats, are exactly the keys of eligible interactions |
| PatternLearner.FrequentFields | backend/app/services/pattern_learner.py:431-438 | a field is common exactly when it occurs in at least half the group's schemas |
| PatternLearner.Summarise | backend/app/services/pattern_learner.py:424-446 | a group's update has its size, a success rate in [0,1] equal to successes over size, and exactly the common fields, once each |
| PatternLearner.Rate | backend/app/services/pattern_learner.py:428 | the success rate of a group lies in [0,1] and, times the group size, gives the number of successes |
| PatternLearner.BatchUpdates | backend/app/services/pattern_learner.py:423-446 | exactly one update per group of at least three interactions, in the order the groups first appear, each the summary of its group under its own domain, and no update twice |
| PatternLearner.BatchFilesUnderOwnDomain | backend/app/services/pattern_learner.py:417-425 | each update is filed under the domain of some interaction of the batch |
| PatternLearner.SplitKey | backend/app/services/pattern_learner.py:425 | splitting on the first colon gives a colon-free head and the rest, or the whole key and "" |
| PatternLearner.KeyStringInjective | backend/app/services/pattern_learner.py:419 | two different domain/category pairs never give the same "domain:type" key |
| PatternLearner.SplitLosesPort | backend/app/services/pattern_learner.py:419-425 | a domain holding a colon does not survive the join and split |
| PatternLearner.PortInDomain | backend/app/services/pattern_learner.py:130-134 | the netloc of "http://h:1/" holds a colon, so the case arises |
| PatternLearner.BatchUpdatesAsWritten | backend/app/services/pattern_learner.py:419-446 | as written, each update's domain and category are the two halves of splitting the joined key on its first colon |
| PatternLearner.AsWrittenMisfiles | backend/app/services/pattern_learner.py:425 | as written, the update of a domain with a port is filed under another domain |
| PatternLearner.ApplyUpdates | backend/app/services/pattern_learner.py:440-446 | knowledge exists afterwards for the old domains and the updated ones, domains not updated keep their record, and sample counts never shrink |
| PatternLearner.LearnFromInteraction | backend/app/services/pattern_learner.py:152-201 | the interaction joins the day's batch; once the batch reaches five it is processed into the knowledge, with each group filed under its own domain and category, and deleted; otherwise the knowledge is unchanged |
| PatternLearner.FifthInteractionFlushes | backend/app/services/pattern_learner.py:198-201 | the fifth interaction of a day empties its batch and applies the batch's updates |
| PatternLearner.Successes | backend/app/services/pattern_learner.py:221 | exactly the successful results |
| PatternLearner.Failures | backend/app/services/pattern_learner.py:222 | exactly the failed results |
| PatternLearner.UpdatePatterns | backend/app/services/pattern_learner.py:253-268 | each result adds one to the success count of its "domain:type" pattern and touches no other |
| PatternLearner.Newest | backend/app/services/pattern_learner.py:276 | the log keeps its first hundred entries |
| PatternLearner.RecordError | backend/app/services/pattern_learner.py:270-277 | the error is pushed to the front of its domain's log, trimmed to a hundred; other domains' logs are unchanged |
| PatternLearner.ErrorFor | backend/app/services/pattern_learner.py:244-249 | the error is filed under the result's domain, with "Unknown error" when it carries none |
| PatternLearner.RecordErrors | backend/app/services/pattern_learner.py:242-251 | only the failures' domains gain entries and the hundred-entry bound is kept |
| PatternLearner.LastErrorFirst | backend/app/services/pattern_learner.py:243-251 | the last failure recorded heads its domain's log |
| PatternLearner.LearnFromExecution | backend/app/services/pattern_learner.py:203-251 | no results change nothing; the success counts grow by the first three successes' keys; every failure's domain gets an error log |
| PatternLearner.AtMostThreeCounted | backend/app/services/pattern_learner.py:226 | one execution adds at most three to any pattern's success count |
| PatternLearner.Missing | backend/app/services/pattern_learner.py:332 | exactly the common fields the schema lacks |
| PatternLearner.SchemaSuggestion | backend/app/services/pattern_learner.py:329-340 | at most one schema suggestion, with confidence 0.7, for a category with common fields, listing exactly the missing ones |
| PatternLearner.Candidates | backend/app/services/pattern_learner.py:303-358 | at most five suggestions, one per rule |
| PatternLearner.CandidatesMembers | backend/app/services/pattern_learner.py:303-358 | a suggestion is present exactly when its rule fires: more than five URLs, a retry strategy, missing schema fields, JavaScript, or a positive delay |
| PatternLearner.CandidateKinds | backend/app/services/pattern_learner.py:303-358 | each kind is present exactly when its condition holds |
| PatternLearner.CandidateDetails | backend/app/services/pattern_learner.py:305-358 | each suggestion carries its rule's confidence: 0.9 or 0.8 for concurrency, 0.85 retry, 0.7 schema, 0.9 JavaScript, 0.8 delay |
| PatternLearner.InsertSorted | backend/app/services/pattern_learner.py:361 | inserting into a list sorted by descending confidence keeps it sorted |
| PatternLearner.SortByConfidence | backend/app/services/pattern_learner.py:361 | the result is sorted by descending confidence and is a permutation of the input |
| PatternLearner.SortIsStable | backend/app/services/pattern_learner.py:361 | suggestions of equal confidence keep their relative order, as Python's stable sort does |
| PatternLearner.SuggestOptimizations | backend/app/services/pattern_learner.py:279-363 | no URLs gives no suggestions; otherwise the rules' suggestions for the first URL's domain, sorted by descending confidence, stably |
| PatternLearner.ConcurrencyFirst | backend/app/services/pattern_learner.py:304-311 | with more than five URLs and a known concurrency limit, the first suggestion has confidence 0.9 |
| PatternLearner.PatternSuggestions | backend/app/services/pattern_learner.py:498-506 | one suggestion per cached field in order, required exactly for title, price and name |
| PatternLearner.AddDomainFields | backend/app/services/pattern_learner.py:509-518 | domain fields not yet suggested are appended as optional, after the existing ones, without repeats |
| PatternLearner.GetFieldSuggestions | backend/app/services/pattern_learner.py:489-520 | the names are exactly the cached fields then the domain's common fields, each once; required only for cached title, price and name |
| PatternLearner.GetExtractionTips | backend/app/services/pattern_learner.py:522-544 | no knowledge gives no tips; otherwise each tip is present exactly when its flag holds, the delay tip carries the stored delay, and a rate below 0.5 adds the warning |
| PatternLearner.UpdateKnowledgeTwice | backend/app/services/pattern_learner.py:466-475 | two updates in a row leave the mean of the stored rate and both batch rates, each weighted by its sample count, over the summed count |
| PatternLearner.UpdatesForExact | backend/app/services/pattern_learner.py:423-446 | the loop's updates are the group keys with at least three members, in their order, each mapped to its group's summary |
| PatternLearner.UpdatesForNoDup | backend/app/services/pattern_learner.py:423-446 | over distinct group keys the loop never yields the same update twice |
| PatternLearner.UpdatesForConcat | backend/app/services/pattern_learner.py:423-446 | the updates of a joined key list are those of each part in turn, and one key yields its group's update exactly when the group has at least three members |
| PatternLearner.UpdateOfDistinct | backend/app/services/pattern_learner.py:417-440 | two different domain and type keys give different updates, since each update carries its domain and type name |
| PatternLearner.UpdatesForStep | backend/app/services/pattern_learner.py:424-426 | one turn of the loop: the first group yields its update exactly when it has at least three members, ahead of the rest |
| PatternLearner.FrequentKeys | backend/app/services/pattern_learner.py:424-425 | a key is kept exactly when it is among the given keys and its group has at least three members |
| PatternLearner.UpdatesOfKeys | backend/app/services/pattern_learner.py:424-446 | one update per key, in order, each its group's summary |
| SessionRegistry.Broadcast | backend/app/services/enhanced_websocket.py:186-200 | deliveries go to exactly the pipeline's connections whose send works, none for an unknown pipeline; a failing socket never stops the others |
| SessionRegistry.BroadcastToOthers | backend/app/services/enhanced_websocket.py:202-219 | nothing for an unknown pipeline, and never a delivery to the sender |
| SessionRegistry.OthersIsBroadcastMinusSender | backend/app/services/enhanced_websocket.py:186-219 | the broadcast to others is the full broadcast less the sender's delivery |
| SessionRegistry.FailedSendIsolated | backend/app/services/enhanced_websocket.py:196-200 | one failing socket removes only its own delivery |
| SessionRegistry.Register | backend/app/services/enhanced_websocket.py:110-133 | the first connection creates the room with the fresh idle state; a later one keeps the state, adds the socket and appends the user to the collaborators; other rooms are unchanged |
| SessionRegistry.Connect | backend/app/services/enhanced_websocket.py:97-155 | the user id is the given one or a fresh one when missing or empty, the room is registered, and the announcements are sent |
| SessionRegistry.ConnectAnnounces | backend/app/services/enhanced_websocket.py:135-155 | the user gets the connection confirmation with the state and the connected users, and everyone else only the user-joined notice |
| SessionRegistry.ConnectKeepsWf | backend/app/services/enhanced_websocket.py:110-133 | connecting keeps every room non-empty and every draft timer filed under its own pipeline:user key |
| SessionRegistry.DisconnectAsWritten | backend/app/services/enhanced_websocket.py:157-184 | as written, the timer looked up and cancelled is the one under the bare user id |
| SessionRegistry.LeaveRoom | backend/app/services/enhanced_websocket.py:160-165 | a leaving user loses their connection and the first listing among the collaborators (`list.remove`), and every other part of the room state stays |
| SessionRegistry.Disconnect | backend/app/services/enhanced_websocket.py:157-184 | the user leaves the room and the user table; the room's collaborators lose exactly the first listing of the user, and its URLs, schema, code and status stay; its lock only is released; the last user leaving deletes the room; its "pipeline:user" timer is cancelled |
| SessionRegistry.DisconnectKeepsWf | backend/app/services/enhanced_websocket.py:157-184 | disconnecting keeps every room non-empty and every draft timer filed under its own pipeline:user key |
| SessionRegistry.DraftTimerSurvivesDisconnect | backend/app/services/enhanced_websocket.py:171-174 | as written, the user's "pipeline:user" auto-save timer is still pending after disconnect |
| SessionRegistry.BareKeyCancelsForeignTimer | backend/app/services/enhanced_websocket.py:172-174 | as written, a user id of the form "a:b" cancels the timer of user b on pipeline a, which the corrected disconnect keeps |
| SessionRegistry.RejoinLeavesCollaborator | backend/app/services/enhanced_websocket.py:133-165 | a user who connects twice and leaves once is still listed once as collaborator, since only the first entry is removed |
| SessionRegistry.ApplyEdit | backend/app/services/enhanced_websocket.py:340-345 | an edit replaces only the named field, with the empty default when no value is given; another field name changes nothing |
| SessionRegistry.ScheduleAutoSave | backend/app/services/enhanced_websocket.py:382-392 | the pipeline:user timer is replaced by a fresh one due in five seconds and other timers stay |
| SessionRegistry.TakeLock | backend/app/services/enhanced_websocket.py:332-337 | taking a free lock records the holder and starts a release task due in thirty seconds; the holder's own edit starts none |
| SessionRegistry.EditRoom | backend/app/services/enhanced_websocket.py:339-345 | the room's state receives the edit and nothing else changes |
| SessionRegistry.HandleEdit | backend/app/services/enhanced_websocket.py:312-363 | the edit is accepted exactly when the lock is free or the user's, and refused with a warning to the editor exactly when another user holds it |
| SessionRegistry.EditRefusedWhenLocked | backend/app/services/enhanced_websocket.py:320-331 | a refused edit changes nothing and at most warns the editor, naming the holder |
| SessionRegistry.EditTakesLock | backend/app/services/enhanced_websocket.py:332-337 | an unrefused edit leaves the user holding the lock, with a release task only when the lock was free |
| SessionRegistry.EditChangesOnlyField | backend/app/services/enhanced_websocket.py:339-363 | an accepted edit changes only the edited field of its own room |
| SessionRegistry.EditUnknownPipelineRaises | backend/app/services/enhanced_websocket.py:340-345 | an edit of a named field on an unknown pipeline raises after taking the lock and sends nothing |
| SessionRegistry.EditKeepsWf | backend/app/services/enhanced_websocket.py:312-363 | an edit keeps every room non-empty and every draft timer filed under its own pipeline:user key |
| SessionRegistry.EditNeedsLock | backend/app/services/enhanced_websocket.py:320-334 | an accepted edit was made by the holder or with the lock free |
| SessionRegistry.HolderEditsScheduleNoRelease | backend/app/services/enhanced_websocket.py:320-337 | the holder's second edit does not start a second release task |
| SessionRegistry.FireRelease | backend/app/services/enhanced_websocket.py:365-380 | a release task removes the lock only if its user still holds it, and tells that user when connected |
| SessionRegistry.StaleReleaseKeepsNewHolder | backend/app/services/enhanced_websocket.py:369 | a release task of an earlier holder leaves the new holder's lock in place |
| SessionRegistry.EditLockExpires | backend/app/services/enhanced_websocket.py:334-370 | the lock an edit takes is gone once its release task fires |
| SessionRegistry.FireAutoSave | backend/app/services/enhanced_websocket.py:394-410 | the timer is spent and the user, when still connected, is told the draft was saved |
| SessionRegistry.AutoSaveDebounces | backend/app/services/enhanced_websocket.py:382-392 | of two edits in a row only one timer remains, due five seconds after the second |
| SessionRegistry.ConcatChunksFrom | backend/app/services/enhanced_websocket.py:459-461 | the chunks from a position join up to the rest of the text |
| SessionRegistry.Chunks | backend/app/services/enhanced_websocket.py:457-461 | the chunks join up to the whole text |
| SessionRegistry.ChunkFrames | backend/app/services/enhanced_websocket.py:52-461 | one streaming frame per chunk, in order, with the message id |
| SessionRegistry.ChunkFromIsSlice | backend/app/services/enhanced_websocket.py:459-460 | the k-th chunk is the slice starting at 50 times k |
| SessionRegistry.ChunkLengths | backend/app/services/enhanced_websocket.py:457-460 | every chunk is non-empty and at most 50 characters, all but the last exactly 50 |
| SessionRegistry.ChunkCount | backend/app/services/enhanced_websocket.py:459 | there are as many chunks as the length divided by 50, rounded up |
| SessionRegistry.SendChunk | backend/app/services/enhanced_websocket.py:52-61 | the chunk is appended to the stream and sent as a frame with its message id |
| SessionRegistry.Finish | backend/app/services/enhanced_websocket.py:63-76 | the closing frame is the complete frame of the stream's own message id |
| SessionRegistry.FinishSendsText | backend/app/services/enhanced_websocket.py:63-76 | finishing a stream of the text's chunks sends the whole text |
| SessionRegistry.StreamText | backend/app/services/enhanced_websocket.py:455-464 | the frames are one per chunk followed by the completion frame holding the whole text |
| SessionRegistry.ApplyContext | backend/app/services/enhanced_websocket.py:466-480 | each key the agent returned replaces its field (generated_code into code, current_phase into status) and the collaborators stay |
| SessionRegistry.ProcessMessage | backend/app/services/enhanced_websocket.py:422-511 | ping gives pong, another type an unknown-type error, chat streams the agent's message and applies its context to the room |
| SessionRegistry.ActiveUsers | backend/app/services/enhanced_websocket.py:517-519 | exactly the users connected to the pipeline, none for an unknown one |
| SessionRegistry.ConnectDisconnectActive | backend/app/services/enhanced_websocket.py:97-519 | a user is active after connecting and not after disconnecting |
| ConnectionManager.Connect | scrapecraft-repo/backend/app/services/websocket.py:16-37 | the socket is appended to the pipeline's list; a state is created only with a pipeline's first list, and a listed pipeline whose state is missing fails |
| ConnectionManager.ConnectKeepsWf | scrapecraft-repo/backend/app/services/websocket.py:16-37 | from a registry where every listed pipeline has a state, connecting succeeds and keeps that so |
| ConnectionManager.Disconnect | scrapecraft-repo/backend/app/services/websocket.py:39-46 | the socket's first listing is removed and the rest kept in order, an unlisted socket raises, the empty list is deleted, the states are never touched, and an unknown pipeline changes nothing |
| ConnectionManager.DisconnectKeepsWf | scrapecraft-repo/backend/app/services/websocket.py:39-46 | disconnecting keeps every listed pipeline with a state |
| ConnectionManager.StateOutlivesConnections | scrapecraft-repo/backend/app/services/websocket.py:20-46 | when the last socket leaves, the state stays; a reconnect then finds no list and overwrites that state with a fresh initial state, which it sends |
| ConnectionManager.Reachable | scrapecraft-repo/backend/app/services/websocket.py:60-67 | exactly the listed sockets whose send does not raise |
| ConnectionManager.Broadcast | scrapecraft-repo/backend/app/services/websocket.py:55-67 | the message reaches exactly the pipeline's working sockets, nothing for an unknown pipeline |
| ConnectionManager.BroadcastReachesEveryListing | scrapecraft-repo/backend/app/services/websocket.py:60-64 | with every socket up, each listing gets one send |
| ConnectionManager.ProcessMessage | scrapecraft-repo/backend/app/services/websocket.py:69-136 | ping gives pong, an unknown type an error naming it, a state request the workflow (created when missing); chat replies with the manager's workflow in the agent's phase holding the merged URLs, schema and code, other pipelines unchanged; an approval is exactly the manager's decision, or its unknown-pipeline error raised; the manager's invariant is kept |
| LanggraphAgent.InitialState | scrapecraft-repo/backend/app/agents/langgraph_agent.py:819-837 | the graph starts in INITIAL with the message as request and no URLs, fields, errors or approval request |
| LanggraphAgent.RouteAfterAnalysis | scrapecraft-repo/backend/app/agents/langgraph_agent.py:693-704 | an error phase routes to error; otherwise present URLs to validation; otherwise schema definition only from that phase, and URL collection in every other case |
| LanggraphAgent.RouteAfterApproval | scrapecraft-repo/backend/app/agents/langgraph_agent.py:706-713 | continue exactly on "approved", reject exactly on "rejected", timeout otherwise |
| LanggraphAgent.RouteCodeApproval | scrapecraft-repo/backend/app/agents/langgraph_agent.py:715-722 | execute exactly on "approved", regenerate exactly on "rejected", end otherwise |
| LanggraphAgent.RoutersAgree | scrapecraft-repo/backend/app/agents/langgraph_agent.py:706-722 | the two approval routers split the statuses the same way |
| LanggraphAgent.GoodAppend | scrapecraft-repo/backend/app/agents/langgraph_agent.py:339-345 | appending an unseen, non-empty, unvalidated URL keeps the collected list duplicate-free |
| LanggraphAgent.AddHits | scrapecraft-repo/backend/app/agents/langgraph_agent.py:336-345 | the hits never shorten the collected list, and a list of distinct, non-empty, unvalidated URLs stays one |
| LanggraphAgent.AddHitsSnoc | scrapecraft-repo/backend/app/agents/langgraph_agent.py:336-345 | the hits are taken in order: a dict hit whose URL is non-empty and not yet collected is appended with its description, and any other hit adds nothing |
| LanggraphAgent.LocationCandidates | scrapecraft-repo/backend/app/agents/langgraph_agent.py:353-374 | at least one candidate per location, each an https URL |
| LanggraphAgent.FirstUnseen | scrapecraft-repo/backend/app/agents/langgraph_agent.py:376-384 | the candidate taken is the first one not yet seen (every earlier candidate is seen), and none is taken when all are seen |
| LanggraphAgent.AddFallback | scrapecraft-repo/backend/app/agents/langgraph_agent.py:349-384 | a failed search adds at most one constructed URL per location and keeps the list duplicate-free |
| LanggraphAgent.AddFallbackSnoc | scrapecraft-repo/backend/app/agents/langgraph_agent.py:351-384 | the locations are taken in order, and each adds its first candidate URL not yet collected, described as "Direct link for <location> weather data", or nothing when every candidate is taken |
| LanggraphAgent.CollectFrom | scrapecraft-repo/backend/app/agents/langgraph_agent.py:332-384 | the query loop keeps the list duplicate-free and adds at most one error per query |
| LanggraphAgent.CollectFromSnoc | scrapecraft-repo/backend/app/agents/langgraph_agent.py:332-384 | the queries are taken in order: a search that returned hits adds them through the main path, and one that raised adds exactly one error naming the query and its message and then runs the location fallback when a domain and locations are known |
| LanggraphAgent.HitsAsUrls | scrapecraft-repo/backend/app/agents/langgraph_agent.py:410-417 | the simple search yields at most one URL per hit |
| LanggraphAgent.HitsAsUrlsConcat | scrapecraft-repo/backend/app/agents/langgraph_agent.py:410-417 | the simple search maps results one by one, in order: each dict hit gives exactly one URL, empty or repeated URLs included, and any other hit gives none |
| LanggraphAgent.CollectUrls | scrapecraft-repo/backend/app/agents/langgraph_agent.py:292-430 | with a plan, the URLs and errors are those of the loop over its first three queries, URLs found mean URL_VALIDATION, none means INITIAL with a request for help, and nothing else changes; without a plan, the raw request's hits are taken as they are, or a failed search means ERROR with one error naming the search's message |
| LanggraphAgent.FirstVerdict | scrapecraft-repo/backend/app/agents/langgraph_agent.py:506-509 | the verdict used for a URL is the first one naming it, none when no verdict does |
| LanggraphAgent.Survivors | scrapecraft-repo/backend/app/agents/langgraph_agent.py:505-531 | the kept URLs are at most the input ones and all marked validated |
| LanggraphAgent.SurvivorsExactly | scrapecraft-repo/backend/app/agents/langgraph_agent.py:505-533 | exactly the URLs with a high verdict, or a medium one while fewer than three are high, that say include, are kept, marked, in input order |
| LanggraphAgent.SurvivorsConcat | scrapecraft-repo/backend/app/agents/langgraph_agent.py:505-531 | validation keeps URLs in input order: the survivors of a joined list are those of each part in turn, and one URL is kept, marked, exactly when it survives |
| LanggraphAgent.ValidateUrls | scrapecraft-repo/backend/app/agents/langgraph_agent.py:432-577 | no URLs or an unusable reply means ERROR with one more error; otherwise exactly the survivors, SCHEMA_DEFINITION, and an approval request exactly when fewer than three or under 30% survive |
| LanggraphAgent.LowOrUnincludedDropped | scrapecraft-repo/backend/app/agents/langgraph_agent.py:513-531 | a URL whose verdict is low, or does not say include, is never kept |
| LanggraphAgent.ValidateSchema | scrapecraft-repo/backend/app/agents/langgraph_agent.py:630-644 | the schema is validated, and the phase moves to CODE_GENERATION, exactly when it has at least two fields |
| LanggraphAgent.GenerateCode | scrapecraft-repo/backend/app/agents/langgraph_agent.py:646-663 | the code is stored, the phase becomes READY_TO_EXECUTE and approval is requested, URLs and fields unchanged |
| LanggraphAgent.AwaitApproval | scrapecraft-repo/backend/app/agents/langgraph_agent.py:665-672 | the gate approves at once, so routing continues, and nothing else changes |
| LanggraphAgent.CodegenType | scrapecraft-repo/backend/app/agents/langgraph_agent.py:728-743 | after lower-casing, "list" and "dict" map to the container types, "int"/"integer" to Optional[int], "float" to Optional[float], "bool"/"boolean" to Optional[bool], and "str", "string" or any other name to Optional[str] |
| LanggraphAgent.CodegenTypeIsTableLookup | scrapecraft-repo/backend/app/agents/langgraph_agent.py:729-743 | the type is the `type_mapping` lookup of the lower-cased name with "str" as default, wrapped in Optional unless it is a list or dict type |
| LanggraphAgent.SchemaDict | scrapecraft-repo/backend/app/agents/langgraph_agent.py:649-856 | one entry per distinct field name, exactly the names the fields carry |
| LanggraphAgent.SchemaDictLastMention | scrapecraft-repo/backend/app/agents/langgraph_agent.py:856 | a field name mentioned more than once maps to the type of its last mention, as in the dict comprehension |
| LanggraphAgent.ResultOf | scrapecraft-repo/backend/app/agents/langgraph_agent.py:843-872 | a raised run gives the ERROR reply with empty URLs, schema and code and the error; otherwise the final state's phase, URLs, code, errors and approval flag |
| UnifiedAgent.TargetField | backend/app/agents/unified_agent.py:244-256 | an incoming key feeds a context field, or none |
| UnifiedAgent.FilterIncoming | backend/app/agents/unified_agent.py:241-256 | the filtered dictionary holds only context fields, each once |
| UnifiedAgent.FilterPicksLast | backend/app/agents/unified_agent.py:247-255 | a field takes the value of the last incoming key that feeds it |
| UnifiedAgent.FilterIncomingFields | backend/app/agents/unified_agent.py:247-255 | current_phase comes from the last of current_phase, phase and status, generated_code from the last of generated_code and code, and the other fields from their own keys |
| UnifiedAgent.AsMetadata | backend/app/agents/unified_agent.py:244-249 | the metadata keeps the incoming keys |
| UnifiedAgent.FromFiltered | backend/app/agents/unified_agent.py:258-271 | each filtered value of the right type sets its field over the defaults: phase, code, URLs, the schema dict, and the metadata dict; a missing one leaves the default; one value of a wrong type gives the minimal context instead |
| UnifiedAgent.CreateContext | backend/app/agents/unified_agent.py:240-271 | no incoming context, or one that fails to build, gives the minimal context; otherwise each field, schema and metadata included, comes from the last incoming key that feeds it, or keeps its default |
| UnifiedAgent.UnknownKeysDropped | backend/app/agents/unified_agent.py:256 | an incoming key that feeds no field makes no difference |
| UnifiedAgent.Given | backend/app/agents/unified_agent.py:232-237 | a value counts as given exactly when present and truthy |
| UnifiedAgent.MergeStored | backend/app/agents/unified_agent.py:227-238 | truthy incoming urls, schema and code (code before generated_code) replace the stored ones, everything else is kept, and a replacing value of the wrong type fails the rebuild |
| UnifiedAgent.LoadContext | backend/app/agents/unified_agent.py:209-280 | with nothing stored, a new context for the pipeline and user; with a stored one, its pipeline, user and phase are kept |
| UnifiedAgent.EmptyValuesKeepStored | backend/app/agents/unified_agent.py:231-237 | empty incoming values never wipe a stored context |
| UnifiedAgent.HandlerFor | backend/app/agents/unified_agent.py:417-427 | a registered intent name reaches its handler, any other name the general-question handler |
| UnifiedAgent.HandlerForName | backend/app/agents/unified_agent.py:417-427 | every handler is reached by its own registered name |
| UnifiedAgent.AnalyzeIntent | backend/app/agents/unified_agent.py:358-383 | a parsed reply gives its intent with the similar pipelines emptied; otherwise ask_question with confidence 0.5 and the clarify_request action |
| UnifiedAgent.SearchUrls | backend/app/agents/unified_agent.py:444-445 | exactly the results' non-empty urls |
| UnifiedAgent.SearchUrlsConcat | backend/app/agents/unified_agent.py:444-445 | the search results are read in order, one at a time: a result gives its url exactly when it has a non-empty one |
| UnifiedAgent.UrlsToAdd | backend/app/agents/unified_agent.py:439-445 | the entity's URLs when given; without them, the search results' URLs when a non-empty query is given, and nothing otherwise |
| UnifiedAgent.HandleAddUrls | backend/app/agents/unified_agent.py:447-449 | the URLs not already in the context are appended in order, repeats within the new list kept, and the rest of the context unchanged |
| UnifiedAgent.HandleAddUrlsConcat | backend/app/agents/unified_agent.py:447-448 | the incoming URLs are taken in order, one at a time: a URL is added exactly when the context lacks it, repeats within the incoming list included |
| UnifiedAgent.ItemPairs | backend/app/agents/unified_agent.py:494-510 | a list of field items gives at most one pair per item |
| UnifiedAgent.ItemPairsConcat | backend/app/agents/unified_agent.py:494-510 | the list items are read in order: the pairs of a joined list are those of each part in turn |
| UnifiedAgent.OneItemPairs | backend/app/agents/unified_agent.py:496-510 | a one-item list gives that item's pair, or none |
| UnifiedAgent.SingleItemFields | backend/app/agents/unified_agent.py:498-506 | an item with a name gives name and type (default "str"), another dict its first entry, an empty dict nothing |
| UnifiedAgent.HandleDefineSchema | backend/app/agents/unified_agent.py:478-543 | only the schema changes, and every existing key stays |
| UnifiedAgent.DefineSchemaOverlays | backend/app/agents/unified_agent.py:519-520 | the new fields override, and every other key keeps its value |
| UnifiedAgent.ListedFieldTakesLastType | backend/app/agents/unified_agent.py:496-510 | a field listed twice takes the type of its last mention |
| UnifiedAgent.NextActions | backend/app/agents/unified_agent.py:997-1010 | add_urls without URLs, then define_schema without a schema, then generate_code without code, otherwise the three follow-ups |
| UnifiedAgent.AddingUrlsAdvances | backend/app/agents/unified_agent.py:447-1002 | adding URLs to a context without any moves the suggestion past add_urls |
| UnifiedAgent.DefiningSchemaAdvances | backend/app/agents/unified_agent.py:519-1004 | defining a non-empty schema moves the suggestion past define_schema |
| UnifiedAgent.ApplyEach | backend/app/agents/unified_agent.py:973-991 | concurrency suggestions touch only the code, schema suggestions only the schema; absent concurrency suggestions the code stays, and empty code stays empty |
| UnifiedAgent.ApplyOptimizations | backend/app/agents/unified_agent.py:965-995 | the metadata records how many suggestions there were, its other keys stay, the schema takes the suggested fields, and URLs, pipeline and phase stay |
| UnifiedAgent.ConcurrencyNeedsSetting | backend/app/agents/unified_agent.py:976-982 | a concurrency suggestion leaves code without the single-worker setting as it is |
| OpenRouterAgent.LastN | backend/app/agents/openrouter_agent.py:107-118 | the last n messages, or all when there are fewer |
| OpenRouterAgent.AddToHistory | backend/app/agents/openrouter_agent.py:95-108 | the pipeline has a history afterwards, of at most twenty messages |
| OpenRouterAgent.AddToHistoryKeepsTail | backend/app/agents/openrouter_agent.py:95-108 | the new message is last, the length grows by one up to twenty, the rest is the most recent tail, and other pipelines are untouched |
| OpenRouterAgent.LastNAppend | backend/app/agents/openrouter_agent.py:107-108 | trimming before or after appending gives the same last n |
| OpenRouterAgent.HistoryAfterAdd | backend/app/agents/openrouter_agent.py:95-108 | after adding, the history is the last twenty of the old history plus the message |
| OpenRouterAgent.HistoryKeepsMostRecent | backend/app/agents/openrouter_agent.py:95-108 | after any sequence of additions, the history is the last twenty of everything added |
| OpenRouterAgent.ClearHistory | backend/app/agents/openrouter_agent.py:110-113 | the pipeline's history is empty afterwards and every other pipeline's is unchanged |
| OpenRouterAgent.ClearForgetsAdditions | backend/app/agents/openrouter_agent.py:110-121 | after clearing, the rendering says there is no previous conversation |
| OpenRouterAgent.Preview | backend/app/agents/openrouter_agent.py:126 | content up to 200 characters is shown whole; longer content is cut to 200 characters and "..." |
| OpenRouterAgent.Lines | backend/app/agents/openrouter_agent.py:124-126 | one rendered line per message, in order |
| OpenRouterAgent.Recent | backend/app/agents/openrouter_agent.py:118 | the last limit messages for a positive limit; a limit of 0 selects the whole history, since a slice from -0 starts at 0 |
| OpenRouterAgent.FormatConversation | backend/app/agents/openrouter_agent.py:115-128 | no recent messages gives "No previous conversation."; otherwise the heading and one line per recent message |
| OpenRouterAgent.FormatShowsMostRecent | backend/app/agents/openrouter_agent.py:115-128 | a positive limit renders the most recent min(length, limit) messages, and a non-empty history is never reported empty |
| OpenRouterAgent.SimpleUrlSearchCheck | backend/app/agents/openrouter_agent.py:267-278 | a search is asked for exactly when the lower-cased message holds a scrape keyword and the message holds no http(s) URL |
| OpenRouterAgent.UrlSurvivesPrefix | backend/app/agents/openrouter_agent.py:272 | a URL found in a text is still found with text in front of it |
| OpenRouterAgent.UrlMessageNeverSearches | backend/app/agents/openrouter_agent.py:272-278 | a message holding an https URL never triggers the search fallback |
| OpenRouterAgent.HandleDirectUrls | backend/app/agents/openrouter_agent.py:448-456 | the URLs not already present are appended after the existing ones, each once, and reported as added |
| OpenRouterAgent.DirectUrlsIdempotent | backend/app/agents/openrouter_agent.py:448-456 | adding the same URLs again changes nothing and adds none |
| OpenRouterAgent.FoundUrls | backend/app/agents/openrouter_agent.py:364-375 | a pair is kept exactly when some hit offers it with a non-empty URL, at most one per hit |
| OpenRouterAgent.ScanFor | backend/app/agents/openrouter_agent.py:334-335 | the analysis used is the first whose url occurs inside the found URL; an entry without url raises |
| OpenRouterAgent.FilterFound | backend/app/agents/openrouter_agent.py:330-345 | the kept URLs keep their order and are exactly the found ones that no matching analysis excludes |
| OpenRouterAgent.FilterByRelevance | backend/app/agents/openrouter_agent.py:280-354 | without a usable analysis, or when the scan raises, all found URLs are kept; otherwise exactly the unexcluded ones, in order |
| OpenRouterAgent.UnanalysedKept | backend/app/agents/openrouter_agent.py:341-343 | URLs no analysis mentions are all kept |
| OpenRouterAgent.UrlSearchUrls | backend/app/agents/openrouter_agent.py:384-391 | the existing URLs come first and unchanged, followed by the new filtered URLs, each once |
| OpenRouterAgent.ReplyTypeName | backend/app/agents/openrouter_agent.py:192-199 | the recorded type is one of the five schema types: a type word maps to itself, "string", "integer" and "boolean" to "str", "int" and "bool", and any other word to "str" |
| OpenRouterAgent.DirectUrlsInInputOrder | backend/app/agents/openrouter_agent.py:448-456 | the added URLs come in the order of their first occurrences in the input |
| OpenRouterAgent.FoundUrlsConcat | backend/app/agents/openrouter_agent.py:364-375 | the pairs of a list of hits are those of its parts, in order |
| OpenRouterAgent.FoundUrlsSingle | backend/app/agents/openrouter_agent.py:364-375 | one hit contributes its (url, description) pair exactly when the URL is non-empty |
| OpenRouterAgent.ReplyTypeNameIsTableLookup | backend/app/agents/openrouter_agent.py:192-199 | the chain of tests is the lookup in the reply's type table with "str" as default |
| ScrapeGraph.Iterate | backend/app/services/scrapegraph.py:116-125 | iterating a list gives its items, and iterating null, a boolean or a number raises |
| ScrapeGraph.Record | backend/app/services/scrapegraph.py:39-63 | the record keeps the URL, succeeds exactly when the call returned, and holds the data or the error text, never both |
| ScrapeGraph.AllFailed | backend/app/services/scrapegraph.py:66-74 | when the client itself fails, every URL gets a failed record with that error, in order |
| ScrapeGraph.ShapeRecords | backend/app/services/scrapegraph.py:39-64 | one record per gathered outcome, aligned with the URLs; more outcomes than URLs would raise |
| ScrapeGraph.Unwrap | backend/app/services/scrapegraph.py:49-56 | a dict with "result" gives that field, a model its dump, anything else itself |
| ScrapeGraph.ExecutePipeline | backend/app/services/scrapegraph.py:14-76 | at most one record per URL, aligned with the URLs; a failed client gives all URLs failed; otherwise success exactly where the call returned, with the unwrapped data |
| ScrapeGraph.TypeFor | scrapecraft-repo/backend/app/services/scrapegraph.py:88-97 | each of the six names maps to its Python type, any other name to str |
| ScrapeGraph.FieldTypeOf | scrapecraft-repo/backend/app/services/scrapegraph.py:86-100 | a type name is mapped, null is kept as it is, and any other value cannot be used as a type |
| ScrapeGraph.FieldPairs | scrapecraft-repo/backend/app/services/scrapegraph.py:85-100 | one optional field, defaulting to None, per schema entry, in order |
| ScrapeGraph.PydanticFields | scrapecraft-repo/backend/app/services/scrapegraph.py:80-103 | the model is built exactly when every field's type is usable, with exactly the schema's names |
| ScrapeGraph.PydanticFieldOf | scrapecraft-repo/backend/app/services/scrapegraph.py:86-100 | a field named with a type name becomes an optional field of the mapped type |
| ScrapeGraph.ExecutePipelineWithSchema | scrapecraft-repo/backend/app/services/scrapegraph.py:15-78 | at most one record per URL, aligned; a failed client, or a schema whose model cannot be built, fails every URL; otherwise success exactly where the call returned, with the raw reply |
| ScrapeGraph.VersionsAgree | backend/app/services/scrapegraph.py:14-76 | without a schema the two versions give the same records, except that the first unwraps the data |
| ScrapeGraph.Urls | backend/app/services/scrapegraph.py:118-130 | the URLs of the entries, in order |
| ScrapeGraph.Describe | backend/app/services/scrapegraph.py:120 | an entry's description is the site's description, else its name, else the "found via search" text |
| ScrapeGraph.Filtered | backend/app/services/scrapegraph.py:116-117 | exactly the dict items that carry a url |
| ScrapeGraph.WebsiteEntries | backend/app/services/scrapegraph.py:114-121 | one entry per website dict with a url, and no others |
| ScrapeGraph.AddReferences | backend/app/services/scrapegraph.py:124-130 | the entries stay first and unchanged, followed by each reference URL not yet present, labelled as a reference source |
| ScrapeGraph.ReferencesAddNoDuplicates | backend/app/services/scrapegraph.py:124-130 | reference URLs never repeat a URL and all end up present |
| ScrapeGraph.ParseSearch | backend/app/services/scrapegraph.py:108-133 | a reply that is not a dict gives no entries |
| ScrapeGraph.FallbackEntries | backend/app/services/scrapegraph.py:135-159 | at most max_results entries, the first matches of the reply, each with the "found via search" description |
| ScrapeGraph.SearchUrls | backend/app/services/scrapegraph.py:79-163 | any failure gives no URLs; a searchscraper reply is parsed; a missing searchscraper falls back to smartscraper with at most max_results entries |
| ScrapeGraph.SearchReplyShape | backend/app/services/scrapegraph.py:111-133 | a well-shaped reply gives its website entries followed by the new reference URLs |
| EnhancedScraping.Classify | scrapecraft-repo/backend/app/services/scraping_service_enhanced.py:113-123 | a message with "500" or "503" is an API error; otherwise one with "429" or "rate limit" (any case) a rate-limit error; otherwise a scraping error; each case as an if-and-only-if |
| EnhancedScraping.SmartScraperAttempt | scrapecraft-repo/backend/app/services/scraping_service_enhanced.py:90-123 | an attempt succeeds exactly when the client returned a dict, whose "result" (or the dict itself) is the data; a timeout is a scraping error |
| EnhancedScraping.RunWithRetry | scrapecraft-repo/backend/app/services/scraping_service_enhanced.py:67-72 | the decorator with its logging hook run only between attempts, as intended: from attempt k, attempts go on exactly while they raise a retryable error and fewer than three were made; the outcome is the last attempt's value, its non-retryable error, or giving up after three |
| EnhancedScraping.WithRetry | scrapecraft-repo/backend/app/services/scraping_service_enhanced.py:67-129 | the intended decorator: between one and three attempts; every attempt but the last raised a retryable error, and the outcome is decided by the last |
| EnhancedScraping.NotRetried | scrapecraft-repo/backend/app/services/scraping_service_enhanced.py:70 | the first non-retryable error ends the calls at once and is re-raised |
| EnhancedScraping.SmartScraper | scrapecraft-repo/backend/app/services/scraping_service_enhanced.py:67-123 | `smart_scraper` under the intended decorator: between one and three attempts, and a success carries the requested URL |
| EnhancedScraping.NoGetIsNoServerError | scrapecraft-repo/backend/app/services/scraping_service_enhanced.py:105-117 | a reply without get raises an error whose text is not a server error |
| EnhancedScraping.SmartScraperRetriesOnlyServerErrors | scrapecraft-repo/backend/app/services/scraping_service_enhanced.py:67-123 | under the intended decorator, only server errors are retried, giving up only after server errors, and any other failure is raised as a scraping or rate-limit error |
| EnhancedScraping.RateLimitNotRetried | scrapecraft-repo/backend/app/services/scraping_service_enhanced.py:119-120 | under the intended decorator, a rate-limit failure is raised after the first attempt, as a rate-limit error |
| EnhancedScraping.Dicts | scrapecraft-repo/backend/app/services/scraping_service_enhanced.py:193-227 | exactly the dict items, in order |
| EnhancedScraping.SiteEntry | scrapecraft-repo/backend/app/services/scraping_service_enhanced.py:219-231 | an entry's url is the site's url or empty; its description the site's description, else its name for websites, else empty |
| EnhancedScraping.DictEntries | scrapecraft-repo/backend/app/services/scraping_service_enhanced.py:217-231 | one entry per dict item, in order |
| EnhancedScraping.ResultEntries | scrapecraft-repo/backend/app/services/scraping_service_enhanced.py:212-231 | a dict result with websites gives one entry per dict among them, described by description or else name, and fails only where iterating them raises; a list result gives its dict items' entries; anything else gives none |
| EnhancedScraping.ParseSearchResults | scrapecraft-repo/backend/app/services/scraping_service_enhanced.py:206-242 | a non-dict reply gives no entries; otherwise the entries of its result (none without one, failing where they fail), followed, when reference_urls is a list, by the references not yet listed, labelled "Reference URL" |
| EnhancedScraping.ReferenceUrlsAppended | scrapecraft-repo/backend/app/services/scraping_service_enhanced.py:233-240 | the result's entries come first and the reference URLs not yet present follow |
| EnhancedScraping.Fallback | scrapecraft-repo/backend/app/services/scraping_service_enhanced.py:176-204 | at most max_results entries, none when the scrape failed or its data is not a list; otherwise the entry of each dict among the first max_results items, in order, and nothing else |
| EnhancedScraping.SearchAttempt | scrapecraft-repo/backend/app/services/scraping_service_enhanced.py:145-174 | only a server error raises (as "Search API error: ..."); a timeout or any other failure gives no URLs |
| EnhancedScraping.SearchUrls | scrapecraft-repo/backend/app/services/scraping_service_enhanced.py:125-174 | the search never raises anything but its API error after three server errors, and a first-attempt timeout gives no URLs at once |
| EnhancedScraping.ScrapeMultiple | scrapecraft-repo/backend/app/services/scraping_service_enhanced.py:267-307 | over the intended decorator: one result per URL, in order; success exactly when the retried smart scrape succeeded, otherwise a failure carrying its error |
| EnhancedScraping.SmartScraperAsWritten | scrapecraft-repo/backend/app/services/scraping_service_enhanced.py:67-72 | as written, the `before` hook raises `AttributeError` on the missing outcome before the first attempt, so no client call is made and the error, which is not retried, escapes |
| EnhancedScraping.FallbackListsEveryDict | scrapecraft-repo/backend/app/services/scraping_service_enhanced.py:193-202 | every dict among the first max_results items gives an entry, and every entry comes from one of them |
| EnhancedScraping.FallbackAsWrittenEmpty | scrapecraft-repo/backend/app/services/scraping_service_enhanced.py:176-204 | as written, the fallback search, and a search whose client lacks searchscraper, find no URLs |
| EnhancedScraping.ScrapeMultipleAsWritten | scrapecraft-repo/backend/app/services/scraping_service_enhanced.py:267-307 | as written, every URL gets a failure record carrying the hook's `AttributeError`, whatever the client would return |
| Tools.AddUrl | scrapecraft-repo/backend/app/agents/tools.py:17-36 | accepted exactly when the scheme is http or https and there is a netloc; a missing scheme or netloc is reported as an invalid format before a wrong scheme |
| Tools.NoColonRejected | scrapecraft-repo/backend/app/agents/tools.py:17-36 | a URL without a colon has no scheme and is rejected as invalid |
| Tools.AcceptedHasAuthority | scrapecraft-repo/backend/app/agents/tools.py:17-36 | an accepted URL holds the "//" of its authority |
| Tools.RemoveUrl | scrapecraft-repo/backend/app/agents/tools.py:38-45 | removal always reports success with the URL |
| Tools.ClearPipeline | scrapecraft-repo/backend/app/agents/tools.py:183-189 | clearing always reports success |
| Tools.ToolType | scrapecraft-repo/backend/app/agents/tools.py:84-96 | int, float, bool and list map to their types and every other name, dict included, to str |
| Tools.DefineSchema | scrapecraft-repo/backend/app/agents/tools.py:78-105 | success exactly when every field has a name, otherwise the KeyError text "'name'"; the schema has one key per distinct name and the count of fields |
| Tools.DefinedNames | scrapecraft-repo/backend/app/agents/tools.py:84-96 | the schema defines exactly the names the fields carry |
| Tools.DefinedType | scrapecraft-repo/backend/app/agents/tools.py:84-96 | a name takes the mapped type of the last field carrying it |
| Tools.SchemaLines | scrapecraft-repo/backend/app/agents/tools.py:164-167 | one class-body line per schema entry: indent, name, colon, type |
| Tools.SchemaBlock | scrapecraft-repo/backend/app/agents/tools.py:164-169 | the block is "    pass" exactly for an empty schema, and otherwise the schema lines joined by newlines |
| Tools.GenerateCode | scrapecraft-repo/backend/app/agents/tools.py:107-181 | generating code always succeeds, with the given URLs and the schema block |
| ScrapingAgent.TypeNames | scrapecraft-repo/backend/app/agents/scraping_agent.py:124-129 | the schema keeps its keys, each type given by its name |
| ScrapingAgent.RunTool | scrapecraft-repo/backend/app/agents/scraping_agent.py:100-107 | binding the keywords as Python does: an argument the tool does not declare raises first, then a declared one left out; with exactly its parameters add_url, remove_url and validate_url are called with their url, define_schema with its fields, generate_code with its urls and schema, clear_pipeline with nothing, each as an if-and-only-if on the error |
| ScrapingAgent.ApplyTool | scrapecraft-repo/backend/app/agents/scraping_agent.py:102-129 | an add appends the URL, a remove takes out its first occurrence (raising when absent), a schema sets the defined names, generate stores the rendered code, clear resets; each changes only its own field and the messages, and a failed result only adds the reply |
| ScrapingAgent.ApplyToolAsWritten | scrapecraft-repo/backend/app/agents/scraping_agent.py:124-129 | as written, a successful non-empty define_schema result cannot be serialised and raises |
| ScrapingAgent.DefineSchemaRaisesAsWritten | scrapecraft-repo/backend/app/agents/tools.py:78-105 | as written, every define_schema call with at least one named field raises when its reply is serialised |
| ScrapingAgent.DefineSchemaCall | scrapecraft-repo/backend/app/agents/scraping_agent.py:89-131 | with serialisable results, a define_schema call sets the schema to exactly the defined names and keeps URLs and code |
| ScrapingAgent.CallTools | scrapecraft-repo/backend/app/agents/scraping_agent.py:89-131 | with a `define_schema` reply serialised by type names (the corrected reply of the Findings table): tool calls run in order, unknown tools are skipped, and only the URLs, schema, code and messages change, the messages growing at the end |
| ScrapingAgent.UnknownToolsSkipped | scrapecraft-repo/backend/app/agents/scraping_agent.py:93-94 | calls naming no known tool change nothing |
| ScrapingAgent.AddUrlCall | scrapecraft-repo/backend/app/agents/scraping_agent.py:102-103 | an accepted add_url appends the URL, a rejected one leaves the URLs, and one reply is added |
| ScrapingAgent.ShouldUseTools | scrapecraft-repo/backend/app/agents/scraping_agent.py:166-169 | tools are used exactly when the analysis named some |
| ScrapingAgent.LastHuman | scrapecraft-repo/backend/app/agents/scraping_agent.py:173-177 | no message found exactly when there is no human message |
| ScrapingAgent.LastHumanIsLast | scrapecraft-repo/backend/app/agents/scraping_agent.py:173-177 | the message found is a human message with no human message after it |
| ScrapingAgent.ShouldExecuteScraping | scrapecraft-repo/backend/app/agents/scraping_agent.py:171-185 | scraping runs exactly when the last human message, lower-cased, holds an execution keyword and there are URLs and a schema |
| ScrapingAgent.SchemaAsJson | scrapecraft-repo/backend/app/agents/scraping_agent.py:140-145 | the schema passed to the service keeps its keys and type names |
| ScrapingAgent.ExecuteScraping | scrapecraft-repo/backend/app/agents/scraping_agent.py:133-151 | without URLs or schema only the error is set; otherwise the results are the service's for the URLs and schema, aligned with the URLs, and the status is "completed" |
| ScrapingAgent.ToolTypesMatchServiceTypes | scrapecraft-repo/backend/app/agents/tools.py:84-96 | the tool and the service map every type name alike except dict, which only the service keeps |
| ScrapingAgent.InitialState | scrapecraft-repo/backend/app/agents/scraping_agent.py:189-198 | the state starts with the human message, status "processing", no results and no error, and the context's values or defaults |
| ScrapingAgent.ProcessMessage | scrapecraft-repo/backend/app/agents/scraping_agent.py:187-217 | with tool replies serialised by type names (the corrected reply of the Findings table): the reply is the model's; the status is "processing" or, only after tool calls with URLs and schema, "completed"; with no tool calls the initial state is returned |
| ScrapingAgent.NoKeywordNoScraping | scrapecraft-repo/backend/app/agents/scraping_agent.py:171-185 | a message without an execution keyword never starts scraping |
| ScrapingAgent.OnlyHumanMessageIsFirst | scrapecraft-repo/backend/app/agents/scraping_agent.py:173-177 | after tool calls, the last human message is still the user's message |
| ScrapingAgent.ToolRepliesOnly | scrapecraft-repo/backend/app/agents/scraping_agent.py:124-129 | tool calls only add tool replies to the messages |
| ScrapingAgent.LastHumanIsFirst | scrapecraft-repo/backend/app/agents/scraping_agent.py:173-177 | when only the first message is human, it is the last human message |
| PipelinesApi.OrEmpty | backend/app/api/pipelines.py:22-23 | a missing list or schema reads as empty |
| PipelinesApi.CreatePipeline | backend/app/api/pipelines.py:17-33 | the new pipeline is idle with no code, stored under its id, timestamps set, and no other entry changed |
| PipelinesApi.GetPipeline | backend/app/api/pipelines.py:35-41 | 404 exactly for an unknown id, otherwise the stored pipeline |
| PipelinesApi.ListPipelines | backend/app/api/pipelines.py:43-47 | exactly the stored pipelines in insertion order from position skip, at most limit of them: the slice [skip, skip + limit) of the values, of length min(limit, entries after skip) |
| PipelinesApi.ApplyUpdate | backend/app/api/pipelines.py:57-68 | each given field replaces the stored one, the others stay, and updated_at is refreshed |
| PipelinesApi.UpdatePipeline | backend/app/api/pipelines.py:49-69 | 404 exactly for an unknown id; otherwise the updated pipeline replaces the stored one in place and others stay |
| PipelinesApi.DeletePipeline | backend/app/api/pipelines.py:71-78 | 404 exactly for an unknown id; otherwise the pipeline is gone and others stay |
| PipelinesApi.RunPipeline | backend/app/api/pipelines.py:80-101 | 404 for an unknown id, then 400 without URLs, then 400 without schema; otherwise the pipeline is marked running and nothing else changes |
| PipelinesApi.PipelineStatusOf | backend/app/api/pipelines.py:103-115 | 404 exactly for an unknown id, otherwise its status and update time |
| PipelinesApi.PipelineResults | backend/app/api/pipelines.py:117-130 | 404 exactly for an unknown id, otherwise no results and zero counts |
| PipelinesApi.ExportPipelineResults | backend/app/api/pipelines.py:132-148 | 404 for an unknown id, then 400 for a format other than json, csv or excel; otherwise the download for that format |
| PipelinesApi.EndpointsKeepValid | backend/app/api/pipelines.py:17-101 | every endpoint keeps each pipeline stored under its own id, once |
| PipelinesApi.CreateGetDelete | backend/app/api/pipelines.py:17-78 | a created pipeline is found idle until deleted, and not found after |
| PipelinesApi.UpdateIdempotent | backend/app/api/pipelines.py:57-68 | applying an update twice is applying it once, and an empty update only refreshes the time |
| PipelinesApi.RunThenStatus | backend/app/api/pipelines.py:80-115 | after a run the status reads running, and running again changes nothing |
| ScrapingApi.StatusText | scrapecraft-repo/backend/app/api/scraping.py:85-96 | the four statuses read "pending", "running", "completed" and "failed", each name for exactly one status |
| ScrapingApi.ExecuteScraping | scrapecraft-repo/backend/app/api/scraping.py:31-58 | a pending task without results or error is recorded under the fresh id, others untouched, and the id is returned |
| ScrapingApi.MarkRunning | scrapecraft-repo/backend/app/api/scraping.py:70 | an unknown task raises; otherwise only its status becomes running |
| ScrapingApi.Finish | scrapecraft-repo/backend/app/api/scraping.py:72-83 | the scraping task completes with exactly the records, or fails with the error text; others untouched |
| ScrapingApi.RunScrapingTask | scrapecraft-repo/backend/app/api/scraping.py:60-83 | an unknown task raises; otherwise it ends completed exactly when the service returned |
| ScrapingApi.GetScrapingStatus | scrapecraft-repo/backend/app/api/scraping.py:85-96 | 404 exactly for an unknown task, otherwise its status and error |
| ScrapingApi.GetScrapingResults | scrapecraft-repo/backend/app/api/scraping.py:98-112 | 404 for an unknown task, 400 naming the status unless completed, otherwise the results |
| ScrapingApi.UpdatesFollowMachine | scrapecraft-repo/backend/app/api/scraping.py:52-83 | each update is one step pending, running, then completed or failed, and keeps results only on completed tasks and errors only on failed ones |
| ScrapingApi.RequestLifecycle | scrapecraft-repo/backend/app/api/scraping.py:31-112 | after the request and its job, the results endpoint returns exactly the records, or the status endpoint reports the failure |
| ScrapingApi.PendingResultsRefused | scrapecraft-repo/backend/app/api/scraping.py:104-108 | results are refused while the scraping task is pending or running |
| ScrapingApi.ServiceRunCompletes | scrapecraft-repo/backend/app/api/scraping.py:66-77 | with the service, which reports failures in its records, the job always completes |
| SimpleAgent.CommandOf | backend/app/agents/simple_agent.py:27-61 | the first phrase found decides the command, in the fixed order add url, list urls, schema, generate code, run |
| SimpleAgent.Respond | backend/app/agents/simple_agent.py:10-71 | the reply keeps status "idle", no results and the schema; a context without urls raises, after a failed URL split |
| SimpleAgent.UrlTextAsWritten | backend/app/agents/simple_agent.py:27-28 | as written, the URL is split out of the original message, so it is found only when the phrase is in lower case there |
| SimpleAgent.UrlText | backend/app/agents/simple_agent.py:27-28 | the URL text is the part of the original message after the phrase's first place in the lower-cased one |
| SimpleAgent.ProcessMessageAsWritten | backend/app/agents/simple_agent.py:27-28 | as written, a command recognised only after lower-casing fails to split |
| SimpleAgent.ProcessMessage | backend/app/agents/simple_agent.py:10-71 | the message fails only when the context lacks urls |
| SimpleAgent.CapitalisedAddUrlFails | backend/app/agents/simple_agent.py:27-28 | "Add URL x" is an add-url command that the code as written cannot complete and the corrected one can |
| SimpleAgent.AgreeOnLowerCase | backend/app/agents/simple_agent.py:27-28 | on lower-case messages the two versions agree |
| SimpleAgent.AddUrlAppendsOnce | backend/app/agents/simple_agent.py:27-33 | an add-url command appends the stripped URL once, or answers with help and changes nothing |
| SimpleAgent.GenerateNeedsUrlsAndSchema | backend/app/agents/simple_agent.py:47-55 | the code changes only on generate code with URLs and schema present |
| SimpleAgent.OtherCommandsEchoContext | backend/app/agents/simple_agent.py:34-71 | every other command echoes the context unchanged |
| SimpleAgent.NoCommandHelps | backend/app/agents/simple_agent.py:62-66 | a message naming no command gets the help text |
| Tools.SchemaLineRoundTrip | scrapecraft-repo/backend/app/agents/tools.py:164-167 | a line written for a name without a colon reads back, by dropping the indent and splitting at the first colon, as that name and type |
| Tools.SchemaLinesRoundTrip | scrapecraft-repo/backend/app/agents/tools.py:164-167 | the schema lines read back as the schema, entry by entry |
| Tools.SchemaBlockRoundTrip | scrapecraft-repo/backend/app/agents/tools.py:164-169 | the schema block, split at newlines and read line by line ("pass" as no entry), gives back the schema it was written from |
| ScrapingAgent.GeneratedBlockListsDefinedNames | scrapecraft-repo/backend/app/agents/tools.py:78-169 | the block `generate_code` writes for the schema `define_schema` defined reads back as that schema: one line per defined name, each name once, and no other line |
| ScrapingAgent.ExtraArgumentRaises | scrapecraft-repo/backend/app/agents/scraping_agent.py:104-107 | clear_pipeline called with a url, and add_url called with schema fields, raise the unexpected-argument TypeError |
| PipelinesApi.ListPipelinesPages | backend/app/api/pipelines.py:43-47 | the page of a entries from skip followed by the page of b entries after it is the page of a + b entries from skip, and one page from 0 of the store's size lists every pipeline |

## Left out

- LanggraphAgent.ValidateUrls: the 30% approval threshold is compared in exact reals. Python compares floats, where `10 * 0.3` is `3.0000000000000004`, so an input of exactly 10 URLs with 3 survivors can differ. The code also marks each kept `URLInfo` in place (relevance, `validated`, reason; `scrapecraft-repo/backend/app/agents/langgraph_agent.py:517-521`). When a later verdict lacks "reason", the `KeyError` takes the error path with the earlier URLs of `state["urls"]` already marked validated; the model's error path keeps the URLs as they were, so this partial marking is not modelled. Verdicts are taken to carry their "reason" and "relevance" keys.
- ScrapingAgent.RunTool: a call's arguments are the four keyword names the tools declare (`url`, `schema_fields`, `urls`, `extraction_schema`). Any other keyword also makes `tool.func(**tool_args)` raise `TypeError`, and the model cannot pass one.
- Concurrency: every async handler is modelled as one atomic step. Interleavings of awaits, and websocket sends that fail part-way, are not modelled beyond the per-recipient delivery flag.
- Timestamps, uuids, `asyncio.sleep` delays, the retry back-off waits and Redis TTLs are not modelled. A timestamp or id is a parameter where the code stores one.
- Network and LLM calls are parameters:
  - ScrapeGraph `smartscraper`/`searchscraper` replies;
  - the HEAD request of `validate_url` (`scrapecraft-repo/backend/app/agents/tools.py`, the validate and preview endpoints of `scrapecraft-repo/backend/app/api/scraping.py`, and `validate_urls` in `scrapecraft-repo/backend/app/services/scraping_service_enhanced.py`);
  - every LLM completion and its JSON parsing.
- Exception messages (`str(e)`) are parameters. The `aiohttp.ClientError` retry is unreachable in `smart_scraper`, which converts every exception first, so the model retries only `APIError`.
- Python sets (merged common fields, missing fields) have unspecified order. Contracts state membership and absence of duplicates only; the model keeps first-appearance order.
- Lower-casing and stripping are ASCII-only; `urlparse` is simplified to scheme, netloc and path; regular-expression matches are parameters.
- Pydantic validation and coercion are not modelled. `HttpUrl` is a plain string, and schema values are type names, not Python type objects.
- The text of the code templates (`generate_code`, `_generate_smartscraper_code`, `_generate_simple_code`) is not modelled beyond the schema lines and the type mapping.
- Generic 500 handlers of the HTTP endpoints are not modelled; only the 404 and 400 paths are.
- `PatternLearner`: the domain cache with its expiry (`backend/app/services/pattern_learner.py:365-400`), loading and saving to Redis, and JSON parse failures are left out.
- `SessionRegistry`: `stream_scraping_progress`, `stream_suggestions`, `notify_pattern_detected`, `notify_optimization` and `get_pipeline_state` only format messages over `broadcast`, which is modelled, so they are left out. `cleanup` and `initialize` manage Redis connections and are left out too.
- `ConnectionManager`: `stream_execution_updates` formats messages over `broadcast` and is left out. The manager imports `app.services.workflow_manager`, which exists only in the other backend, so it is modelled against `WorkflowManager`.
- `LanggraphAgent`: the message lists, `analyze_request`, the LLM step of `define_schema`, `execute_pipeline` and `handle_error` are placeholders around LLM and API calls and are left out.
- `UnifiedAgent`: the handlers that only call the LLM or the repository (code generation, running, reuse, general questions, schema-field suggestions) are left out. A stored context whose fields have the wrong type raises in Python; the model types the fields.
- `OpenRouterAgent`: `process_message`, `_analyze_intent` and `_parse_actions` beyond its type table are LLM plumbing and left out. `Recent` with limit 0 returns the whole history, as Python's `[-0:]` does. Relevance entries are matched to URLs by substring, as the code does.
- `WorkflowManager`: an approval call with no approval id is not modelled. `WorkflowManagerV2`: the aliasing of the context lists that the agent mutates is not modelled.
- SessionRegistry.Connect: the confirmation and the join notice are delivered as the model's delivery records even when the new socket is down. In the code a failed `send_json` to the newcomer (`backend/app/services/enhanced_websocket.py:136-144`) raises and ends `connect`, which the model does not follow.
- ScrapeGraph.SchemaTypeError: only the fixed start of the `TypeError` text is modelled. Python appends " Got <repr of the value>." and the model has no `repr` of arbitrary JSON values, so ScrapeGraph.ExecutePipelineWithSchema records that start as the error of each URL.
- Tools.SchemaBlockRoundTrip: stated for names without a colon or a newline and type texts without a newline. Other names give lines that do not read back, and the code writes them as they are.
- EnhancedScraping.RunWithRetry, EnhancedScraping.WithRetry, EnhancedScraping.SmartScraper, EnhancedScraping.SmartScraperRetriesOnlyServerErrors, EnhancedScraping.RateLimitNotRetried, EnhancedScraping.Fallback, EnhancedScraping.ScrapeMultiple: these describe the decorator with its logging hook run only between attempts. As written the hook raises before the first attempt, which EnhancedScraping.SmartScraperAsWritten, EnhancedScraping.FallbackAsWrittenEmpty and EnhancedScraping.ScrapeMultipleAsWritten state (see Findings).
- ScrapingAgent.CallTools, ScrapingAgent.ProcessMessage: these run over the corrected tool reply. As written, an analysed `define_schema` call with a named field raises `TypeError` out of both (see Findings).
- SimpleAgent.ProcessMessage, SimpleAgent.AddUrlAppendsOnce: these run over the corrected URL extraction, which takes the URL after the phrase's position in the lower-cased message. As written, a message such as "Add URL x", whose phrase matches only after lower-casing, raises `IndexError` (`backend/app/agents/simple_agent.py:27-28`); SimpleAgent.ProcessMessageAsWritten states that case (see Findings).
- PatternLearner.LearnFromInteraction, PatternLearner.FifthInteractionFlushes: these run over the corrected batch grouping, which files each group under its own domain and data type. As written, the group key is split back on its first `:` (`backend/app/services/pattern_learner.py:419-425`), so a domain holding a port is misfiled; PatternLearner.AsWrittenMisfiles states that case (see Findings).
- UnifiedAgent.ApplyOptimizations: `context.model_copy()` (`backend/app/agents/unified_agent.py:971`) is a shallow copy, so the schema update and the `optimizations_applied` entry also change the dicts of the caller's context. The model returns a new context and leaves the caller's unchanged, so this aliasing is not modelled.
- In the simple agent's schema reply, Python's `repr` of the field names is modelled only for names without quotes or escapes. The replies are a `Reply` datatype, and `Render` gives their text.

## Findings

| source | as written | input that shows it | evidently intended | confidence | as-written member | corrected member |
|---|---|---|---|---|---|---|
| backend/app/services/enhanced_websocket.py:171-174 | `disconnect` cancels `draft_timers[user_id]`, but `_schedule_auto_save` stores timers under `"pipeline_id:user_id"` (lines 385-392) | user "a:b" leaving pipeline "x" while user "b" has a timer on pipeline "a": the foreign timer is cancelled, and the user's own timer survives | cancel the leaving user's own `"pipeline_id:user_id"` timer | not executed | SessionRegistry.DisconnectAsWritten, SessionRegistry.DraftTimerSurvivesDisconnect, SessionRegistry.BareKeyCancelsForeignTimer | SessionRegistry.Disconnect |
| backend/app/services/pattern_learner.py:419-425 | the group key `f"{domain}:{data_type}"` is split back on its first `:` | an interaction at "http://h:1/", whose domain "h:1" holds a port | file each group under its own domain and data type | not executed | PatternLearner.BatchUpdatesAsWritten, PatternLearner.AsWrittenMisfiles | PatternLearner.BatchUpdates |
| scrapecraft-repo/backend/app/agents/scraping_agent.py:124-129 | the tool reply is `json.dumps(result)`, and a successful `define_schema` result maps names to Python type objects (`scrapecraft-repo/backend/app/agents/tools.py:82-103`), which raises `TypeError` | a `define_schema` call with one field `{"name": "title"}` | serialise the schema with type names | not executed | ScrapingAgent.ApplyToolAsWritten, ScrapingAgent.DefineSchemaRaisesAsWritten | ScrapingAgent.ApplyTool |
| backend/app/agents/simple_agent.py:27-28 | "add url" is looked for in the lower-cased message but split out of the original one, so indexing `[1]` raises `IndexError` | the message "Add URL x" | take the URL after the phrase's position in the lower-cased message | not executed | SimpleAgent.UrlTextAsWritten, SimpleAgent.ProcessMessageAsWritten, SimpleAgent.CapitalisedAddUrlFails | SimpleAgent.UrlText |
| scrapecraft-repo/backend/app/services/scraping_service_enhanced.py:67-72 | the `before` hook at line 71 logs `retry_state.outcome.exception()`, but tenacity runs `before` ahead of every attempt, the first included, while `outcome` is still `None` | any call, such as `smart_scraper("https://example.com", "titles")`: `AttributeError: 'NoneType' object has no attribute 'exception'` is raised before the client is called, so `scrape_multiple` fails every URL and `_search_fallback` finds nothing | log the last failure between attempts (`before_sleep`) | not executed | EnhancedScraping.SmartScraperAsWritten, EnhancedScraping.ScrapeMultipleAsWritten, EnhancedScraping.FallbackAsWrittenEmpty | EnhancedScraping.SmartScraper |
