# NemoClaw control plane: a verified model

NemoClaw is a lab in which an agent watches a fleet, diagnoses an injected hardware fault, proposes a
remediation, and waits for a human to approve it. This project models the logic that carries the
system's promises and proves them with Dafny's verifier (`dafny verify dfyconfig.toml`).

Five parts are modelled, hardest first:

* **Approval and execution** (`McpTools`, `Approval`, `ApprovalSafety`, `ApprovalRuns`, `AssetHistory`,
  `StatusHistory`, `SimulatorHistory`). The Gateway store, the token store, the fault registry, the
  simulator's faults and any number of approvals and executors form one transition system. Coroutines are
  records with a program counter; one step goes from one await to the next, and a remote call may fail with
  or without having had its effect. The theorems are about every interleaving, mixed with agent writes,
  resets of either store and other uses of the simulator.
* **The replicated dashboard** (`GatewayState`, `GatewayStores`, `GatewayRouter`, `EventBroker`,
  `SectionEffects`, `Replica`, `Dashboard`, `DashboardRuns`). Each handler section of the Gateway is a
  value-level operation (`GatewayState.Run`), and the imperative store, broker and handlers are proved to do
  exactly that operation and to publish exactly its events. Dashboards read, install, subscribe and fold
  events in any order; the theorems say when they end up equal to the Gateway.
* **Orchestrator and simulator** (`Packs`, `KbIndex`, `Simulator`, `Orchestrator`, `OrchestratorRuns`). Two
  records of what is faulted, kept in step over a network that loses requests and answers, while
  remediation clears the simulator between any two awaits of a request.
* **Log evidence and labels** (`Text`, `LogEvidence`, `StepLabels`, `RunbookProse`). Leftmost scan,
  cluster window, runbook sentences.
* **The plugin harness** (`Harness`, `HarnessSafety`, `HarnessHistory`), with the two monitoring
  adapters (`Adapters`) and the operator console (`Console`) beside it.

Where the code works by changing things step by step, the model is a class or a method with a loop,
proved against a specification function; the theorems are lemmas about those functions. Ids, tokens,
timestamps, random choices, "today" and the outcome of every remote call are parameters.

Where the code and its own words differ, the model follows the code:

* An approval whose allowlist could not be fetched is given no steps, and an empty step list passes the
  allowlist check (`services/mcp_tools/tools/remediation.py:154`), although the comment at
  `services/gateway/router.py:680` says step validation will fail. `McpTools.CheckPasses` is the exact
  condition, `ApprovalRuns.EmptyAllowlistStillClears` a run that reaches the clear; the safety theorems
  hold for this behaviour.
* The activity feed is not idempotent under replay although faults and assets are:
  `Replica.ActivityReplay` and `Dashboard.DashboardConverges` give the exact condition,
  `DashboardRuns.LineShownTwice` is a run that shows a line twice.
* A dashboard that reads its snapshot before it subscribes can stay wrong in faults, assets and feed, and
  on first load both start at once with no refetch (`ui/src/hooks/useSSE.ts:27-33`):
  `Dashboard.LateSubscription` gives the exact condition for each of the three,
  `DashboardRuns.LateDashboardStaysWrong` is a run that ends wrong in all of them.
* Any answer to a fault lookup that is not OK counts as "the fault is gone"
  (`openclaw/plugins/nemoclaw-infra-tools/src/harness.ts:76`), in the log fetch and on every wake-up alike;
  and a registration whose answer is lost leaves a fault nobody tracks (lines 142-150). Over all runs,
  whatever lookups answer, `HarnessSafety.OnlyTrackedExactly` says when at most the tracked fault is open;
  `HarnessSafety.ServerErrorReadAsMissing`, `HarnessSafety.ServerErrorOnWakeUp` and
  `HarnessSafety.LostCreationOpensTwo` are the three ways to two open faults.
* A resolve never reaches an asset whose id is empty (`services/gateway/router.py:595`):
  `AssetHistory.EmptyIdStaysFaulted` shows it, and `AssetHistory.AssetIsItsHistory` is about named assets.
* An inject that takes effect while its answer is lost leaves the orchestrator ignorant of a fault:
  `Orchestrator.LostInjectAnswerBreaksIt` shows two faulted assets, and over all runs
  `OrchestratorRuns.OneFaultExactly` says that giving up on an inject while its target is faulted is the
  only way. `Orchestrator.RequestKeepsOneExactly` is the same for one request that nothing interrupts.
* The two adapters differ on an active fault without log entries, on asset ids that are not one path
  segment, and on ids that a URL does not carry as they are: `Adapters.EventListsAgree` and
  `Adapters.AssetListsAgree` are equivalences.

## Model

| member | source | states |
|---|---|---|
| ApprovalSafety.EveryClearWasApproved | services/gateway/router.py:650-731 | in every run each clear attempt is charged to an earlier approval of a fault of that asset, and no two attempts to the same approval |
| ApprovalSafety.AttemptsWithinApprovals | services/mcp_tools/tools/remediation.py:127-167 | clear attempts never outnumber approvals |
| ApprovalSafety.ResolvedOnlyAfterClear | services/gateway/executor.py:185-204 | an executor writes "resolved" only after the simulator confirmed clearing that fault's asset, and its token is then spent wherever it is still stored |
| ApprovalSafety.RefusedClearLeavesToken | services/mcp_tools/tools/remediation.py:158-167 | unless the call settled on a confirmed clear, the executor's token is unspent while stored and it never wrote "resolved" |
| ApprovalSafety.ExecutorWrites | services/gateway/executor.py:161-215 | an executor's moves leave faults and assets alone but for its two status writes |
| ApprovalSafety.SpentForever | services/mcp_tools/token_store.py:57-60 | a spent token never reads as unspent again, across resets and any further steps |
| ApprovalSafety.RunIsSafe | services/gateway/router.py:638-737 | every run keeps the joint invariant: ids agree, tokens are owned, spending is right, the trace is right |
| ApprovalSafety.NextKeepsIds | services/gateway/executor.py:84-111 | every step keeps a fault id naming one asset in store, registry, approvals and executors |
| ApprovalSafety.NextKeepsTokens | services/mcp_tools/token_store.py:28-44 | every step keeps each token owned by one approval and each executor with a token of its own |
| ApprovalSafety.NextKeepsSpent | services/mcp_tools/tools/remediation.py:144-167 | every step keeps a stored token spent exactly when its executor's call settled on a confirmed clear |
| ApprovalSafety.NextKeepsTrace | services/gateway/executor.py:150-204 | every step keeps the record truthful: attempts once per executor and after their approval, confirmations after attempts |
| SimulatorHistory.ConfirmedMeansCleared | services/mcp_tools/tools/remediation.py:162-167 | right after a step that records a confirmed clear, the simulator has that very asset healthy |
| SimulatorHistory.SimulatorChangesOnlySo | services/simulator/engine.py:73-105 | a simulator entry changes only at a use of that asset, to its scenario, or at a clear that takes effect on it, to healthy |
| SimulatorHistory.SimulatorIsItsHistory | services/simulator/engine.py:73-105 | in every run each simulator entry is what was last put on that asset |
| SimulatorHistory.ClearStaysUntilUsed | services/mcp_tools/tools/remediation.py:162-167 | a cleared asset stays healthy in the simulator over any run that does not use it again |
| StatusHistory.StatusIsItsHistory | services/gateway/router.py:529-665 | in every run a fault has a status exactly when the last thing written about it since the last reset is that status: detected at creation, denied at a denial, else what a patch or executor wrote |
| StatusHistory.LastWordMeans | services/gateway/store.py:85-96 | the last word read off the trace is the entry after which nothing more is said of the fault, both ways |
| StatusHistory.StatusChangesOnlySo | services/gateway/executor.py:124-204 | a status becomes resolved only by a patch saying so or an executor's last write, denied only by a denial or a patch saying so; no other step touches it |
| McpTools.CheckPasses | services/mcp_tools/tools/remediation.py:127-156 | the checks pass if and only if the token is stored, bound, approved and unspent, the fault is registered and no step is outside the allowlist; the asset cleared is the registered one |
| ApprovalRuns.EmptyAllowlistStillClears | services/gateway/router.py:679-682 | from any well-formed state with a fault, an approval whose allowlist could not be fetched leads to a clear attempt on its asset |
| ApprovalRuns.ApprovalCompletes | services/gateway/executor.py:150-204 | from any state with a fault on an asset the simulator knows, with a fresh token and every call answered, the approval ends with the simulator healthy, the fault resolved, the asset healthy and unlinked, and the token spent |
| McpTools.RefusalsSay | services/mcp_tools/tools/remediation.py:127-156 | each refusal if and only if its own condition: an unknown or foreign token is invalid even if spent, a spent approval reads as consumed whatever the registry holds, steps are looked at last |
| McpTools.DisallowedMembers | services/mcp_tools/tools/remediation.py:154 | the reported invalid steps are exactly the requested ones outside the allowlist |
| McpTools.BeginExecute | services/mcp_tools/tools/remediation.py:127-162 | the guarded sequence up to the clear call agrees with the check specification, errors included |
| McpTools.FinishExecute | services/mcp_tools/tools/remediation.py:163-174 | a refused clear changes nothing; a confirmed one spends exactly this token |
| McpTools.ApprovalTokenStore.Mint | services/mcp_tools/token_store.py:28-44 | stores an unspent token bound to the fault under the drawn string |
| McpTools.ApprovalTokenStore.Get | services/mcp_tools/token_store.py:54-55 | answers exactly the stored token |
| McpTools.ApprovalTokenStore.Consume | services/mcp_tools/token_store.py:57-60 | marks a stored token consumed, no-op otherwise |
| McpTools.ApprovalTokenStore.Clear | services/mcp_tools/token_store.py:66-67 | forgets every token |
| McpTools.FaultEventRegistry.Register | services/mcp_tools/fault_registry.py:25-39 | the latest registration of a fault replaces the former |
| McpTools.FaultEventRegistry.Get | services/mcp_tools/fault_registry.py:41-42 | answers exactly the registered record |
| McpTools.FaultEventRegistry.Clear | services/mcp_tools/fault_registry.py:44-45 | forgets every record |
| AssetHistory.AssetIsItsHistory | services/gateway/router.py:550-614 | in every run a named asset is faulted exactly when linked, links a fault exactly when that was its newest creation with no resolve or reset since, and the linked fault exists and is its own |
| AssetHistory.LinkMeans | services/gateway/router.py:550-560 | the link computed from the trace is the one that history describes, both ways |
| AssetHistory.SectionTold | services/gateway/executor.py:124-148 | every Gateway section keeps the asset record equal to what its history says |
| AssetHistory.EmptyIdStaysFaulted | services/gateway/router.py:593-597 | an asset with the empty id stays faulted after its fault is resolved |
| GatewayState.RunKeepsStore | services/gateway/store.py:67-187 | every section keeps the store well formed and the fleet's ids, kinds and order unchanged |
| SectionEffects.OtherFaultsStay | services/gateway/store.py:80-109 | short of a reset a section leaves every other fault as it was, and no fault goes |
| SectionEffects.StatusWritesKeepTheRest | services/gateway/store.py:85-96 | a status write changes nothing of the fault but its status |
| SectionEffects.DiagnosisIsPartial | services/gateway/router.py:620-635 | a diagnosis patch writes the fields it carries and keeps all others |
| SectionEffects.RegistrationKeepsTheReport | services/gateway/router.py:529-581 | a registration stores what was reported, with defaults only where nothing was, and announces fault, notification and asset in that order |
| SectionEffects.DecisionsAnnounced | services/gateway/router.py:650-719 | a denial leaves "denied" and no token and publishes itself as a denial; an approval leaves its token and publishes itself as one |
| SectionEffects.ResetLeavesTheFleet | services/gateway/store.py:174-187 | a reset leaves nothing but the fleet, in its order, healthy and unlinked |
| GatewayStores.GatewayStore.constructor | services/gateway/store.py:67-76 | starts empty |
| GatewayStores.GatewayStore.CreateFaultEvent | services/gateway/store.py:80-83 | stores the fault under its id |
| GatewayStores.GatewayStore.UpdateFaultStatus | services/gateway/store.py:85-96 | changes only the status of a known fault, answers nothing for an unknown one |
| GatewayStores.GatewayStore.UpdateFaultFields | services/gateway/store.py:98-109 | overlays the fields present in the patch on a known fault |
| GatewayStores.GatewayStore.SetAsset | services/gateway/store.py:131-132 | replaces the record and keeps a known asset's place in the order |
| GatewayStores.GatewayStore.CreateNotification | services/gateway/store.py:136-139 | stores the notification under its id |
| GatewayStores.GatewayStore.CreateActivity | services/gateway/store.py:156-159 | appends to the feed |
| GatewayStores.GatewayStore.SetPendingToken | services/gateway/store.py:166-167 | remembers the token of a fault |
| GatewayStores.GatewayStore.HealAssets | services/gateway/store.py:180-186 | the loop heals and unlinks every asset, keeping id and kind |
| GatewayStores.GatewayStore.Reset | services/gateway/store.py:174-187 | wipes everything but the assets, heals them, and publishes one reset event |
| GatewayRouter.Publish | services/gateway/store.py:52-57 | publishing appends one event and leaves the store alone |
| GatewayRouter.MarkFaulted | services/gateway/router.py:550-560 | a known asset becomes faulted and linked to the new fault |
| GatewayRouter.CreateFault | services/gateway/router.py:529-581 | runs the create section: fault, asset, notification, then three events in order |
| GatewayRouter.AnnounceFault | services/gateway/router.py:569-579 | the three events go out in order |
| GatewayRouter.UpdateFaultStatus | services/gateway/router.py:584-617 | runs the status section, 404 on an unknown fault |
| GatewayRouter.HealIfResolved | services/gateway/router.py:592-614 | only "resolved" on a named, known asset heals it and publishes that |
| GatewayRouter.UpdateFaultDiagnosis | services/gateway/router.py:620-635 | runs the partial diagnosis update, 404 on an unknown fault |
| GatewayRouter.DenyFault | services/gateway/router.py:650-665 | runs the denial: "denied" stored, fault event, decision event; the asset is not touched (what that section means is `SectionEffects.DecisionsAnnounced`) |
| GatewayRouter.GrantApproval | services/gateway/router.py:710-719 | runs the last section of an approval: pending token, decision event |
| GatewayRouter.PostActivity | services/gateway/executor.py:113-122 | appends one narration line and publishes it |
| GatewayRouter.SetStatus | services/gateway/executor.py:124-148 | runs the executor's status write with the asset it was started with; no-op on a removed fault |
| GatewayRouter.AnnounceFleet | services/gateway/router.py:934-943 | publishes one healthy event per asset, in store order |
| GatewayRouter.PresenterReset | services/gateway/router.py:916-945 | runs the Gateway part of a presenter reset |
| EventBroker.Queue.PutNowait | services/gateway/store.py:55-57 | appends one payload to one queue |
| EventBroker.Queue.Get | services/gateway/router.py:798-811 | takes the oldest queued payload |
| EventBroker.SSEBroker.constructor | services/gateway/store.py:40-41 | starts with no subscriber |
| EventBroker.SSEBroker.Subscribe | services/gateway/store.py:43-46 | the new queue is owed everything published from now on |
| EventBroker.SSEBroker.Unsubscribe | services/gateway/store.py:48-50 | drops one queue, leaves what the others are owed; unknown queues are ignored |
| EventBroker.SSEBroker.Publish | services/gateway/store.py:52-57 | every live queue gets the payload once, at its end |
| EventBroker.SSEBroker.Take | services/gateway/router.py:798-811 | taking from one queue leaves every history as it was |
| EventBroker.SSEBroker.QueueIsLogTail | services/gateway/store.py:52-57 | what waits in a live queue is exactly the log from where its subscriber has got to, and what it consumed is the log up to there |
| EventBroker.SSEBroker.LaterHistoryIsSuffix | services/gateway/store.py:37-61 | of two live subscribers the later one's consumed plus queued payloads are a suffix of the earlier one's |
| Replica.HandleSSEAsMaps | ui/src/App.tsx:87-123 | one event on the dashboard's lists is three independent updates on maps by id |
| Replica.HandleSSEKeepsOrder | ui/src/App.tsx:87-116 | position by position: a known fault is replaced where it stands, a new one goes first; assets are merged in place, keeping their kind, through a reset too; activity goes last |
| Replica.NewestFirst | ui/src/App.tsx:92-98 | over any events without a reset, faults heard of later stand before those known earlier, which keep their order, and no fault is listed twice |
| Replica.FoldAsMaps | ui/src/App.tsx:87-123 | so is a whole fold |
| Replica.FaultDecided | ui/src/App.tsx:92-98 | what a fold leaves for a fault depends on the start only if no event touches it |
| Replica.FaultReplay | ui/src/App.tsx:92-121 | replaying events already reflected changes no fault, resets included |
| Replica.AssetReplay | ui/src/App.tsx:88-91 | nor any asset |
| Replica.ActivityReplay | ui/src/App.tsx:112-116 | a replay leaves the feed alone if and only if it holds a reset or no activity |
| Replica.RunFollows | services/gateway/router.py:529-635 | every Gateway section publishes exactly the deltas that take faults, assets and activity from the old state to the new |
| Replica.ResetFollows | services/gateway/router.py:916-945 | a reset event and the per-asset events together restore agreement |
| Dashboard.DashboardConverges | ui/src/App.tsx:64-123 | in every run a drained dashboard whose lists were read no earlier than the first event applied on top equals the Gateway on faults and assets, and on activity if and only if no stale activity was replayed or a reset was applied |
| Dashboard.SnapshotAtSubscribe | ui/src/App.tsx:64-123 | with a snapshot read at subscription all three agree at every boundary |
| Dashboard.LateSubscription | ui/src/App.tsx:83-125 | with lists read before subscribing, faults and assets agree if and only if every id changed in between is touched later, the feed if and only if it did not change or a reset follows |
| DashboardRuns.LateDashboardStaysWrong | ui/src/hooks/useSSE.ts:24-33 | a run in which all three lists, read before the subscription, stay different from the Gateway's with the queue drained |
| DashboardRuns.LineShownTwice | ui/src/App.tsx:64-113 | a run in which a line posted after the subscription and before the read is shown twice |
| Dashboard.DeskRunRight | services/gateway/store.py:174-187 | every run keeps each view equal to its base lists plus the events taken since |
| LogEvidence.StampByPosition | services/orchestrator/router.py:99-105 | the leftmost scan equals a position-by-position reading: same length, date positions become today's, all others stay |
| LogEvidence.StampKeepsDates | services/orchestrator/router.py:99-105 | stamping leaves dates exactly where they were |
| LogEvidence.LastStampWins | services/orchestrator/router.py:99-105 | stamping with d1 then d2 is stamping with d2 |
| LogEvidence.DatesDoNotOverlap | services/orchestrator/router.py:99 | two dates followed by T never overlap |
| LogEvidence.DateIsSpelled | services/orchestrator/router.py:99 | a date is four digits, two and two, with hyphens between and a T behind |
| LogEvidence.HighlightIsFirstCluster | services/orchestrator/router.py:129-147 | when some evidence line literally holds a signature, the highlight is a contiguous slice of the evidence lines around exactly the first cluster of such lines, at most two context lines each side, at most 6m-1 lines for m of them |
| LogEvidence.HighlightWithoutMatch | services/orchestrator/router.py:129-137 | when no evidence line holds a signature the highlight is the first five evidence lines, without evidence there is none |
| LogEvidence.FirstHolderIsShown | services/orchestrator/router.py:129-147 | the first evidence line that holds some signature is in the highlight, after at most two lines |
| LogEvidence.MatchMeans | services/orchestrator/router.py:133 | a line matches if and only if it is something, one of the signatures, and something |
| LogEvidence.EvidenceMeans | services/orchestrator/router.py:129 | a line is evidence if and only if its first character that is not white space is there and is not "#" |
| LogEvidence.ClusterShape | services/orchestrator/router.py:139-143 | the cluster ends at a match, inner gaps are at most six, the next match is more than six away |
| LogEvidence.ClusterSpan | services/orchestrator/router.py:139-143 | a cluster of m matches spans at most 6(m-1) lines after its first |
| LogEvidence.BoundsOfWindow | services/orchestrator/router.py:139-146 | the window of a window is all of it, match or no match |
| LogEvidence.HighlightOfHighlight | services/orchestrator/router.py:112-147 | extracting a highlight from a highlight returns it unchanged, for every text and signature list |
| LogEvidence.EvidenceLines | services/orchestrator/router.py:129 | keeps exactly the non-blank, non-comment lines in order |
| LogEvidence.MatchIndices | services/orchestrator/router.py:133 | lists the lines that literally hold some signature: each is the next such line after the one before |
| LogEvidence.LastOfCluster | services/orchestrator/router.py:139-143 | the loop with its break finds the cluster's end |
| LogEvidence.WindowBounds | services/orchestrator/router.py:134-146 | the clamped slice bounds, fallback included |
| LogEvidence.ExtractHighlight | services/orchestrator/router.py:112-147 | the whole extraction agrees with its specification |
| Text.SplitOfJoin | services/orchestrator/router.py:147 | joined lines split back into themselves if none is empty or holds a break |
| Text.StripIs | services/gateway/router.py:465 | stripping leaves what stands between the white space at both ends |
| Text.ContainsMeans | services/orchestrator/router.py:133 | the substring test asks for a contiguous piece, both ways |
| OrchestratorRuns.OneFaultExactly | services/orchestrator/router.py:163-228 | over every run of one-at-a-time requests, with remediation clears between any two awaits and any calls failing: at most one asset is faulted at every point and scenarios agree at every request boundary, if and only if no inject is given up on while its target is faulted |
| OrchestratorRuns.AtMostOneFault | services/orchestrator/router.py:163-228 | such a run keeps the two records in step at every point, and the engine never turns down an unknown id |
| OrchestratorRuns.StepKeepsStep | services/orchestrator/router.py:170-178 | every step of a request or of remediation keeps them in step, unless it loses a fault |
| OrchestratorRuns.LosingBreaksStep | services/orchestrator/router.py:177-178 | giving up on an inject while its target is faulted leaves a request boundary that disagrees |
| OrchestratorRuns.HandleIsAlone | services/orchestrator/router.py:187-228 | the handlers' specification is the run of one request that nothing interrupts |
| Orchestrator.RequestKeepsOneExactly | services/orchestrator/router.py:187-228 | an uninterrupted request keeps the two records in step if and only if it does not lose the answer of an inject that took effect |
| Orchestrator.RequestLeaves | services/orchestrator/router.py:187-228 | the rotation remembers the chosen or forced scenario even when a call fails and forgets it only by a reset whose every call came back; when all came back exactly the requested scenario is on, its own fault on its target alone, after a reset nothing |
| Orchestrator.ClearingKeepsOne | services/orchestrator/router.py:170-174 | the clearing loop keeps them in step wherever it stops, and if it finishes nothing is active |
| Orchestrator.ClearingFinishes | services/orchestrator/router.py:170-174 | from records in step the clearing loop finishes if and only if the clear of the one active asset, if any, is answered |
| Orchestrator.InjectKeepsOneExactly | services/orchestrator/router.py:170-178 | an injecting request keeps them in step if and only if it is not the case that the clear of the one active asset was answered and only the inject's answer was lost |
| Orchestrator.LostInjectAnswerBreaksIt | services/orchestrator/router.py:176-178 | if only the answer of an inject is lost, the next scenario leaves two assets faulted |
| Orchestrator.OthersAre | services/orchestrator/rotation.py:44 | the fresh candidates are the ids other than the last |
| Orchestrator.CandidatesAre | services/orchestrator/rotation.py:44-48 | any id but the last may come next, the last one if and only if there is no other |
| Orchestrator.RotationPolicy.Next | services/orchestrator/rotation.py:42-50 | never repeats the last scenario unless there is no other |
| Orchestrator.RotationPolicy.Force | services/orchestrator/rotation.py:52-63 | a known id becomes the last, an unknown one is refused and changes nothing |
| Orchestrator.RotationPolicy.Reset | services/orchestrator/rotation.py:65-67 | forgets the last |
| Orchestrator.OrchestratorService.ClearAll | services/orchestrator/router.py:170-174 | the loop agrees with the clearing specification, whatever call fails |
| Orchestrator.OrchestratorService.Inject | services/orchestrator/router.py:163-179 | clear, inject, remember, exactly as specified, whatever call fails |
| Orchestrator.OrchestratorService.RunNextScenario | services/orchestrator/router.py:187-196 | handles the request, injects a rotation candidate, and keeps the two records in step if and only if it loses no inject's answer |
| Orchestrator.OrchestratorService.RunSpecificScenario | services/orchestrator/router.py:199-212 | handles the request, 404 on an unknown id without effect; keeps the two records in step if and only if it loses no inject's answer |
| Orchestrator.OrchestratorService.ResetAll | services/orchestrator/router.py:215-228 | clears, resets the rotation only if every clear came back, and keeps the two records in step |
| Simulator.SimulatorEngine.constructor | services/simulator/engine.py:37-43 | every pack asset starts healthy |
| Simulator.SimulatorEngine.GetFault | services/simulator/engine.py:59-60 | the stored fault, exactly for a known, faulted asset |
| Simulator.SimulatorEngine.Inject | services/simulator/engine.py:73-95 | unknown asset before unknown scenario, else the scenario's fault on that asset only |
| Simulator.SimulatorEngine.Clear | services/simulator/engine.py:97-105 | unknown asset refused, else exactly that asset healthy |
| Packs.LoadPack | libs/common/pack_loader.py:37-138 | accepts exactly the complete directories, with their own simulator profile, whose scenarios refer to known things only; names the first error otherwise; what it accepts is closed |
| Packs.OnlyClosedPasses | libs/common/pack_loader.py:76-138 | loading is not rejected if and only if nothing is missing, the profile is the pack's, there are scenarios, and each one's pack, target, article and bundle are known |
| Packs.RejectionHolds | libs/common/pack_loader.py:76-138 | the error that loading stops at is true of the directory: that part is missing, that profile is another's, a scenario of that id has that defect |
| Packs.BuildSignatureIndex | libs/common/pack_loader.py:226-238 | every listed signature maps to the article of the last scenario that lists it, and no other signature is in the index |
| Packs.AddSignatures | libs/common/pack_loader.py:236-237 | one scenario's signatures now point to its article, the others are kept |
| Packs.ByIdRight | libs/common/pack_loader.py:67 | the id index holds exactly the scenarios' ids, each to a scenario of that id |
| Packs.ArticlesAre | libs/common/pack_loader.py:138-174 | there is an article for exactly the files' stems, with the title and body of the last file that has it |
| Packs.StemOfMarkdown | libs/common/pack_loader.py:146-174 | a Markdown file's stem is its name without ".md", dots inside included |
| KbIndex.SearchAlwaysAnswers | services/mcp_tools/kb_index.py:52-88 | on an accepted pack a search for a listed signature always finds one of that pack's articles; without a confident hit it is, at full score, that of the last scenario listing it, whatever the fallback |
| KbIndex.ConfidentHitWins | services/mcp_tools/kb_index.py:64-68 | a confident semantic hit is answered with its own article and score, whatever the signature |
| KbIndex.UnlistedFallsBack | services/mcp_tools/kb_index.py:70-88 | without one, a signature no scenario lists is answered if and only if the fallback names an article, and then with that article |
| KbIndex.SomeLastLister | libs/common/pack_loader.py:234-237 | a listed signature has a last lister |
| Harness.Plugin.ClearStaleInvestigation | openclaw/plugins/nemoclaw-infra-tools/src/harness.ts:96-100 | lets go of a fault seen resolved, denied or not found, keeps it when the Gateway is unreachable |
| Harness.Plugin.RegisterFaultFromLogs | openclaw/plugins/nemoclaw-infra-tools/src/harness.ts:115-189 | registers only without a current fault, narrates once, stamps fault id and stage |
| Harness.Plugin.RecordSignature | openclaw/plugins/nemoclaw-infra-tools/src/harness.ts:199-215 | one signature patch per investigation until one is answered; only an answered one counts as recorded |
| Harness.Plugin.RecordKbResult | openclaw/plugins/nemoclaw-infra-tools/src/harness.ts:224-257 | records the outcome once, with the signature only as a fallback |
| Harness.Plugin.Execute | openclaw/plugins/nemoclaw-infra-tools/src/index.ts:85-242 | each of the seven tool handlers, with the fault id pinned to the current investigation |
| HarnessSafety.OneFaultAtATime | openclaw/plugins/nemoclaw-infra-tools/src/harness.ts:96-189 | over every sequence of calls a fault is registered only when none is current, dropped only on seeing it over, every write names the current fault, and the stage told to the model is the one the entries before it show |
| HarnessSafety.IdempotentPerInvestigation | openclaw/plugins/nemoclaw-infra-tools/src/harness.ts:173-273 | per fault at most one answered patch carries the signature, one outcome is recorded, one proposal succeeds, and reported stages never go back |
| HarnessHistory.FlagsOverRuns | openclaw/plugins/nemoclaw-infra-tools/src/harness.ts:197-265 | over every run the flags are what the log shows: diagnosed if and only if an outcome was recorded, proposed if and only if a proposal succeeded, a recorded signature in an acknowledged patch, and exactly so until the diagnosis |
| HarnessHistory.DiagnosisReaches | openclaw/plugins/nemoclaw-infra-tools/src/harness.ts:197-257 | over every run an outcome with an article is patched with it at once, and when the search had a signature an acknowledged patch carried one before or that patch carries this one |
| HarnessHistory.DiagnosedBySearch | openclaw/plugins/nemoclaw-infra-tools/src/harness.ts:224-257 | a fault becomes diagnosed only by a search, which records its own signature and the article it found |
| HarnessHistory.CallsFollowTheLog | openclaw/plugins/nemoclaw-infra-tools/src/index.ts:85-242 | what every tool call sends and answers is what its history alone decides, without any flag |
| HarnessHistory.RunFollowsTheLog | openclaw/plugins/nemoclaw-infra-tools/src/index.ts:85-242 | a whole run of the plugin is a run of a harness that keeps no state but reads its history |
| HarnessSafety.OnlyTrackedExactly | openclaw/plugins/nemoclaw-infra-tools/src/harness.ts:73-189 | over every run, whatever lookups answer: of the faults it created only the tracked one is open at every point, if and only if every fault let go of was over at that moment and every creation that took effect was answered |
| HarnessSafety.AtMostOneOpen | openclaw/plugins/nemoclaw-infra-tools/src/harness.ts:73-189 | in such a run at most one fault it created, heard of or not, is open |
| HarnessSafety.StepRightExactly | openclaw/plugins/nemoclaw-infra-tools/src/index.ts:85-128 | the same equivalence for each single step, both tools that look up included |
| HarnessSafety.CallSound | openclaw/plugins/nemoclaw-infra-tools/src/index.ts:145-242 | every tool call keeps the flags in exact agreement with what was sent and acknowledged |
| HarnessSafety.LettingGoIsRight | openclaw/plugins/nemoclaw-infra-tools/src/harness.ts:96-125 | letting go of a fault, on a wake-up or in the log fetch, keeps only the tracked fault open if and only if that fault is over |
| HarnessSafety.TruthfulIsRight | openclaw/plugins/nemoclaw-infra-tools/src/harness.ts:73-82 | after a truthful lookup nothing open is let go of, and an answered one keeps the fault if and only if it is open |
| HarnessSafety.ServerErrorReadAsMissing | openclaw/plugins/nemoclaw-infra-tools/src/harness.ts:76 | an error answer on an open fault in the log fetch leads to a second open fault |
| HarnessSafety.ServerErrorOnWakeUp | openclaw/plugins/nemoclaw-infra-tools/src/harness.ts:96-100 | so does one on a wake-up, at the next log fetch |
| HarnessSafety.LostCreationOpensTwo | openclaw/plugins/nemoclaw-infra-tools/src/harness.ts:142-150 | so does a registration whose answer is lost |
| StepLabels.LabelsExtendSteps | services/gateway/router.py:485-510 | labels match the steps one for one and in order, each begins with its step's label and is at most 164 characters longer |
| StepLabels.LabelsShowDetails | services/gateway/router.py:485-510 | a label is its step's own text if and only if the article is missing or no line of the step's section gives a detail; otherwise it is the text, a dash and that detail, with one full stop unless the detail was cut |
| RunbookProse.LineGivesItsSentence | services/gateway/router.py:465-481 | a line that says one sentence, bulleted or not, closed or followed by more, gives exactly that sentence, or its cut |
| RunbookProse.HeadingMeans | services/gateway/router.py:453-460 | a step's heading is white space, three hashes, and its id in backticks and brackets |
| RunbookProse.BareLinesPass | services/gateway/router.py:464-474 | blank lines and bare bullets are passed over |
| RunbookProse.BlocksStop | services/gateway/router.py:468-470 | a later heading, fence, table or quote line ends the search |
| RunbookProse.ThenIsDropped | services/gateway/router.py:475-476 | a sentence that led into a code block loses "then" and the marks before it |
| RunbookProse.ArticleIdMeans | services/gateway/router.py:497 | the article id is the file name without ".md", wherever the file is |
| StepLabels.DetailComesFromItsSection | services/gateway/router.py:452-482 | a step has a detail if and only if a line below the first heading with its id gives it, with only blank or bare lines between |
| StepLabels.DetailQuotesItsLine | services/gateway/router.py:465-481 | a detail is non-empty, at most 160 characters, and a contiguous quote of its line but for a final ellipsis |
| StepLabels.DetailIsOneSentence | services/gateway/router.py:472-480 | a detail holds no full stop followed by a space, and is the whole sentence or ends in an ellipsis |
| StepLabels.ClipMarksTheCut | services/gateway/router.py:479-480 | a sentence of up to 160 characters stays whole; a longer one keeps its first 159 but for dangling punctuation at their end, and ends in an ellipsis |
| StepLabels.HeadingIsFirst | services/gateway/router.py:453-460 | the heading found is the first that carries the step id |
| StepLabels.FirstDetail | services/gateway/router.py:463-482 | the loop over the section agrees with its specification |
| StepLabels.FindStepDetail | services/gateway/router.py:443-482 | heading search and loop together |
| StepLabels.LabelExtends | services/gateway/router.py:503-509 | one label begins with its step's own and is at most 164 characters longer |
| StepLabels.LabelSteps | services/gateway/router.py:502-510 | one label per step, in order, each showing its step's detail |
| StepLabels.ScenarioLabels | services/gateway/router.py:485-510 | no labels for an unknown scenario, plain labels without an article |
| Adapters.PathRoundTrip | services/mcp_tools/adapters/redfish.py:34-35 | an asset id survives the path print and parse if and only if it is one non-empty segment |
| Adapters.AssetListsAgree | services/mcp_tools/adapters/redfish.py:27-47 | both adapters list the same assets if and only if every asset id is one segment and its URL reaches its system (an id holding "?", "#", "%" or a control character, or a dot segment, does not) or something that answers just like it |
| Adapters.PlainIdsAgree | services/mcp_tools/adapters/redfish.py:34-36 | plain ids always agree; an empty id or one with a slash never does |
| Adapters.FleetIsShown | services/mcp_tools/adapters/redfish.py:27-47 | each asset is shown under its own id and kind, "faulted" if and only if it carries a fault: by the generic surface always, by the Redfish adapter when all ids are plain |
| Adapters.EventListsAgree | services/simulator/surfaces/redfish.py:247-280 | both adapters report the same events if and only if every active fault has a log entry |
| Adapters.EventsShowFaults | services/simulator/surfaces/generic.py:41-62 | the events are exactly those that show a fault of a listed asset with its own severity, message id, time and first log message |
| Adapters.InjectionIsSeen | services/simulator/engine.py:73-95 | an injected scenario is seen by both adapters with its own severity, message id and first log message |
| Adapters.ListRedfishAssets | services/mcp_tools/adapters/redfish.py:32-47 | the fetch loop, giving up at the first error |
| Adapters.ListRedfishMembers | services/simulator/surfaces/redfish.py:248-253 | one event member per faulted asset, in order |
| Adapters.RedfishAdapterEvents | services/mcp_tools/adapters/redfish.py:69-82 | the nested loop reads every alert of every member |
| Adapters.ListGenericEvents | services/simulator/surfaces/generic.py:41-62 | one event per faulted asset, with a fallback message |
| Console.BlankStubIsValid | services/terminal/console.py:325-341 | for every skill name the blank stub passes frontmatter validation |
| Console.ValidationMeans | services/terminal/console.py:237-257 | a skill's text is accepted if and only if its first line is a fence, a later line closes it and a line between names the skill; each error if and only if its own step fails first |
| Console.BlankIs | services/terminal/console.py:325-341 | a blank file is empty, a blank skill is nothing but frontmatter with its own name |
| Console.UploadLandsAtPath | services/terminal/console.py:165-176 | an upload lands at the sandbox path if and only if that is a path and the last components agree |
| Console.SkillLandsAtPath | services/terminal/console.py:60-87 | a skill target of the menu's shape lands where the check looks |
| Console.EntriesFit | services/terminal/console.py:45-88 | any menu of differently named files and skills has every push land where the check looks, no two in one place |
| Console.MenuFits | services/terminal/console.py:45-88 | the console's own six targets do |
| Console.ResetThenCheck | services/terminal/console.py:383-423 | after a reset a target is configured if and only if its push failed and it was configured before |
| Console.FullResetUnconfigures | services/terminal/console.py:426-468 | a reset whose pushes all succeed makes the check report every target, each unconfigured |
| Console.ReportSays | services/terminal/console.py:426-468 | a target is reported configured if and only if it could be downloaded and holds something other than nothing or its blank |
| Console.OperatorConsole.PushBlank | services/terminal/console.py:400-409 | blanks one scratch file and pushes it |
| Console.OperatorConsole.RunReset | services/terminal/console.py:383-423 | the loop over targets, true if and only if every push succeeded |
| Console.OperatorConsole.CheckConfigured | services/terminal/console.py:426-468 | the loop fills the report by menu key |

## Left out

- HTTP, server-sent events, WebSocket, PTY and subprocess transport: a remote call is one step that may fail.
- `services/gateway/redis_store.py`: its read-modify-write updates are not atomic and it has no reset, so the section argument does not carry over.
- The calls a presenter reset makes to the Orchestrator and to MCP Tools: in the transition system they are steps of their own, which anything may interleave with.
- Who may call `/internal/*` and `remediation.execute`: only the Gateway does in the model, and minted tokens and fault ids are fresh.
- `post_decision` and `RemediationExecutor._run` as methods: they suspend inside, so each is a program counter in the transition system; the sections between awaits are methods.
- Narration texts, delays, `detected_at`, `impact`, timestamps and unread counters: no modelled decision reads them.
- The sort of fault lists by time: the dashboard's lists are compared as maps by id, and the activity list is taken in store order, which is time order as long as clocks do not go back.
- A snapshot is five requests of which the model keeps three; a failed one leaves the dashboard as it was, which is the run without that step.
- `lab_health`, `agent_status`, wake hooks and terminal fallbacks: one branch per status code.
- React rendering, retained summaries, optimistic updates and notification read flags.
- OrchestratorRuns.OneFaultExactly: requests to the Orchestrator are handled one at a time, and a call that is given up on has by then taken effect or never will, so an inject that lands later is not modelled; a clear that lands later is a remediation clear.
- HarnessSafety.OnlyTrackedExactly: a fault that the plugin no longer tracks stays over once it is over; nothing else may reopen it.
- Overlapping harness calls: the plugin is driven one call at a time, so the object identity of the current investigation does not matter.
- YAML and schema validation, article parsing and the rest of the simulator profile: `Packs.LoadPack` starts from parsed values with plain references and no symbolic links.
- `log_extract` backfill: a display default.
- The embedding index: its answer is any of the domain pack's articles with any score, or none.
- What a URL with a query, a fragment, an escape or a dot segment in it answers: any answer is allowed.
- Duplicate asset ids in a pack, which the engine would list once.
- The per-asset event listing and the single-asset endpoints of the adapters: easy members.
- The installer's reading of a skill's frontmatter name: a blank stub goes to the slot of the skill's directory name, as the console intends.
- Editor selection, the menu's labels, the edit flow of a single target and the session reset.
- Unicode digits other than the ASCII ones are whatever the regular expression engine says; the stamping theorems hold for any digit class that excludes '-' and 'T'.
