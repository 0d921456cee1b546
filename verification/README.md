# Seata operator: a verified model

This project models the Kubernetes operator for Seata raft clusters and proves what its reconcile loop,
its webhook and its helpers keep. Everything is Dafny; `dafny verify dfyconfig.toml` checks it.

## How it is organised

- `Text`, `Lists`, `Utils`: decimal printing and parsing, filtering, the membership list, the orphan test
  on claim names.
- `Api`: the SeataServer resource with its in-place defaulting.
- `Generators`, `Synchronizers`, `Credentials`: desired objects, in-place merges, credential lookup.
- `RaftGroup`: the membership push as interleaved steps of goroutines under an error group.
- `Cluster`: the cluster as the operator sees it (servers, Services, StatefulSets, volume claims, the list
  each raft node last accepted) and the API calls.
- `Pass` and `Reconciler`: `Pass.Reconciled` says what one reconcile pass does to the cluster, as a
  function of which of its calls fail; the class `SeataServerReconciler` works step by step on mutable
  objects, the StatefulSets sharing the server's replica cell, and is proved to do exactly that.
- `Runs`: passes of all servers interleaved with what everybody else does: spec and finalizer edits,
  deletions, pods, claims, Services and secrets coming and going. `Midpass`: why a pass may be one step of
  a run. `Results`: what a pass answers. `Written`: what it puts into the objects and tells the nodes.
  `Safety`, `OrphanCount`, `Settling`, `SharedService`, `FinalizerProtocol`, `Truth`, `Convergence`,
  `Defaulting` and `PassLog` hold the other theorems about passes and runs.
- `ErrorLog`: writers of the bounded error log under optimistic concurrency.
- `Regex`, `Names`, `ImageReference`, `Webhook`: the validators and the languages of their patterns.
- `CleanupHandler`: the fault-tolerant cleanup of the finalizer package.

A pass is one step of a run. Any of its API calls may fail; a write that conflicts with somebody else's
is a write that fails. An event that falls between two of the three steps of a pass does not escape the
runs: the cluster ends as if it had happened before or after the pass, where the pass's later writes of an
edited server fail on the version they carry (`Midpass.EventBeforeSetIsARun`,
`Midpass.EventBeforeFinalizersIsARun`). That the same holds for an event that falls inside one step, and for
several events in one pass, is an assumption.

## What was found

- `status.synchronized` tells the truth over every run in which a written StatefulSet gets its status
  written, service name and raft port stay, the ready count does not leave the replica count once there, and
  nobody else deletes the StatefulSet (`Truth.TruthfulOverRuns`). Each is needed; there is a run for each
  that ends with nothing left to do and the flag wrong. `Truth.TruthfulAfterPassExactly` says for every
  pass, whatever fails in it, exactly when it leaves the flag truthful.
- The comment on the orphan cleanup promises that volumes are not deleted before the StatefulSet has
  scaled down. The guard compares the ready count with the spec, not the number of pods
  (`Settling.DeletedExactly`): a volume goes while its pod is still there
  (`Settling.VolumeOfExistingPodGoes`).
- A server whose policy is not Delete but which carries the finalizer is never let go, unless somebody else
  takes the finalizer off (`FinalizerProtocol.RetainBlocksDeletion`).
- The guard "more claims than replicas" disagrees with the orphan test exactly if there are orphans, but no
  more of them than volumes missing below the replica count (`OrphanCount.GuardExactly`).
- Two servers of one namespace with the same service name, which is the default, share one Service. It
  selects the pods of the server whose pass created it, for good; the other server settles all the same
  (`SharedService.SecondServerUnserved`).
- A cancelled membership push can still call a node whose goroutine has already looked at its context
  (`RaftGroup.CancelledYetCalled`); no other node is called (`RaftGroup.CalledAfterCancel`).
- A HOST_NAME entry of the user's other than the pod's name field is wrong in every pod but at most one, and
  a membership list of the user's is right for at most one replica count
  (`Generators.SharedHostNameFitsOnePod`, `Generators.SharedListFitsOneSize`).
- The orphan test truncates ordinals to 32 bits. It is right for all below 2^31, and above that only where
  the low 32 bits read as a number from the replica count to 2^31-1 (`Utils.OrphanTrueExactly`); no
  truncation ever makes an ordinal below the replica count an orphan.
- The webhook rejects dotted environment names, while the reconciler and the repository's README take the
  console credentials from such names: with an accepted specification the operator always logs in with
  the built-in credentials (`Webhook.AcceptedCredentialsAreFallback`).
- `RemoveString` is documented to remove the first occurrence. The code removes all, which is the same
  exactly where the string occurs at most once (`Utils.RemoveStringIsFirstExactly`).
- The comment above the image pattern mentions a registry port. The pattern accepts no reference with a
  colon before a slash (`ImageReference.RegistryPortRejected`).
- Two kinds of failing pass leave no entry in the error log: the StatefulSet's owner reference, and a List
  of the orphan cleanup (`PassLog.SilentExactly`); all others do if the entry can be written
  (`PassLog.PassLogs`).
- After an edit of the service name the cluster settles with pods that go by the new Service in a
  StatefulSet that is governed by the old one (`SharedService.ServiceEditSplits`).
- From a server whose flag is not wrongly set the operator settles within as many passes as pods have to
  move and rounds are hindered: by a failing call, by pods standing still, or by a node that refuses
  (`Convergence.Converges`).

## Model

| member | source | states |
|---|---|---|
| Text.AtoiUndoesDecInt | pkg/utils/utils.go:77-80 | Parsing a printed number gives it back on exactly the 64-bit range and fails outside it |
| Text.AtoiSigns | pkg/utils/utils.go:77-80 | Digits are read with or without a plus sign, and as negative behind a minus sign, within 64 bits |
| Text.AtoiReadsOnlyNumbers | pkg/utils/utils.go:77-80 | Nothing but digits behind at most one sign is read |
| Utils.ConcatRaftServerAddress | pkg/utils/utils.go:33-45 | The loop with its trailing comma cut prints the addresses of ordinals 0..Replicas-1 joined by commas, nothing for no replicas |
| Utils.AddressReadsBack | pkg/utils/utils.go:37 | Cutting an address at its last colon, last dot and last dash recovers name, ordinal, service and port, whatever the name holds, if the service has no dot |
| Utils.MemberListSplits | pkg/utils/utils.go:33-45 | For comma-free name and service, splitting the list gives one entry per replica, in order and pairwise different |
| Utils.MemberListDetermines | pkg/utils/utils.go:33-45 | The printed list determines name, replica count, service and port |
| Utils.ContainsString | pkg/utils/utils.go:48-55 | True exactly when the string occurs |
| Utils.RemoveString | pkg/utils/utils.go:58-66 | The loop drops every occurrence and keeps the rest in order |
| Utils.RemovedContents | pkg/utils/utils.go:58-66 | Removing loses all occurrences of the string and nothing else |
| Utils.RemoveStringIsFirstExactly | pkg/utils/utils.go:57-66 | It removes just the first occurrence, as its comment says, exactly where the string occurs at most once |
| Utils.RemoveUndoesAppend | pkg/utils/utils.go:58-66 | Adding an absent finalizer and removing it again is the identity |
| Utils.OrphanExactly | pkg/utils/utils.go:69-84 | For every server name and ordinal k, the printed claim name is an orphan exactly when k fits 64 bits and its 32-bit truncation reaches the replica count; for k below 2^31 exactly when k does; never when k is below it |
| Utils.OrphanTrueExactly | pkg/utils/utils.go:83 | The test agrees with the true ordinal exactly for ordinals below 2^31, and for 64-bit ones whose low 32 bits read as a number from the replica count to 2^31-1 |
| Utils.OrphanAntitone | pkg/utils/utils.go:69-84 | More replicas mean fewer orphans; a name without a dash or with an unreadable tail is never one |
| Utils.PvcNameInjective | pkg/seata/generators.go:72-91 | Claim names of different servers or different pods never coincide |
| Api.SeataServer.PortsWithDefaults | api/v1alpha1/seataserver_types.go:176-184 | Sets the three default ports exactly when all three are zero, and reports so |
| Api.SeataServer.PersistenceWithDefaults | api/v1alpha1/seataserver_types.go:222-239 | Always makes the claim ReadWriteOnce; reports exactly an unknown policy or an absent or zero storage request, and fills them |
| Api.SeataServer.WithDefaults | api/v1alpha1/seataserver_types.go:54-77 | The in-place defaulting yields the defaulted specification and reports exactly whether a reported field was unset |
| Api.DefaultedIsFixedPoint | api/v1alpha1/seataserver_types.go:54-77 | A second defaulting reports and changes nothing; nothing is reported exactly when at most the access modes change; the volume is ReadWriteOnce of non-zero size |
| Api.DefaultsAre | api/v1alpha1/seataserver_types.go:54-77 | Every default by field and value, the ports 7091, 8091 and 9091 by name |
| Credentials.FetchExactly | pkg/seata/fetchers.go:30-87 | The decision table: which reference is used, exactly when a fetch fails, and what value it yields |
| Credentials.FetchLaws | pkg/seata/fetchers.go:30-87 | Making references optional never changes the value and only removes failures; a failed fetch yields nothing; behind a ConfigMap reference Secrets do not matter |
| Credentials.ResolveCredentials | controllers/seataserver_controller.go:228-242 | For each console key the value of the last entry of that name, empty if its fetch fails, the built-in default if there is none |
| Generators.MakeStatefulSet | pkg/seata/generators.go:74-124 | The desired StatefulSet, its replicas being the server's own cell |
| Generators.SelfAddressExactly | pkg/seata/generators.go:127-151 | A pod announces its address in the membership list exactly if the user has no HOST_NAME entry or one with the pod's own name as value |
| Generators.GivenListExactly | pkg/seata/generators.go:134-150 | A pod is given the operator's membership list exactly if the user has no entry of that name or one with that list as value |
| Generators.SelfAddressIsMember | pkg/seata/generators.go:127-151 | Then every pod's own address and port is exactly its own entry, and no other, of the list it is given |
| Generators.LiteralOverridesBreak | pkg/seata/generators.go:148-149 | Any other literal for HOST_NAME or for the list makes the announced address or the given list a different one |
| Generators.SharedHostNameFitsOnePod | pkg/seata/generators.go:148-149 | A user's HOST_NAME that is the same in all pods is wrong in all but at most one |
| Generators.SharedListFitsOneSize | pkg/seata/generators.go:148-149 | A user's membership list that is the same in all pods is right for at most one replica count |
| Generators.CredentialEntryIsThePods | pkg/seata/generators.go:134-150 | The entry credentials are resolved from is the last of its name in the pod's environment |
| Synchronizers.SyncService | pkg/seata/synchronizers.go:45-53 | Only the ports of the found Service are replaced |
| Synchronizers.SyncStatefulSet | pkg/seata/synchronizers.go:55-64 | Template and replicas are taken over, and the replica cell is shared from then on |
| RaftGroup.WaitNilExactly | pkg/seata/synchronizers.go:167-196 | Over every schedule: no ordinal is called twice; Wait returns nil exactly when the call of every ordinal returned nil, otherwise the first error reported |
| RaftGroup.FirstReportStays | pkg/seata/synchronizers.go:176-195 | The first reported error stays the first |
| RaftGroup.CalledAfterCancel | pkg/seata/synchronizers.go:181-187 | After a cancellation an ordinal is called only if its goroutine had passed the check before, and then once |
| RaftGroup.PassedMayStillCall | pkg/seata/synchronizers.go:181-187 | Whenever a goroutine has passed the check, cancelled or not, the schedule can go on with its call |
| RaftGroup.CancelledYetCalled | pkg/seata/synchronizers.go:181-187 | A schedule in which an ordinal is called after the cancellation |
| RaftGroup.ActionsProgress | pkg/seata/synchronizers.go:178-195 | Every action shortens what is left: no schedule is endless |
| RaftGroup.NeverStuck | pkg/seata/synchronizers.go:178-195 | Until Wait has returned, some action of the group is enabled |
| RaftGroup.EveryOutcomeHappens | pkg/seata/synchronizers.go:167-196 | For any set of ordinals there is a schedule in which exactly their calls return nil and Wait returns |
| Cluster.GroupDecidesPush | pkg/seata/synchronizers.go:167-196 | What a pass knows of a push, under any schedule: success exactly when every node granted it, and the new list with exactly the nodes whose call returned nil |
| Cluster.PlanHasSchedule | pkg/seata/synchronizers.go:167-196 | Conversely what any plan of a pass lets its push do is what some schedule does |
| Reconciler.SeataServerReconciler.RecordError | controllers/seataserver_controller.go:369-390 | The retry loop appends the entry, dropping the oldest of five, exactly when a try lands within the retries |
| Reconciler.SeataServerReconciler.ReconcileHeadlessService | controllers/seataserver_controller.go:59-104 | Get, create or merge-and-update of the Service with each failure logged, as ServiceStep |
| Reconciler.SeataServerReconciler.UpdateStatefulSet | controllers/seataserver_controller.go:209-252 | Merge, StatefulSet write, counts, push and status write on objects sharing one replica cell, as UpdateSetStep |
| Reconciler.SeataServerReconciler.Observe | controllers/seataserver_controller.go:219-250 | The flag is cleared when counts differ, and set by a push only when due |
| Reconciler.SeataServerReconciler.ReconcileStatefulSet | controllers/seataserver_controller.go:178-207 | Get, create or update of the StatefulSet with failures logged, as SetStep |
| Reconciler.SeataServerReconciler.CleanupOrphanPVCs | controllers/seataserver_controller.go:286-308 | Ready guard, count guard and orphan deletes, as OrphanStep |
| Reconciler.SeataServerReconciler.CleanUpAllPVCs | controllers/seataserver_controller.go:334-343 | Every listed claim is deleted unless its delete fails |
| Reconciler.SeataServerReconciler.DeleteListed | controllers/seataserver_controller.go:299-304 | The deleting loop removes exactly the targeted, deletable claims |
| Reconciler.SeataServerReconciler.MarkLive | controllers/seataserver_controller.go:258-267 | Finalizer added if absent, then orphan cleanup, as MarkStep |
| Reconciler.SeataServerReconciler.Release | controllers/seataserver_controller.go:268-283 | Claims deleted, then finalizer removed, as ReleaseStep |
| Reconciler.SeataServerReconciler.ReconcileFinalizers | controllers/seataserver_controller.go:254-284 | Nothing unless the policy is Delete; otherwise one of the two branches, as FinalizerStep |
| Reconciler.SeataServerReconciler.ReconcileLoadedServer | controllers/seataserver_controller.go:145-160 | The three steps in order with early exit, as ReconcileLoaded |
| Reconciler.SeataServerReconciler.Reconcile | controllers/seataserver_controller.go:124-161 | The whole pass on mutable objects does exactly what Pass.Reconciled says |
| Results.AbsentServer | controllers/seataserver_controller.go:126-133 | For a server that is not there nothing changes, and the pass fails exactly if the Get fails, else is done |
| Results.ResultExactly | controllers/seataserver_controller.go:124-161 | The result of every pass for every server, there or not: when an error, a requeue at once, one later, or done |
| Results.AgainNeedsServer | controllers/seataserver_controller.go:126-130 | Only a server that is there is ever requeued |
| Results.GoneForGood | controllers/seataserver_controller.go:126-130 | Over every run a server that is gone and not created anew stays gone, and each pass whose Get succeeds is done and changes nothing |
| Results.ReleaseEndsIt | controllers/seataserver_controller.go:126-130 | The pass that lets a server go is the last that does anything for it |
| Written.WrittenService | pkg/seata/generators.go:34-54 | After a pass that comes to write the StatefulSet the Service has exactly the three named ports of the spec, a new one selects the server's pods, and no other Service is touched |
| Written.WrittenSet | pkg/seata/generators.go:74-124 | After it every field of the StatefulSet: container name, image, resources, ports, address expression, replicas; counts as found; and of a created one Service name, claim and claim labels |
| Written.WrittenEnvironment | pkg/seata/generators.go:134-151 | What a pod sees under each of the operator's five names, exactly if the user has not spoilt it, and that every other name is the user's |
| Written.PushReaches | controllers/seataserver_controller.go:224-250 | Exactly which nodes hold the new list after a pass: those that grant it to the credentials of the last console entries, or seata, when the push is due |
| Written.NobodyTold | controllers/seataserver_controller.go:178-227 | A pass that does not update the StatefulSet tells no node anything |
| Written.WrittenStatus | controllers/seataserver_controller.go:219-251 | The status a pass writes: both counts as reported, ready or not, and exactly when the flag is set |
| Written.SmoothPassDoneBy | controllers/seataserver_controller.go:224-250 | Exactly when a pass without API failures is done, by the grants of the nodes to these credentials |
| Safety.PassClaims | controllers/seataserver_controller.go:254-308 | What any pass leaves of the claims, whatever fails in it: one of two cleanups, each under exactly its condition, or all of them |
| Safety.DeletedClaim | controllers/seataserver_controller.go:286-343 | Whatever fails, a deleted claim has the server's namespace, app and uid, the policy is Delete, and for a live server the ready count equals the replicas and the true ordinal is at or above them |
| Safety.ClaimSurvives | controllers/seataserver_controller.go:254-356 | Over every run a claim survives if nobody entitled to delete it acts |
| Safety.WantedVolumeSurvives | controllers/seataserver_controller.go:254-356 | Volumes 0..Replicas-1 survive every interleaving of passes of all servers with any failures, and all volumes of a retaining server survive even its deletion |
| OrphanCount.Pigeonhole | controllers/seataserver_controller.go:294 | Of distinct ordinals as many are at or above r as there are ordinals beyond r plus ordinals missing below it |
| OrphanCount.GuardExactly | controllers/seataserver_controller.go:294-304 | The count guard runs the loop exactly if there are more orphans than volumes missing below Replicas, so it disagrees with the orphan test exactly if there are orphans but no more than missing volumes |
| OrphanCount.GuardAgreesWhenCovered | controllers/seataserver_controller.go:294-304 | With volumes 0..Replicas-1 all there guard and orphan test agree |
| OrphanCount.GuardMissesOrphan | controllers/seataserver_controller.go:294-304 | For every replica count an orphan it misses |
| Settling.DeletedExactly | controllers/seataserver_controller.go:286-305 | Which volumes any pass over a live server deletes, whatever fails in it, if and only if; the number of existing pods does not matter |
| Settling.VolumeOfExistingPodGoes | controllers/seataserver_controller.go:287-288 | Scaling to the momentary ready count deletes volumes whose pods are still there |
| Settling.CleanupLeavesExactly | controllers/seataserver_controller.go:286-305 | The guarded cleanup leaves an orphan exactly if there are orphans but no more than missing volumes; if it runs it leaves exactly the volumes below Replicas |
| Settling.QuiescenceIsAgreement | controllers/seataserver_controller.go:145-160 | A pass over a live server with its StatefulSet ending without error or requeue leaves flag, counts, Service ports, template, replicas and finalizer in agreement with the spec |
| Settling.QuiescenceLeavesExactly | controllers/seataserver_controller.go:286-305 | Such a pass under policy Delete leaves no orphan except under that condition, and exactly the volumes 0..Replicas-1 if these were all there |
| Settling.OrphanFreeIsStable | controllers/seataserver_controller.go:286-305 | Without an orphan no pass on the live server deletes anything |
| Settling.FixedPointExactly | controllers/seataserver_controller.go:124-161 | A pass without API failures over a live server is done and changes nothing in the cluster exactly if the server is past defaulting, the cluster agrees with it and the orphan cleanup finds nothing |
| Settling.SecondPassIsIdle | controllers/seataserver_controller.go:124-161 | After a pass that asks for no other, one without API failures changes nothing, exactly if the cleanup finds nothing |
| SharedService.PassKeepsSelectors | pkg/seata/synchronizers.go:45-53 | A pass leaves the selector of every Service it finds; one it creates selects its server's pods |
| SharedService.QuiescentServiceSelectsExactly | controllers/seataserver_controller.go:92-102 | After a quiescent pass the Service selects the server's own pods exactly if the pass created it or it already did |
| SharedService.SelectorStays | pkg/seata/synchronizers.go:45-53 | Over every run a Service keeps its selector unless somebody else touches it |
| SharedService.SecondServerUnserved | pkg/seata/generators.go:34-54 | Of two servers sharing a Service the one that did not create it settles without its pods ever being selected |
| SharedService.PassKeepsIdentity | pkg/seata/synchronizers.go:55-64 | A pass leaves governing Service, claim labels and claim template of every StatefulSet it finds; one it creates has those of the spec |
| SharedService.IdentityStays | pkg/seata/synchronizers.go:55-64 | So does every run in which nobody else deletes the StatefulSet |
| SharedService.QuiescentSetGovernedExactly | pkg/seata/synchronizers.go:55-64 | After a quiescent pass the StatefulSet's governing Service is the spec's exactly if it was before |
| SharedService.ServiceEditSplits | pkg/seata/synchronizers.go:55-64 | After a service name edit a quiescent pass leaves pods announcing the new Service under a StatefulSet governed by another |
| Midpass.EventBeforeSetIsARun | controllers/seataserver_controller.go:145-153 | An event between the first and the second step of a pass ends as in a run in which it comes before or after the pass, of whose writes of an edited server the later ones fail |
| Midpass.EventBeforeFinalizersIsARun | controllers/seataserver_controller.go:145-153 | Likewise between the second and the third step |
| FinalizerProtocol.PassKeepsProtocol | controllers/seataserver_controller.go:254-284 | Exactly when a pass adds the finalizer, releases it or leaves it; an addition or release leaves Service and StatefulSet as generated, and a release comes after the claims were listed and a delete issued for each, without error |
| FinalizerProtocol.SmoothPassReleases | controllers/seataserver_controller.go:268-283 | With policy Delete a pass without failures on a deleting server releases it, and the server goes if no other finalizer is left |
| FinalizerProtocol.ServerGoesExactly | controllers/seataserver_controller.go:268-283 | Exactly which passes let the server go |
| FinalizerProtocol.ReleasedVolumesExactly | controllers/seataserver_controller.go:334-343 | Which volumes any pass over a server being deleted deletes, if and only if |
| FinalizerProtocol.EveryPassKeepsProtocol | controllers/seataserver_controller.go:254-284 | The same for every pass at any point of any run, whoever else edits finalizers |
| FinalizerProtocol.OthersOverRuns | controllers/seataserver_controller.go:254-284 | Over every run everybody else's finalizers are what others last made them, in their order |
| FinalizerProtocol.OursOverRuns | controllers/seataserver_controller.go:254-284 | If others leave ours alone it occurs at most once if it did, and is never put on a deleting server |
| FinalizerProtocol.RetainBlocksDeletion | controllers/seataserver_controller.go:255-257 | If the policy is not Delete at any pass, a server carrying the finalizer is never let go unless somebody else takes the finalizer off |
| Truth.PassMatter | controllers/seataserver_controller.go:124-161 | What a pass does to flag, StatefulSet and the nodes' lists, whatever fails in it |
| Truth.ResultTells | controllers/seataserver_controller.go:145-160 | A pass past defaulting without error has written the StatefulSet, and its status if it was there before, and asks for no other exactly if the flag is set |
| Truth.PassTruthful | controllers/seataserver_controller.go:209-252 | A pass keeps the flag truthful whatever fails, if the status write succeeds whenever the StatefulSet write does |
| Truth.TruthfulOverRuns | controllers/seataserver_controller.go:213-251 | Over every orderly run the flag implies that all replicas are ready and every node last accepted exactly the list of that size |
| Truth.TruthfulAfterPassExactly | controllers/seataserver_controller.go:188-251 | For every pass over any server: it leaves the flag truthful if and only if it lets the server go, or stops before the StatefulSet write with a truthful flag, or creates the StatefulSet with the flag not set or no replicas, or updates it while a flag that is already set is right about the new size |
| Truth.UnreadyScaleDownLies | controllers/seataserver_controller.go:224-227 | Scaling down to the momentary ready count ends quiescent with the nodes untold |
| Truth.LostStatusWriteLies | controllers/seataserver_controller.go:215-251 | A status write lost after the StatefulSet write can leave the flag wrong for good |
| Truth.RaftPortEditLies | controllers/seataserver_controller.go:224-227 | A changed raft port alone is never pushed |
| Truth.ServiceEditLies | controllers/seataserver_controller.go:224-227 | A changed service name alone is never pushed |
| Truth.DeletedSetLies | controllers/seataserver_controller.go:188-194 | After an external deletion the StatefulSet is created anew and the pass is quiescent with no pod ready |
| Convergence.SmoothPassDoneExactly | controllers/seataserver_controller.go:224-250 | A pass without API failures over a server with its StatefulSet asks for no other exactly if all replicas are ready and the flag is set or every node grants the push |
| Convergence.Round | controllers/seataserver_controller.go:124-161 | No round increases the measure, and one decreases it whose pass is not the last, unless a call of the pass failed, pods were awaited and none moved, or a node refused the push |
| Convergence.Converges | controllers/seataserver_controller.go:124-161 | From a live server whose flag is not set or is truthful for whatever size, a pass that settles, agreeing and truthful, comes within the measure plus the number of hindered rounds, and every earlier pass fails or asks to be repeated |
| Defaulting.RequeueStoresDefaults | controllers/seataserver_controller.go:136-143 | An immediate requeue means the defaults were just stored and nothing else changed |
| Defaulting.DefaultingHappensOnce | controllers/seataserver_controller.go:136-143 | Without edits no later pass takes the defaulting exit, over every run |
| Defaulting.CreatedClaimTemplate | pkg/seata/generators.go:87-93 | A created StatefulSet asks for labelled ReadWriteOnce volumes of non-zero size whatever was stored |
| PassLog.PassLogs | controllers/seataserver_controller.go:124-161 | Exactly which passes fail, and with which fault; the log gets one entry naming it exactly if the fault is not a silent one and the entry can be written, and is left alone otherwise |
| PassLog.SilentExactly | controllers/seataserver_controller.go:180-182 | The faults that are not logged: the StatefulSet's owner reference, or a List of the orphan cleanup it comes to |
| PassLog.SilentFailures | controllers/seataserver_controller.go:286-298 | Both occur: the pass fails and the log is as before though an entry could be written |
| ErrorLog.LoggedIsTail | controllers/seataserver_controller.go:383-387 | One append keeps the log the tail of its history |
| ErrorLog.LogIsRecentHistory | controllers/seataserver_controller.go:369-390 | Over every interleaving of writers, passes and edits the log is the tail of the full history, which holds once each the entries of exactly the calls that returned nil |
| ErrorLog.RecordedIsAWriter | controllers/seataserver_controller.go:369-390 | What a pass leaves in the log is what one such writer with the same attempts leaves there, returning nil exactly when it lands |
| Names.LabelLanguage | pkg/webhook/validating_webhook.go:174-190 | Pattern and length test accept exactly the labels of section 2.3.1 of RFC 1035 in lower case |
| Names.LabelsAreSeparatorFree | pkg/webhook/validating_webhook.go:180 | No accepted service name holds a comma, dot or colon |
| Names.LabelsSpelledOut | pkg/webhook/validating_webhook.go:180 | The accepted service names character by character |
| Names.EnvNameLanguage | pkg/webhook/validating_webhook.go:341 | The environment name pattern as a language |
| Names.EnvNamesSpelledOut | pkg/webhook/validating_webhook.go:341 | The accepted environment names character by character |
| Names.DottedNamesRejected | pkg/webhook/validating_webhook.go:341 | No name with a dot is accepted |
| ImageReference.ComponentLanguage | pkg/webhook/validating_webhook.go:213 | A component is accepted exactly when it consists of letters, digits and single separators with a letter or digit at both ends |
| ImageReference.AcceptedReads | pkg/webhook/validating_webhook.go:213 | Every accepted reference is the print of components, optional tag and optional digest |
| ImageReference.PrintedAccepted | pkg/webhook/validating_webhook.go:213 | Every such print is accepted |
| ImageReference.ReadingIsUnique | pkg/webhook/validating_webhook.go:213 | An accepted reference has only one such reading |
| ImageReference.ComponentsSpelledOut | pkg/webhook/validating_webhook.go:213 | The accepted components character by character |
| ImageReference.TagsSpelledOut | pkg/webhook/validating_webhook.go:213 | The accepted tags character by character |
| ImageReference.DigestsSpelledOut | pkg/webhook/validating_webhook.go:213 | The accepted digests character by character |
| ImageReference.VersionedImageAccepted | pkg/webhook/validating_webhook.go:213 | A reference with version and digest is accepted |
| ImageReference.RegistryPortRejected | pkg/webhook/validating_webhook.go:212-213 | No reference with a colon before a slash is accepted |
| ImageReference.LocalRegistryRejected | pkg/webhook/validating_webhook.go:212-213 | An instance |
| Webhook.ValidateServiceName | pkg/webhook/validating_webhook.go:174-190 | An error exactly for what is not a label, and which one: empty, malformed or too long |
| Webhook.ValidateReplicas | pkg/webhook/validating_webhook.go:193-203 | An error exactly outside 1..1000, and which one on which side |
| Webhook.ValidateImage | pkg/webhook/validating_webhook.go:206-219 | An error exactly for what has no reading as a reference |
| Webhook.ValidatePorts | pkg/webhook/validating_webhook.go:222-247 | An error exactly when a port is out of range or two are equal, decided by counting map keys, and which one |
| Webhook.ValidateStorage | pkg/webhook/validating_webhook.go:250-278 | An error exactly without a storage request from 1Gi to 1000Gi, and which one: missing, too small or too large |
| Webhook.ValidateQuantities | pkg/webhook/validating_webhook.go:283-294 | In any iteration order an error exactly when some quantity is negative, naming such a one |
| Webhook.ValidateResourceRequirements | pkg/webhook/validating_webhook.go:281-310 | An error exactly for a negative quantity or a cpu or memory limit below its request, and which one |
| Webhook.ValidateVolumeReclaimPolicy | pkg/webhook/validating_webhook.go:327-337 | An error exactly for a policy other than empty, Retain and Delete |
| Webhook.ValidateEnvironmentVariables | pkg/webhook/validating_webhook.go:340-354 | An error exactly when some name is malformed or longer than 250, naming the first |
| Webhook.ValidateSeataServer | pkg/webhook/validating_webhook.go:123-171 | One error for each bad field, in the order of the validators, none exactly for a valid specification |
| Webhook.ValidSpelledOut | pkg/webhook/validating_webhook.go:174-354 | What the validators ask of names, ports, storage, resources, policy and environment, in numbers and characters |
| Webhook.ValidAfterDefaultingExactly | api/v1/seataserver_types.go:54-77 | Exactly which specifications are valid once defaulted |
| Webhook.DefaultingPreservesValidity | api/v1/seataserver_types.go:54-77 | Defaulting keeps validity and changes at most container name, empty policy, access modes and absent store size |
| Webhook.EmptySpecValidOnceDefaulted | api/v1/seataserver_types.go:54-77 | An otherwise empty specification with 1..1000 replicas is valid once defaulted |
| Webhook.AcceptedMembershipReadsBack | pkg/webhook/validating_webhook.go:174-190 | Of an accepted specification the membership list reads back completely |
| Webhook.AcceptedCredentialsAreFallback | pkg/webhook/validating_webhook.go:340-354 | With an accepted specification the resolved credentials are the built-in ones |
| CleanupHandler.Handler.Delete | pkg/finalizer/cleanup_handler.go:160-171 | One attempt, the object gone unless it fails |
| CleanupHandler.Handler.DeleteAll | pkg/finalizer/cleanup_handler.go:128-133 | The loop attempts every listed object in order whatever fails |
| CleanupHandler.Handler.CleanupKind | pkg/finalizer/cleanup_handler.go:117-136 | List then delete; an error exactly when the list fails with something other than NotFound |
| CleanupHandler.Handler.CleanupOthers | pkg/finalizer/cleanup_handler.go:174-229 | ConfigMaps and Secrets, their errors ignored |
| CleanupHandler.Handler.HandleCleanup | pkg/finalizer/cleanup_handler.go:61-86 | The whole cleanup: its attempts in order, what is left, and an error exactly when the claims cannot be listed under policy Delete |
| CleanupHandler.CleanupExactly | pkg/finalizer/cleanup_handler.go:61-86 | Exactly one attempt for each claim of the namespace with the server's app and uid labels under policy Delete, and each ConfigMap and Secret with its app label, behind a successful list; none for anything else, and none at all if the claims cannot be listed |
| CleanupHandler.CleanupOrder | pkg/finalizer/cleanup_handler.go:61-86 | Claims go first, then ConfigMaps, then Secrets |
| CleanupHandler.SurvivorsExactly | pkg/finalizer/cleanup_handler.go:61-86 | Exactly what is left after a cleanup |

## Left out

- Another actor moving inside one step of a pass, or several moving in one pass: taken for events before or
  after it; a claim created exactly between the counting and the deleting List of one pass is not modelled.
- Stale reads from the client cache: every Get and List sees the current cluster.
- A write whose answer is lost after it took effect: a failing write changes nothing.
- HTTP, JSON, tokens and timeouts of the membership call: a node grants or refuses a change asked for with
  given credentials.
- The webhook's HTTP handler and message texts; errors are named values.
- Timestamps of log entries, the server's name inside two of their messages, and entries' effect on anything
  but the log.
- Owner references, labels and annotations of the SeataServer, garbage collection, claim protection,
  event filtering and requeue delays.
- Quantity parsing: quantities are integers; 32-bit fields are integers too, no code computes with them
  except the truncation that is modelled.
- The text of the wait script, except the SEATA_IP it is given; the expansion of $(...) inside the values of
  user entries, and pod fields other than the name.
- The generic finalizer manager of the finalizer package: duplicated wrappers that the program does not use.
- Generated copies, conversion, manifests and packaging.
- Cluster.ApiServer: how the answer of a successful write is decoded is library behaviour; the model takes
  the stored object over the one in memory, so default access modes in memory are replaced by the stored ones.
