# Verification of kuperator

A Dafny model of the operation lifecycle of Pods, of the PodTransitionRules that
grant it a disruption budget, and of three controllers beside it: OperationJobs,
the partitioned rollout of PodDecorations, and the resource-version expectations.
`dafny verify dfyconfig.toml` checks all of it.

## What is modelled

**The label machine.** The state of an operation lives in the labels of its Pod.
Operators begin, finish and undo a lifecycle (`Client.dfy`), a controller records
passed checks and moves the readiness gate (`Controller.dfy`), and on every write a
mutating webhook rewrites the labels (`Admission.dfy`) and a validating webhook
judges them (`Validation.dfy`). Each of these is imperative code over a Pod object
and a server; its contract says exactly what labels it leaves, as a function of the
old ones. What these functions amount to is proved of the labels, the gate and the
finalizers alone: `Rewrites.dfy` for an admission and any number of lifecycles,
`Effects.dfy` for a reconcile. `Machine.dfy` takes the functions as the moves of one Pod
and shows that a whole reconcile is at most two moves. Over all runs of that machine:

- with lifecycles begun on idle Pods, finished when granted and undone under their
  own type, the labels are always exactly one of six patterns, no residue is left at
  rest, a rank of the phase falls with every step forward, and from every phase whole
  reconciles and one finish lead back to rest (`Shapes.dfy`, `Phases.dfy`, `Discipline.dfy`);
- no two lifecycles of a Pod ever carry the same operation type, unless an operator
  asks for that (`Exclusion` in `Machine.dfy`);
- with any number of overlapping lifecycles, traffic is off while one of them
  prepares, operates or has operated, as long as no lifecycle is finished while it
  prepares. Without that guard it is false: `Traffic.AcceptedFinishKeepsOffIff` says
  exactly when, `Traffic.EarlyFinishLeaks` shows a run;
- the gate is never raised while a lifecycle prepares, operations start only with it
  down, and it stands still until they are over.

**The budget.** A rule of type AvailablePolicy approves Pods for disruption
(`Available.dfy`), a chain of rules decides what is published (`Processor.dfy`), the
stages of a rule merge what they found concurrently (`RuleController.dfy`), and the
lifecycle controller reads the verdict (`Checker` in `Controller.dfy`). `Budget.dfy`
puts a rule and its Pods into one machine. The number of Pods that are passed in the
status or out of service never exceeds max-unavailable, and the others never number
fewer than min-available, in every state of every run of rule reconciles, lifecycle
reconciles, operator calls and admissions. The step that carries the proof is that
the admission which takes a passed Pod out of the pre-check takes it out of service
at once. `Recreate` lets Pods be deleted and created again: disrupted Pods and
missing replicas together stay within an absolute quota. A Pod in service that the
status of the rule does not name yet is held back by no rule and leaks the budget
(`Recreate.UnnamedPodLeaks`), so such a Pod has to wait.

**External approvals** (`WebhookRule.dfy`). Whatever an approval service answers,
every subject is passed or rejected, every pass goes back to an approval, and the
tasks that are live and running are carried on with their Pods, and no others. Two
things go wrong. The answers are not always disjoint: a Pod that a stopped task had
not approved is rejected for that and asked for again in the same call. And a service
that reuses the ID of a running task makes the rule forget that task
(`ReusedIdForgets`). The contract of `Do` says exactly when.

**Expectations** (`Expectation.dfy`). The keyed store, and the protocol around it: a
reconcile that goes past its check has seen the controller's last acknowledged
status write, also after failed writes have deleted the expectation, and a cache that
has caught up always goes past it.

**OperationJobs** (`OperationJob.dfy`). The reconcile over an array of candidates that
is sorted in place. On a job whose partition never decreases it does the same as one
that works on the first targets of the spec; finished targets never change, and the
job's verdict and counts say exactly what became of the targets. `Fates.dfy` says why: over
every history a target succeeds only if its action has, and fails only for a cause.

**PodDecorations** (`Decoration.dfy`). The resync of a manager with its placeholders,
and the sort that decides which Pods are held back. Placeholders conserve the
instances of the fleet; a rollout by partition never downgrades a Pod. While no resync
has succeeded nobody is held back, so that Pods are upgraded past the partition;
`Upgrades.UnsyncedDecorationIff` says when.

## Reading the model

- `Text` stands for names, operation types and timestamps: only equality matters.
  Where alphabetical order matters (revisions, instance IDs) a `Rank` is the place in
  that order.
- A label key is a `Key`. The twelve prefixes that are completed by an ID are taken
  to be distinct, none a prefix of another, and all among the prefixes that the
  webhook cleans up; `Tag(p, id)` is the key `p/id`, `Odd` any other key that starts
  with such a prefix, split at its slashes. `Control` is the control label with the
  value that switches the webhooks on.
- One admission uses one timestamp. Loops over Go maps and sets pick the next element
  arbitrarily, so contracts hold for every iteration order.
- A write and its admissions are one step. Status writes are rewritten, but not
  validated, as the webhooks are registered.
- Reads of clusters, clocks and services are parameters: the time, the answers of the
  API server, polls, responses, action handlers and rulers of other types.
- "Guarded" moves (`Phases.Guarded`) begin a lifecycle only on a Pod that carries
  none, as `BeginOperateLifecycle` does, finish it when it is granted, and undo it under
  the type it has. The machine itself lets a finish happen whenever `Finish` writes.
- The code and its surroundings disagree in places, and the model follows the code. A
  missing selector selects every Pod for a rollout but suits none when a revision is
  looked up (`Selected`, `Matches`). A finish is accepted on an operation that was
  never granted.

## Model

| member | source | states |
|---|---|---|
| Pods.CollectIds | pkg/controllers/podopslifecycle/utils.go:33-42 | the IDs announced by anchor labels, or an error exactly when an anchor label has no slash |
| Pods.TypedAreLifecycles | pkg/controllers/podopslifecycle/utils.go:44-57 | counting types over the announced IDs counts types of lifecycles |
| Pods.IDToLabelsMap | pkg/controllers/podopslifecycle/utils.go:29-75 | fails exactly on unparsable labels; otherwise holds every lifecycle with all its labels and how many lifecycles each operation type has |
| Pods.IdsRead | pkg/controllers/podopslifecycle/utils.go:33-57 | a lifecycle is an ID under which some label stands and that an operating, operate or operated label announces |
| Pods.UnparsableReads | pkg/controllers/podopslifecycle/utils.go:33-42 | labels cannot be parsed exactly when one of these has no slash |
| Admission.TreatOperating | pkg/webhook/server/generic/pod/opslifecycle/mutating.go:69-94 | label by label, where the operating half of the first loop leaves one lifecycle and service-available |
| Admission.TreatLifecycle | pkg/webhook/server/generic/pod/opslifecycle/mutating.go:52-102 | label by label, where one turn of the first loop leaves a lifecycle; nobody else's labels move |
| Admission.LiveAll | pkg/webhook/server/generic/pod/opslifecycle/mutating.go:126-176 | a counter equals the number of IDs iff no lifecycle is cancelled and all carry the label |
| Admission.TreatNext | pkg/webhook/server/generic/pod/opslifecycle/mutating.go:52-113 | a turn takes the order-free labels of the first loop one lifecycle further |
| Admission.TreatAll | pkg/webhook/server/generic/pod/opslifecycle/mutating.go:50-113 | in any order the first loop yields the same labels, the four counters and the cancelled types |
| Admission.WithdrawPermissions | pkg/webhook/server/generic/pod/opslifecycle/mutating.go:116-120 | a permission goes iff as many lifecycles are cancelled under its type as carry it |
| Admission.SweepAll | pkg/webhook/server/generic/pod/opslifecycle/mutating.go:133-146 | the six last labels of all lifecycles go, and nothing else |
| Admission.SettleOne | pkg/webhook/server/generic/pod/opslifecycle/mutating.go:155-173 | label by label and value by value, how one lifecycle trades its operating labels for operated and done-operation-type |
| Admission.SettleAll | pkg/webhook/server/generic/pod/opslifecycle/mutating.go:149-174 | the same for all lifecycles, in any order |
| Admission.PostCheckAll | pkg/webhook/server/generic/pod/opslifecycle/mutating.go:176-184 | post-check is added where neither post-check nor post-checked was |
| Admission.TreatAndCount | pkg/webhook/server/generic/pod/opslifecycle/mutating.go:44-124 | the labels after the first loop, and that the counters answer the questions of the four branches |
| Admission.Conclude | pkg/webhook/server/generic/pod/opslifecycle/mutating.go:126-186 | which branch is taken when nothing operates, its labels and its errors; when all lifecycles complete, their last labels go if every expected finalizer is on the Pod, stay if one is missing, and an unreadable annotation is an error |
| Admission.Mutating | pkg/webhook/server/generic/pod/opslifecycle/mutating.go:34-187 | the whole rewrite equals one order-free function of the old and new Pod, errors included; completing lifecycles end exactly when every expected finalizer is there, an uncontrolled Pod is left alone, and a gate is added on creation of a controlled one |
| Shapes.FirstLoopShape | pkg/webhook/server/generic/pod/opslifecycle/mutating.go:52-120 | on one lifecycle the first loop keeps an exact shape; service-available goes iff the pre-check is left |
| Shapes.AdmissionShape | pkg/webhook/server/generic/pod/opslifecycle/mutating.go:50-184 | on a Pod with at most one lifecycle an admission maps exact marks to exact marks, and removes service-available iff the pre-check is left |
| Rewrites.CompletionWaitsForFinalizers | pkg/webhook/server/generic/pod/opslifecycle/mutating.go:126-147 | when all lifecycles complete, the last labels of each go if every expected finalizer is on the Pod, and stay if one is missing |
| Rewrites.CompletionNeedsReadableConditions | pkg/webhook/server/generic/pod/opslifecycle/mutating.go:126-131 | an annotation that cannot be read stops the completion |
| Rewrites.RewriteFailsIff | pkg/webhook/server/generic/pod/opslifecycle/mutating.go:44-153 | the rewrite fails exactly on labels without a slash, on an unreadable annotation when all complete, and on a missing or unparsable old Pod when all are to be settled |
| Rewrites.OthersKeep | pkg/webhook/server/generic/pod/opslifecycle/mutating.go:34-187 | keys that belong to no lifecycle keep their values |
| Rewrites.NewLabelsAreStamped | pkg/webhook/server/generic/pod/opslifecycle/mutating.go:34-187 | labels keep their values and new ones carry the time of the admission, done-operation-type apart |
| Rewrites.CancelledIsPurged | pkg/webhook/server/generic/pod/opslifecycle/mutating.go:53-67 | a cancelled lifecycle loses all its labels |
| Rewrites.OperatingChecks | pkg/webhook/server/generic/pod/opslifecycle/mutating.go:69-94 | an operating lifecycle is in the pre-check exactly until it is pre-checked |
| Rewrites.OperatingAdvances | pkg/webhook/server/generic/pod/opslifecycle/mutating.go:72-88 | once pre-checked, a lifecycle operates if the gate is down without protection finalizers or was never written, and prepares otherwise; service-available goes when it starts |
| Rewrites.ServiceGoesOnlyForOperations | pkg/webhook/server/generic/pod/opslifecycle/mutating.go:78-82 | service-available is never added, and goes only when some live lifecycle leaves its pre-check |
| Rewrites.PostCheckedCompletes | pkg/webhook/server/generic/pod/opslifecycle/mutating.go:96-102 | a post-checked lifecycle is completing, and out of the post-check, as long as not all are swept |
| Rewrites.WithdrawnWithTheLast | pkg/webhook/server/generic/pod/opslifecycle/mutating.go:116-120 | with cancellations that name the types of what they cancel, a permission is withdrawn iff the last lifecycle of its type is cancelled |
| Rewrites.PermissionStaysWhileUsed | pkg/webhook/server/generic/pod/opslifecycle/mutating.go:116-124 | while a lifecycle operates, a permission goes iff the last lifecycle of its type is cancelled |
| Rewrites.TypesOnlyGo | pkg/webhook/server/generic/pod/opslifecycle/mutating.go:34-187 | no rewrite adds or changes the operation type of a lifecycle |
| Rewrites.OperatedTogether | pkg/webhook/server/generic/pod/opslifecycle/mutating.go:149-163 | a lifecycle becomes operated exactly when all lifecycles are at operate, and not all complete |
| Rewrites.SettledTrade | pkg/webhook/server/generic/pod/opslifecycle/mutating.go:155-184 | a lifecycle whose type the old Pod recorded then loses its type, its pre-checked mark and the permission, keeps operate only if it was operated, and enters the post-check |
| Rewrites.SettledRecordsType | pkg/webhook/server/generic/pod/opslifecycle/mutating.go:165-172 | and carries done-operation-type with the recorded type |
| Rewrites.OperatedEnters | pkg/webhook/server/generic/pod/opslifecycle/mutating.go:176-184 | when all lifecycles have operated they enter the post-check |
| Validation.Validating | pkg/webhook/server/generic/pod/opslifecycle/validating.go:34-108 | the verdict of the loop is an order-free predicate on the labels; a controlled Pod is admitted exactly when its annotation is readable and its labels read well: one slash in each key, operated/id with done-operation-type/id and back, some pre-checked with some permission and back |
| Validation.WellLabelledReads | pkg/webhook/server/generic/pod/opslifecycle/validating.go:50-107 | for all labels that predicate is what the labels read: one slash in each key, operated/id iff done-operation-type/id, some pre-checked iff some permission |
| Server.ApiServer.Write | pkg/webhook/server/generic/pod/pod_mutating_handler.go:50-93 | a write stores the rewritten object if both webhooks agree, and nothing otherwise; what a validated write stores on a controlled Pod has a readable annotation and labels that read well |
| Server.AcceptedReads | pkg/webhook/server/generic/pod/opslifecycle/validating.go:34-108 | a write is accepted exactly when the rewrite succeeds and, if it is validated, the rewritten labels read well |
| Client.Begin | pkg/controllers/utils/podopslifecycle/utils.go:44-88 | when it refuses, when it writes nothing, and the labels it sends; while another lifecycle has the type of an adapter that does not allow several, nothing is written |
| Client.BegunReads | pkg/controllers/utils/podopslifecycle/utils.go:67-74 | a begin sends what is there, the operating label and the type, and nothing else |
| Client.HasTypeReads | pkg/controllers/utils/podopslifecycle/utils.go:168-173 | a missing type reads as the empty text |
| Client.BegunIsDistinct | pkg/controllers/utils/podopslifecycle/utils.go:59-74 | a begin that is not refused keeps the operation types of a Pod distinct |
| Client.Finish | pkg/controllers/utils/podopslifecycle/utils.go:130-154 | the operating label, and nothing else, is removed if it is there or the type agrees, granted or not |
| Client.Undo | pkg/controllers/utils/podopslifecycle/utils.go:157-160 | the undo label with the adapter's type, and nothing else, is added |
| Client.BeginOperateLifecycle | pkg/controllers/operationjob/utils/lifecycle.go:30-50 | nothing is begun while any lifecycle is on the Pod or its type is in use; otherwise what is sent, whether it was begun, and when it fails |
| Client.CancelOpsLifecycle | pkg/controllers/operationjob/utils/lifecycle.go:67-80 | only a lifecycle that is on the Pod is undone |
| Checker.GetState | pkg/controllers/podtransitionrule/checker/checker.go:45-108 | the answers of exactly the rules that target the Pod; it is in stage and passed iff each of them has passed it in the stage it is in |
| Controller.AddServiceAvailable | pkg/controllers/podopslifecycle/podopslifecycle_controller.go:221-273 | when service-available is added, what is stored, and exactly when it fails; it is added only with every expected finalizer on the Pod |
| Controller.UpdateServiceReadiness | pkg/controllers/podopslifecycle/podopslifecycle_controller.go:347-427 | when the gate is written, what is stored, and whether that failed |
| Controller.PreCheckStageLabels | pkg/controllers/podopslifecycle/podopslifecycle_controller.go:429-450 | the missing permissions and pre-checked marks of all typed lifecycles |
| Controller.PostCheckStageLabels | pkg/controllers/podopslifecycle/podopslifecycle_controller.go:452-463 | the missing post-checked marks of all lifecycles |
| Controller.AddLabels | pkg/controllers/podopslifecycle/podopslifecycle_controller.go:465-492 | exactly these labels are stamped on the stored Pod |
| Controller.RemoveServiceAvailable | pkg/controllers/podopslifecycle/podopslifecycle_controller.go:494-518 | exactly service-available goes |
| Controller.MoveGate | pkg/controllers/podopslifecycle/podopslifecycle_controller.go:181-217 | preparing goes before completing; an unready Pod then loses service-available; it fails iff a write is refused |
| Controller.Reconcile | pkg/controllers/podopslifecycle/podopslifecycle_controller.go:105-218 | the stored Pod after a reconcile is one function of the Pod and the passed stage, and the reconcile fails exactly when it cannot read what it needs or a write is refused |
| Effects.GoesOnlineIff | pkg/controllers/podopslifecycle/podopslifecycle_controller.go:135-154 | a reconcile puts a Pod into service exactly when it is ready, has no lifecycle and no stay-offline, every expected finalizer is there, and the write is accepted |
| Effects.OnlineIsStored | pkg/controllers/podopslifecycle/podopslifecycle_controller.go:250-266 | what is then stored has service-available, no creation or completing mark, and is otherwise unchanged |
| Effects.PreparingLowersGate | pkg/controllers/podopslifecycle/podopslifecycle_controller.go:181-209 | while a lifecycle prepares, a reconcile puts the gate of a gated Pod down, unless that write is refused |
| Effects.CompletingRaisesGate | pkg/controllers/podopslifecycle/podopslifecycle_controller.go:181-209 | while one completes and none prepares, it puts the gate up |
| Effects.GateIsLeftAlone | pkg/controllers/podopslifecycle/podopslifecycle_controller.go:181-209 | in every other phase, and on a Pod without a gate, it leaves the gate alone |
| Effects.IdleRaisesGate | pkg/controllers/podopslifecycle/podopslifecycle_controller.go:147-153 | on an idle Pod in service it puts the gate up |
| Effects.UnreadyGoesOffline | pkg/controllers/podopslifecycle/podopslifecycle_controller.go:211-215 | an unready Pod goes out of service |
| Effects.SilenceMovesGate | pkg/controllers/podopslifecycle/podopslifecycle_controller.go:181-209 | a reconcile that reports no failure has the gate where the phases want it |
| Effects.SilenceGoesOnline | pkg/controllers/podopslifecycle/podopslifecycle_controller.go:135-145 | and has put a Pod that may go online into service |
| Effects.UnreadableFails | pkg/controllers/podopslifecycle/podopslifecycle_controller.go:130-145 | unparsable labels, or an unreadable annotation that is needed, make it fail and leave the Pod alone |
| Effects.ChecksAreRecorded | pkg/controllers/podopslifecycle/podopslifecycle_controller.go:429-463 | a passed check is recorded on every lifecycle: pre-checked and a permission for the type, or post-checked |
| Effects.ChecksAddNothingElse | pkg/controllers/podopslifecycle/podopslifecycle_controller.go:429-463 | and nothing else: a permission is only given for the type of a lifecycle that is there |
| Effects.ChecksKeepLabels | pkg/controllers/podopslifecycle/podopslifecycle_controller.go:465-492 | labels that are there keep their values |
| Machine.RewriteStaysParsable | pkg/webhook/server/generic/pod/opslifecycle/mutating.go:34-187 | an accepted rewrite of parsable labels is parsable |
| Machine.ReconcileIsMoves | pkg/controllers/podopslifecycle/podopslifecycle_controller.go:105-218 | every reconcile is a run of at most two enabled moves, and passes only the passed stage |
| Exclusion.MoveKeepsTypesDistinct | pkg/controllers/utils/podopslifecycle/utils.go:59-74 | every move keeps the operation types on a Pod distinct, if a begin does not allow several |
| Exclusion.TypesStayDistinct | pkg/controllers/utils/podopslifecycle/utils.go:59-74 | in every state of every run, with overlapping lifecycles in any phases, no two lifecycles carry the same operation type |
| Phases.MoveFits | pkg/controllers/operationjob/utils/lifecycle.go:30-80 | in which phase each guarded move can happen at all |
| Phases.PhaseIsValid | pkg/webhook/server/generic/pod/opslifecycle/validating.go:50-107 | the validating webhook admits every one of the six patterns |
| Phases.PhaseStep | pkg/webhook/server/generic/pod/opslifecycle/mutating.go:50-184 | one guarded move takes the labels exactly where the six-phase machine says; only an unreadable annotation makes an admission refuse |
| Phases.GuardedPodsAreSixPhased | pkg/webhook/server/generic/pod/opslifecycle/mutating.go:50-184 | in every state of every guarded run of a new Pod the labels are exactly one of six patterns |
| Phases.NextBeginStartsAtPreCheck | pkg/webhook/server/generic/pod/opslifecycle/mutating.go:53-67 | a resting Pod carries no residue, and the next begin is accepted and starts at the pre-check |
| Phases.PhaseIsReadable | pkg/controllers/podopslifecycle/podopslifecycle_controller.go:520-532 | the phase can be read off the labels |
| Phases.RankFalls | pkg/webhook/server/generic/pod/opslifecycle/mutating.go:69-184 | the rank rises only at a begin, every change of phase lowers it, and every awaited step changes the phase |
| Phases.BeginsBoundChanges | pkg/controllers/podopslifecycle/podopslifecycle_controller.go:429-463 | over a run each begin causes at most six changes of phase |
| Traffic.RewriteOff | pkg/webhook/server/generic/pod/opslifecycle/mutating.go:69-88 | the rewrite keeps traffic off during operations, for any number of lifecycles |
| Traffic.FinishKeepsOffIffNotPreparing | pkg/controllers/utils/podopslifecycle/utils.go:130-154 | a finish keeps that invariant iff the lifecycle is not preparing |
| Traffic.AcceptedFinishKeepsOffIff | pkg/controllers/utils/podopslifecycle/utils.go:130-154 | an accepted finish, with its admission, keeps that invariant iff the lifecycle is not preparing |
| Traffic.EarlyFinishLeaks | pkg/controllers/utils/podopslifecycle/utils.go:130-154 | a Pod and a run of two moves, an early finish and the controller going online, after which it is in service with its preparing label |
| Traffic.OffInEveryRun | pkg/webhook/server/generic/pod/opslifecycle/mutating.go:69-88 | in every run in which no lifecycle is finished while it prepares, overlapping lifecycles included, preparing, operate or operated implies no service-available |
| Traffic.GrantedRunsAreOff | pkg/webhook/server/generic/pod/opslifecycle/mutating.go:69-88 | operators that finish only granted lifecycles make such runs |
| Traffic.OffAfterReconcile | pkg/controllers/podopslifecycle/podopslifecycle_controller.go:135-145 | whole reconciles keep it too |
| GateDiscipline.PreparingKeepsGateFromRising | pkg/controllers/podopslifecycle/podopslifecycle_controller.go:181-209 | no reconcile raises the gate while any lifecycle prepares |
| GateDiscipline.GrantNeedsGateDown | pkg/webhook/server/generic/pod/opslifecycle/webhook.go:83-102 | operate is granted only with the gate down and no protection finalizer, or without a gate condition |
| GateDiscipline.GateStandsStill | pkg/controllers/podopslifecycle/podopslifecycle_controller.go:138-154 | no guarded move changes the gate while operating or in the post-check |
| GateDiscipline.GateStaysDown | pkg/controllers/podopslifecycle/podopslifecycle_controller.go:181-209 | over runs, the gate of the grant is the gate until the post-check is left |
| GateDiscipline.RoadHome | pkg/controllers/podopslifecycle/podopslifecycle_controller.go:429-463 | from every phase, in favourable surroundings, as many writes as the rank lead back to rest without an undo |
| GateDiscipline.MoveKeepsWaiting | pkg/webhook/server/generic/pod/opslifecycle/mutating.go:84-131 | every guarded move leaves a preparing Pod waiting for its gate and a completing one for gate or finalizers |
| GateDiscipline.GuardedRunsWait | pkg/webhook/server/generic/pod/opslifecycle/mutating.go:84-131 | so does every guarded run |
| GateDiscipline.FirstMoveAdvances | pkg/controllers/podopslifecycle/podopslifecycle_controller.go:163-209 | in favourable surroundings the write that a lifecycle waits for is accepted and lowers the rank |
| GateDiscipline.ReconcilesLeadHome | pkg/controllers/podopslifecycle/podopslifecycle_controller.go:105-218 | from every such state, whole reconciles on the word of the rules, and one finish if the operation is still to be done, lead back to rest, in no more acts than the rank |
| Available.ProcessUnavailable | pkg/controllers/podtransitionrule/processor/rules/available.go:150-166 | unavailable iff some function says so, with the shortest time that is given |
| Available.CountByOwner | pkg/controllers/podtransitionrule/processor/rules/available.go:174-219 | desired and current replicas per owner, in any order; fails iff a lookup fails |
| Available.ConsiderOwnerReplicas | pkg/controllers/podtransitionrule/processor/rules/available.go:174-231 | the sum over owners of what each still has to create, for every order |
| Available.DeficitReads | pkg/controllers/podtransitionrule/processor/rules/available.go:174-231 | an owner that is found under its UID with a number of replicas lacks that number less the Pods it controls, and every other owner nothing |
| Available.CountDisrupted | pkg/controllers/podtransitionrule/processor/rules/available.go:87-104 | the disrupted and available Pods, and the shortest wait |
| Available.ApprovedExactly | pkg/controllers/podtransitionrule/processor/rules/available.go:105-133 | the approvals number the least of candidates and both allowances |
| Available.Approve | pkg/controllers/podtransitionrule/processor/rules/available.go:105-133 | in any order the disrupted subjects pass, and others while both policies allow |
| Available.Quotas | pkg/controllers/podtransitionrule/processor/rules/available.go:54-72 | for a percentage the least number of targets not below it as the cap and the greatest not above it as the floor; an absolute number itself; all and none without a policy; failure exactly on a value that cannot be read |
| Available.QuotasRead | pkg/controllers/podtransitionrule/processor/rules/available.go:54-72 | these numbers are the ones that the allowances are computed with |
| Available.FilterWithin | pkg/controllers/podtransitionrule/processor/rules/available.go:87-148 | the result of the two loops under given allowances |
| Available.Filter | pkg/controllers/podtransitionrule/processor/rules/available.go:47-148 | the disrupted subjects pass, and as many others as cap and floor of the policies allow: none beyond them, and one is held back only where one more would break the policy that it is told; each subject in exactly one of passed and rejected; all are rejected with an error exactly when a policy or an owner cannot be read |
| Available.FilteredReads | pkg/controllers/podtransitionrule/processor/rules/available.go:105-148 | the allowances of the loops, read in the numbers of the policies |
| Processor.EffectiveRules | pkg/controllers/podtransitionrule/processor/processor.go:62-75 | exactly the enabled rules of the stage that no environment variable skips, each as often as in the spec, light ones first |
| Processor.RunChain | pkg/controllers/podtransitionrule/processor/processor.go:77-181 | the loop computes the fold of the rules over the books; the result covers exactly the Pods of the stage, has the shortest interval that a ruler gave, retries iff one failed or gave one, and collects the states |
| Processor.SkippedIff | pkg/controllers/podtransitionrule/processor/processor.go:101-133 | a rule passes a Pod by iff its annotation says so, no condition holds of it, or the filter does not select it; otherwise its ruler decides |
| Processor.RejectionNamesLast | pkg/controllers/podtransitionrule/processor/processor.go:159-161 | the published rejection names the last rule that rejected the Pod |
| Processor.ChainCollectsStates | pkg/controllers/podtransitionrule/processor/processor.go:140-142 | the states of the rulers are collected in the order of the chain |
| Processor.UnrejectedIffClear | pkg/controllers/podtransitionrule/processor/processor.go:101-168 | a Pod ends un-rejected iff every rule with a ruler skipped or passed it |
| Processor.PassInfoRecordsPasses | pkg/controllers/podtransitionrule/processor/processor.go:155-157 | the passed rules of a Pod are exactly those that passed it |
| Processor.SkippedIsAlwaysAsked | pkg/controllers/podtransitionrule/processor/processor.go:108-133 | a Pod that was skipped once is put to every later rule |
| Processor.OutIsNeverAsked | pkg/controllers/podtransitionrule/processor/processor.go:163-168 | a Pod that is out and was never skipped is put to no later rule |
| Processor.AskedAgainIffSkipped | pkg/controllers/podtransitionrule/processor/processor.go:101-168 | after a rejection a Pod is put to a later rule iff a rule had skipped it before |
| Processor.ChainRetries | pkg/controllers/podtransitionrule/processor/processor.go:144-153 | the interval of a chain is the shortest that a ruler gave, and it retries iff one failed or gave an interval |
| RuleController.UpdateDetail | pkg/controllers/podtransitionrule/podtransitionrule_controller.go:314-337 | the details after one stage, for any order of its Pods |
| RuleController.Process | pkg/controllers/podtransitionrule/podtransitionrule_controller.go:250-287 | the merge for one order in which the stages finish |
| RuleController.MergeHolds | pkg/controllers/podtransitionrule/podtransitionrule_controller.go:250-287 | details, retry flag and interval of a merge, said without an order; a detail names the stage, the passed rules and the rejection, and is passed iff there is none |
| RuleController.ScheduleIndependent | pkg/controllers/podtransitionrule/podtransitionrule_controller.go:250-287 | with each Pod in at most one stage every completion order merges to the same, rule states as a multiset |
| RuleController.OrderMattersIffShared | pkg/controllers/podtransitionrule/podtransitionrule_controller.go:314-337 | for two stages the details depend on the order iff they share a Pod |
| RuleController.SixPhasedIsInOneStage | pkg/controllers/podopslifecycle/podopslifecycle_controller.go:520-532 | a Pod of a guarded run is in at most one stage |
| Rounds.UnavailableIsOut | pkg/controllers/podtransitionrule/register/common.go:29-33 | the registered functions call a Pod unavailable iff it is unready, terminal or out of service |
| Rounds.RoundPublishes | pkg/controllers/podtransitionrule/podtransitionrule_controller.go:178-213 | a rule reconcile publishes as passed exactly what Filter passed, and permits exactly those to leave the pre-check |
| Budget.TrafficKept | pkg/webhook/server/generic/pod/opslifecycle/mutating.go:69-94 | no guarded move but the passed pre-check takes service-available from a Pod |
| Budget.MoveKeepsInService | pkg/controllers/podopslifecycle/podopslifecycle_controller.go:163-179 | a Pod in service stays in service under every move but the passed pre-check |
| Budget.RoundCharges | pkg/controllers/podtransitionrule/processor/rules/available.go:83-133 | after a round only Pods charged before, or newly passed, are charged |
| Budget.RoundGrants | pkg/controllers/podtransitionrule/processor/rules/available.go:73-133 | a round adds Pods only within max-unavailable less uncreated replicas, and min-available |
| Budget.StepKeepsBudget | pkg/controllers/podtransitionrule/processor/rules/available.go:83-133 | every step keeps both policies |
| Budget.BudgetHolds | pkg/controllers/podtransitionrule/processor/rules/available.go:83-133 | every reachable state keeps passed or unavailable Pods, and the others, within both policies, in the numbers and percentages of the policies |
| Budget.BudgetSeen | pkg/webhook/server/generic/pod/opslifecycle/mutating.go:69-94 | in every reachable state Pods in operation are out of service; those are at most n, or fewer than one more than the percentage, of the targets, and the others at least n, or more than one fewer than the percentage |
| Budget.ReconcileIsSteps | pkg/controllers/podopslifecycle/podopslifecycle_controller.go:163-179 | a lifecycle reconcile on the word of the rule is at most two legal steps |
| Recreate.UncreatedIsMissing | pkg/controllers/podtransitionrule/processor/rules/available.go:174-231 | for one owner with a Pod left, the computed deficit is desired less current replicas |
| Recreate.PassChargesNobodyIff | pkg/controllers/podtransitionrule/checker/checker.go:45-84 | a passed pre-check charges nobody new iff the status names the Pod or the Pod is charged already |
| Recreate.UnnamedPodLeaks | pkg/controllers/podtransitionrule/checker/checker.go:45-84 | a Pod that the status does not name passes its pre-check under a quota of none |
| Recreate.RoundConserves | pkg/controllers/podtransitionrule/processor/rules/available.go:73-86 | an approval round keeps disrupted Pods and missing replicas within the quota |
| Recreate.DeleteConserves | pkg/controllers/podtransitionrule/processor/rules/available.go:73-86 | so does deleting a disrupted Pod |
| Recreate.CreateConserves | pkg/controllers/podtransitionrule/processor/rules/available.go:73-86 | so does creating a missing Pod that is not available yet |
| Recreate.RecreationConservesBudget | pkg/controllers/podtransitionrule/processor/rules/available.go:73-133 | over runs of rounds, lifecycles, deletions and creations disrupted Pods and missing replicas stay within the quota |
| Recreate.RecreationSeen | pkg/controllers/podtransitionrule/processor/rules/available.go:73-133 | at least desired less quota Pods are in service in every reachable state |
| WebhookRule.RecordedConserves | pkg/controllers/podtransitionrule/processor/rules/webhook.go:362-384 | a carried task keeps its Pods; they only move from processing to approved, which stay disjoint |
| WebhookRule.CarriedAreSeparate | pkg/controllers/podtransitionrule/processor/rules/webhook.go:132-217 | tasks that share no Pod are carried on as tasks that share no Pod |
| WebhookRule.NewTaskIsSeparate | pkg/controllers/podtransitionrule/processor/rules/webhook.go:219-342 | a new task takes no Pod of a carried one |
| WebhookRule.BothIffDropped | pkg/controllers/podtransitionrule/processor/rules/webhook.go:206-232 | a Pod is passed and rejected at once iff a stopped task let go of it and the new request approves it |
| WebhookRule.PassedAndRejected | pkg/controllers/podtransitionrule/processor/rules/webhook.go:206-232 | an input on which that happens |
| WebhookRule.Webhook.RecordTaskInfo | pkg/controllers/podtransitionrule/processor/rules/webhook.go:362-384 | the task is recorded with the approvals among its processing Pods |
| WebhookRule.Webhook.UpdateInterval | pkg/controllers/podtransitionrule/processor/rules/webhook.go:386-390 | afterwards there is an interval, one of the two given, and none of them is shorter |
| WebhookRule.Webhook.Settle | pkg/controllers/podtransitionrule/processor/rules/webhook.go:207-216 | what a poll that does not approve all means for each Pod of the task |
| WebhookRule.Webhook.TraceTask | pkg/controllers/podtransitionrule/processor/rules/webhook.go:132-217 | what one task grants, holds, traces or drops, and that it is carried on exactly when it is live and either approved as a whole or still running |
| WebhookRule.Webhook.TraceTasks | pkg/controllers/podtransitionrule/processor/rules/webhook.go:132-217 | what all tasks together grant and hold, Pod by Pod, and that exactly those are recorded that carry on |
| WebhookRule.NobodyIsForgotten | pkg/controllers/podtransitionrule/processor/rules/webhook.go:132-217 | each task that carries on is recorded under its ID, with its successor |
| WebhookRule.SurvivesIffIdIsKept | pkg/controllers/podtransitionrule/processor/rules/webhook.go:296-326 | a task that carries on is published iff the response does not start a task under its ID |
| WebhookRule.ReusedIdForgets | pkg/controllers/podtransitionrule/processor/rules/webhook.go:296-326 | an input on which a reused ID makes the rule forget a running task and the Pod that it has in process |
| WebhookRule.Webhook.Ask | pkg/controllers/podtransitionrule/processor/rules/webhook.go:231-342 | what each kind of response means for the Pods that were asked for, and which task it starts; nobody passes but on a finished name or an unconditional success |
| WebhookRule.Webhook.ConvTaskInfo | pkg/controllers/podtransitionrule/processor/rules/webhook.go:344-350 | the published tasks are the recorded ones, in some order |
| WebhookRule.Webhook.Do | pkg/controllers/podtransitionrule/processor/rules/webhook.go:103-342 | passed and rejected cover exactly the subjects; a Pod passes only if it was approved before, if a live task of the service has approved it, or if the service finished it or succeeded without a poll; for tasks that share no Pod, what becomes of every Pod under every kind of response, who is held back by which task, when a Pod is passed and rejected, which tasks are published, the error and the interval |
| WebhookRule.LawfulByBooks | pkg/controllers/podtransitionrule/processor/rules/webhook.go:103-342 | the law of the approvals, in terms of names, polls and the response alone |
| WebhookRule.HeldByBooks | pkg/controllers/podtransitionrule/processor/rules/webhook.go:183-216 | a running task holds back what it has not approved, under its ID; after a stopped one a yes passes the Pod although it stays rejected |
| WebhookRule.ReportsByBooks | pkg/controllers/podtransitionrule/processor/rules/webhook.go:231-342 | the call fails iff the service cannot be reached or polled, and asks to be repeated iff it refused |
| WebhookRule.CarriedReads | pkg/controllers/podtransitionrule/processor/rules/webhook.go:132-217 | a task is carried on iff a Pod that it has in process is open and it was approved as a whole or is running; its approved Pods move |
| WebhookRule.PublishedReads | pkg/controllers/podtransitionrule/processor/rules/webhook.go:285-342 | the published tasks are the one that the response starts, with the Pods asked for, and those carried on under other IDs |
| Expectation.Item.Set | pkg/utils/expectation/resourceversion.go:105-124 | a counter never falls, is at least the number it is given, and ignores what is no number |
| Expectation.Expectations.ExpectUpdate | pkg/utils/expectation/resourceversion.go:87-96 | the counter of the key is raised, or added; no other moves |
| Expectation.Expectations.SatisfiedExpectations | pkg/utils/expectation/resourceversion.go:53-78 | satisfied iff there is no counter or the version is past it |
| Expectation.Expectations.DeleteExpectations | pkg/utils/expectation/resourceversion.go:45-51 | exactly that counter goes |
| ReadYourWrites.WriteVouches | pkg/controllers/podtransitionrule/podtransitionrule_controller.go:210-218 | a status write keeps the invariant, whether the controller hears of its success or not |
| ReadYourWrites.StepVouches | pkg/controllers/podtransitionrule/podtransitionrule_controller.go:116-119 | every step keeps it: without a counter the cache, and past the counter every version, is as new as the last write |
| ReadYourWrites.ReconcileSeesItsLastWrite | pkg/controllers/podtransitionrule/podtransitionrule_controller.go:105-220 | a reconcile that goes past its check sees its last acknowledged write, and a cache that has caught up goes past |
| Targets.Sort | pkg/controllers/operationjob/opscore/candidate.go:52-70 | the in-place sort arranges the same targets, started ones first, then by index |
| Targets.DecideByPartition | pkg/controllers/operationjob/opscore/candidate.go:38-50 | the first candidates after the sort are as many as the partition admits, the first in its order |
| Targets.SortSelectsPrefix | pkg/controllers/operationjob/opscore/candidate.go:38-70 | while only targets below the partition were started, the sort selects exactly the first targets of the spec |
| Jobs.EnsureActiveDeadline | pkg/controllers/operationjob/operationjob_manager.go:250-268 | started targets fail up to the first that still has time |
| Jobs.OperateTargets | pkg/controllers/operationjob/operationjob_manager.go:105-168 | the chosen candidates start, wait or fail; no other changes |
| Jobs.FollowTargets | pkg/controllers/operationjob/operationjob_manager.go:184-247 | the chosen candidates follow their action; one becomes Succeeded only if its action has, and Failed only if its action has; no other changes |
| Jobs.WorkOn | pkg/controllers/operationjob/operationjob_controller.go:149-159 | the work on the sorted array is the work on the chosen targets, wherever the sort put them |
| Jobs.ReleaseTargets | pkg/controllers/operationjob/operationjob_manager.go:304-331 | failed targets are released where that succeeds, and whether all are |
| Jobs.EndCandidate | pkg/controllers/operationjob/operationjob_controller.go:176-179 | a finished candidate without an end time gets one; no other changes |
| Jobs.CollectDetails | pkg/controllers/operationjob/operationjob_controller.go:176-181 | the end times and the details of all targets, whatever their order |
| Jobs.CountProgress | pkg/controllers/operationjob/operationjob_controller.go:183-198 | the counts over the array are the counts over the targets |
| Jobs.CalculateStatus | pkg/controllers/operationjob/operationjob_controller.go:167-228 | the computed status as a function of the targets |
| Jobs.Job.ListTargets | pkg/controllers/operationjob/operationjob_manager.go:58-102 | the candidates in spec order with their recorded status, or a new one |
| Jobs.Job.EnsureFailedTargetsReleased | pkg/controllers/operationjob/operationjob_manager.go:287-301 | what is released and written first, and whether the reconcile goes on |
| Jobs.Job.DoReconcile | pkg/controllers/operationjob/operationjob_controller.go:149-165 | the chosen targets are worked on and the status is written if that succeeds |
| Jobs.Job.Reconcile | pkg/controllers/operationjob/operationjob_controller.go:107-165 | what a reconcile may leave in the stored status; a target becomes Succeeded only if its action has, and its Pod is back in service under a lifecycle, and Failed only if its action has, its Pod is gone, or it has overrun the deadline |
| Jobs.FinishedForAReason | pkg/controllers/operationjob/operationjob_manager.go:184-247 | the same of every reconcile, without the functions that compute it |
| Jobs.DeadlineFails | pkg/controllers/operationjob/operationjob_manager.go:250-268 | the deadline fails exactly the unfinished targets that, with every started target before them, have overrun it |
| Jobs.CountsAddUp | pkg/controllers/operationjob/operationjob_controller.go:183-198 | the counts per progress sum to the total |
| Jobs.SummedIsExact | pkg/controllers/operationjob/operationjob_controller.go:167-228 | a computed status is Succeeded iff all targets are, Failed iff all are finished and one failed, and its counts add up |
| Jobs.ReconcileLatches | pkg/controllers/operationjob/operationjob_manager.go:192-245 | one reconcile changes no finished target, and computes exact statuses |
| Jobs.ProgressLatches | pkg/controllers/operationjob/operationjob_controller.go:167-228 | over every history no finished target changes and every computed status is exact |
| Jobs.ReconcileRefinesPrefix | pkg/controllers/operationjob/opscore/candidate.go:38-70 | a reconcile with the sort equals one that works on the plain prefix, and starts nothing beyond it |
| Jobs.OnlyPrefixStarts | pkg/controllers/operationjob/operationjob_manager.go:113-165 | over every history with a widening partition no target at or beyond it is started |
| Jobs.NewJobsWorkOnPrefixes | pkg/controllers/operationjob/operationjob_controller.go:107-165 | every reconcile of a new job works on the plain prefix |
| Fates.WorkIsDone | pkg/controllers/operationjob/operationjob_manager.go:105-247 | in a reconcile that nothing stands in the way of, a target that the job may work on and that is not finished starts, waits, succeeds or fails as attempt, action, clean-up and availability say, with start and end recorded |
| Fates.UnhinderedGoesOn | pkg/controllers/operationjob/operationjob_manager.go:286-301 | known action, successful writes and releases let a reconcile work on its targets |
| Fates.TargetAdvances | pkg/controllers/operationjob/operationjob_manager.go:303-331 | a target is released only as a failed one and for good, and its end is recorded once |
| Fates.FailedAreReleased | pkg/controllers/operationjob/operationjob_manager.go:286-301 | failed targets are released when nothing stands in the way |
| Fates.WorksWhenReleased | pkg/controllers/operationjob/operationjob_controller.go:107-165 | targets are started or finished only when the action is known, the status can be written, and all failed targets are released |
| Fates.JobKeepsTime | pkg/controllers/operationjob/operationjob_controller.go:200-222 | the start and the end of the job are recorded once, the end when it is over, and it is pending as long as all its targets are |
| Fates.FinishesAreEarned | pkg/controllers/operationjob/operationjob_manager.go:184-268 | over every history a target that has come to succeed did so in a turn in which its action had, and one that has come to fail in a turn with a cause for it |
| Fates.SucceededJobsAreDone | pkg/controllers/operationjob/operationjob_controller.go:200-216 | a job that has succeeded has carried out its action on every target |
| Fates.FailedJobsHaveLost | pkg/controllers/operationjob/operationjob_controller.go:200-216 | a job that has failed has a target with a cause for failing |
| Ordering.LessIsWeak | pkg/controllers/utils/poddecoration/strategy/types.go:33-118 | the order is asymmetric and "not before" is transitive, so that sorting is defined |
| Ordering.LessComparesPlaces | pkg/controllers/utils/poddecoration/strategy/types.go:33-118 | the ladder of comparisons is the lexicographic order of thirteen numbers, and leaves Pods unordered only where all of them agree |
| Rollout.Sort | pkg/controllers/utils/poddecoration/strategy/manager.go:400-404 | the sort arranges the same Pods, none before one that it should follow |
| Rollout.TailHoldsBack | pkg/controllers/utils/poddecoration/strategy/manager.go:405-411 | the tail of any sorted arrangement is a set to hold back |
| Rollout.Manager.UpdatePartitionPods | pkg/controllers/utils/poddecoration/strategy/manager.go:398-412 | exactly the partition's number of Pods is held back, none before a Pod that is not |
| Rollout.Manager.CollectLive | pkg/controllers/utils/poddecoration/strategy/manager.go:313-324 | the active Pods and their instance keys, or failure |
| Rollout.Manager.KeepPlaceholders | pkg/controllers/utils/poddecoration/strategy/manager.go:325-351 | the vanished Pods that stay as placeholders, in any order, or failure |
| Rollout.Manager.UpdateSelectedPods | pkg/controllers/utils/poddecoration/strategy/manager.go:298-361 | the new fleet and the Pods held back; a failed resync changes neither |
| Rollout.LiveReads | pkg/controllers/utils/poddecoration/strategy/manager.go:313-324 | the live Pods are the active ones that could be looked up |
| Rollout.ResyncReads | pkg/controllers/utils/poddecoration/strategy/manager.go:313-351 | the new fleet is the live Pods, and of the old ones those that are selected, whose instance no live Pod has, and whose instance is still allocated |
| Rollout.ResyncFailsReads | pkg/controllers/utils/poddecoration/strategy/manager.go:313-340 | a resync fails iff an active Pod cannot be looked up, or the context of a vanished and selected one cannot be read |
| Rollout.Manager.GetSuitableRevision | pkg/controllers/utils/poddecoration/strategy/manager.go:369-396 | none iff the selector does not match; the updated revision without a strategy, for Pods that its selector matches, and for Pods that a partition does not hold back; the current one otherwise |
| Rollout.PartitionSuits | pkg/controllers/utils/poddecoration/strategy/manager.go:369-412 | after a resync by partition the updated revision suits exactly the Pods that are not held back, which number the fleet less the partition |
| Rollout.ResyncKeepsKeysDistinct | pkg/controllers/utils/poddecoration/strategy/manager.go:298-350 | a resync keeps instance keys distinct |
| Rollout.ResyncConservesKeys | pkg/controllers/utils/poddecoration/strategy/manager.go:298-350 | the keys after a resync are the live ones and the old ones still allocated and selected |
| Rollout.SteadyFleet | pkg/controllers/utils/poddecoration/strategy/manager.go:298-358 | while instances stay allocated and selected the fleet keeps its instances and its size |
| Rollout.DeleteThenRecreate | pkg/controllers/utils/poddecoration/strategy/manager.go:298-358 | deleting a Pod and recreating its instance, under any name, leaves the partition's arithmetic as it was |
| Upgrades.ResyncHoldsNoCarrier | pkg/controllers/utils/poddecoration/strategy/types.go:33-40 | a resync never holds back a Pod that carries the updated revision |
| Upgrades.StepKeepsInRoom | pkg/controllers/utils/poddecoration/strategy/manager.go:369-412 | every step keeps the carriers within the room of the partition and downgrades none |
| Upgrades.UnsyncedDecorationIff | pkg/controllers/utils/poddecoration/strategy/manager.go:298-396 | before a first resync succeeds, decorating a Pod keeps the carriers within the room of the partition iff it carries the revision, none suits it, or there is room for one more |
| Upgrades.UnsyncedRolloutLeaks | pkg/controllers/utils/poddecoration/strategy/manager.go:298-396 | a Pod that the partition should hold back and that is upgraded because no resync has succeeded |
| Upgrades.RolloutNeverDowngrades | pkg/controllers/utils/poddecoration/strategy/manager.go:369-412 | over every run in which Pods decorated before the first resync fit, carriers stay within the room, are never held back, and keep their revision |

## Left out

- Stale reads of Pods: a reconcile of the lifecycle controller or of a rule, and a write with its admissions, are atomic, so a stale view of a Pod combined with a reused verdict is outside the budget theorem.
- Overlapping lifecycles in the six-phase, gate and budget results: two lifecycles in different phases satisfy none of the count tests of the webhook; the traffic result and the gate's "no rise while preparing" do cover them.
- Beginning a lifecycle under an ID that another operation type already uses, which overwrites the type.
- Operations on terminating Pods, which the lifecycle controller ignores, and the removal of unselected Pods from a rule's annotations.
- Cleaning of dirty expected finalizers: its result never changes the outcome, and the finalizers are free to change between steps.
- Extra update functions of Begin and Finish, BeginWithCleaningOld, and the operation delay in AllowOps.
- Expectation timeouts, which panic, and the width of 64 bits of a parsed version.
- Recreate.RecreationConservesBudget: a Pod in service that the rule's status does not name yet waits before it passes a pre-check, which is exactly what is needed (Recreate.PassChargesNobodyIff); the new Pod of a recreation is out of service when it appears.
- Rounds.RoundPublishes: one rule without skip, condition or filter; chains of several rules are covered by the results on Processor alone.
- Available.Filter: two Pods that name the same owner UID agree on the owner's name, as a UID names one object.
- WebhookRule.Webhook.Do: a task whose poll result is missing, which the original dereferences, and the history of finished tasks, into which approved Pods are written as processing.
- HTTP, the timers of polling, and the clients, watches, recorders and logs of Kubernetes.
- Jobs.Job.Reconcile: its result, that is, when to reconcile again; target names are distinct; deletion of the job, its time to live and the details of its actions are not modelled, and the partition is not negative, as the webhook of the job enforces.
- Upgrades.RolloutNeverDowngrades: the fleet is fixed, the decoration has something to roll out, and before the first resync only Pods are decorated that fit, which is exactly what is needed (Upgrades.UnsyncedDecorationIff); how CollaSets carry out an upgrade is not part of this model.
- The events that tell CollaSets about a resync, and the per-resync cache of resource contexts.
- CollaSet scaling and updating, resource contexts, ReplaceHandler, GraceDelete, the label manager and the conversion and validation of specs.
