# Telemetry operator: a verified model of its reconcilers

The telemetry operator reconciles five kinds of custom resources of an OpenStack
control plane on Kubernetes. Every reconciler is a restartable state machine: one
`Reconcile` call reads a resource, makes a sequence of API calls any of which may
fail, writes conditions and hashes into the status of the in-memory instance, and
leaves it to a deferred patch to persist them. This project models that machinery
in Dafny and proves what holds over every run of such calls, whatever fails and
whoever acts in between.

## Layout

| file | contents |
|---|---|
| Conditions, Cluster | condition lists; the API server as a store with finalizers, deletion marks and statuses; what others may do to it |
| Stages | one pass as a program of stages, answered by an adversarial oracle; the deferred patch; runs |
| Programs | the Autoscaling (Aodh) and Ceilometer reconcilers as such programs |
| Checks, PassOutcomes | which answers let a stage or a pass go on, and what passes do for every combination of answers |
| Controllers | the same two reconcilers in imperative form, proved to follow the programs |
| Safety, Discipline, Instances | invariants and safety over whole runs, generic and for the two reconcilers |
| Convergence, CeilometerConvergence, Readiness | closed form of a failure-free pass; convergence, quiescence, readiness, from a new resource to a Ready one |
| GateInputs, InputHash | what a pass has collected at the gate, the names under which it is hashed, and what the hash distinguishes |
| TelemetryParent, TelemetryController | the Telemetry parent and its children, as functions and in imperative form |
| TelemetryReadiness, TelemetryCopies, TelemetryRuns, TelemetryConvergence | readiness, what is copied into the children, run invariants and convergence of parent and children |
| ChildRefinement, JointConvergence, JointOutcome | the children's own passes refine the protocol; convergence of the operator as a whole, and what it leaves of disabled and enabled services |
| Admission, Builders | the defaulting webhooks, the copy into children, the resources built from a MetricStorage |
| Watches, StorageReadiness, MetricStorageController, Targets, Domain | watch registration, MetricStorage passes and their readiness, scrape targets, the domain check |
| WatchMaps | the functions that map watched objects to requests |

`dafny verify dfyconfig.toml` checks everything.

## How a pass is modelled

A pass is a sequence of stages, one per library or API call together with the
status writes around it. Before each stage the oracle may let everybody else act:
users create, edit and delete the resource, foreign controllers create, delete and
take finalizers off the dependents. The oracle answers each call with success, a
requeue, not-found or another error, and may carry a call out although it reports an
error. A crash is a call that fails followed by a deferred patch that fails. The patch
goes to whatever object has the name by then; its metadata part and its status part
may fail separately.

## Assumptions about code that is not part of this model

- Condition lists are maps by type: `Set`, `MarkTrue` and `MarkFalse` replace or
  insert, `Remove` deletes. `AllSubConditionIsTrue` ignores Ready and asks for True of
  the rest; `Mirror` is never True while some condition is not.
- `SetHash` reports a change iff the stored value differs and keeps other keys.
  `MergeEnvs` followed by `ObjectHash` is a deterministic function of the variable map;
  where a theorem needs it to be injective or non-empty, it says so.
- `CreateOrPatch` writes nothing when its mutate function fails, and
  `SetControllerReference` fails on an object of another controller.
- Reads are linearizable: not-found is answered exactly when the object is absent, so the
  model takes that answer from the store. One resource is never reconciled twice at the
  same time. There is one Autoscaling and one Ceilometer per namespace.
- Nobody but the operator adds its finalizer to anything or takes it off the resource.
- What the deferred patch persists while the condition list is still nil is not
  determined by the operator, so the oracle decides it (`nilReady`).
- `ParseIP` and `ParseQuantity` are unknown functions; the latter accepts "20G".

## What the proofs showed about the code

- Autoscaling marks InputReady False when a secret is missing and has no code that
  marks it True, so one missing secret keeps that resource from ever being Ready
  again (`AutoscalingInputSticks`); Ceilometer recovers (`CeilometerInputRestored`).
- Autoscaling and MetricStorage drop the error of the deferred patch, so a pass can end
  silently without having done anything (`AutoscalingLostWakeUp`,
  `MetricStorageLostWakeUp`); the exact conditions are `AutoscalingWakeUpExactly` and
  `MetricStorageWakeUpExactly`.
- The scrape targets can depend on the iteration order of a Go map; the exact condition
  is `OrderFreeExactly`.
- The transport of Autoscaling is named after the service "aodh", but Telemetry names
  the resource "autoscaling", so the watch on the transport secret never reaches it
  (`ChildrenAndTheirTransports`).
- The start-up defaults of Ceilometer lack the node exporter image
  (`NodeExporterOnlyFromTelemetry`).
- A custom monitoring stack stays in use until the child is deleted, except that
  copying an empty, non-nil one switches back (`CustomStackSticks`).
- Building a MonitoringStack does not commute with defaulting when the strategy or the
  retention is blank; the exact condition is `BuildStackCommutes`. A comment at
  api/v1beta1/metricstorage_types.go:44-45 promises that an empty strategy is passed
  on, but the webhook replaces it; the model follows the code.

## Model

| member | source | states |
|---|---|---|
| Conditions.WithReady | controllers/autoscaling_controller.go:128-140 | the deferred update makes Ready True iff every other condition is True and touches nothing else |
| Cluster.ActsKeep | controllers/autoscaling_controller.go:147-150 | no interference takes our finalizer off the resource, puts it on a dependent, replaces the uid of a held resource, forges a status or creates a workload |
| Safety.PassCovered | controllers/aodh_controller.go:45-98 | one pass keeps "a dependent that holds our finalizer implies a stored resource that holds it", whatever fails and whoever acts in the middle |
| Safety.RunCovered | controllers/autoscaling_controller.go:193-219 | every run of passes and interference keeps that invariant |
| Safety.FinalizerSafety | controllers/autoscaling_controller.go:202-220 | no run leaves our finalizer on anything once the resource is gone |
| Safety.PassGated | controllers/autoscaling_controller.go:432-457 | a workload that a pass leaves was there before it or carries a hash already persisted when the pass began |
| Discipline.DeployHashWasRecorded | controllers/ceilometer_controller.go:391-423 | whenever any pass reaches its deployment, the hash it deploys was in the stored status before the pass began |
| Safety.GateSafety | controllers/autoscaling_controller.go:472-490 | the hash of whatever workload a run leaves was persisted at the start of some earlier pass of that run |
| Safety.NoLostWakeUp | controllers/ceilometer_controller.go:117-177 | a pass on an existing object that returns nothing ran to its end or left the object changed; without error reporting only if the patch succeeded |
| Safety.WakeUpExactly | controllers/autoscaling_controller.go:128-150 | whatever others do meanwhile, a pass that stops silently leaves the resource that it read changed iff the part of the patch that has something to write is accepted |
| Safety.RunKeepsInput | controllers/autoscaling_controller.go:606-631 | a program that never marks InputReady True keeps it False, and one that reads no secret keeps it as it is |
| Safety.InputNeverRecovers | controllers/autoscaling_controller.go:316-319 | once InputReady is False in the stored status, no run makes that resource Ready or InputReady again |
| Programs.AutoscalingDisciplined | controllers/aodh_controller.go:45-98 | the Autoscaling programs take hold only of the three dependents, deploy only behind the gate, and drop the finalizer only after letting go of all three |
| Programs.CeilometerDisciplined | controllers/ceilometer_controller.go:179-204 | the same shape for Ceilometer and its keystone service |
| Programs.AutoscalingNeverRecovers | controllers/autoscaling_controller.go:241-466 | no stage of any Autoscaling program marks InputReady True |
| Discipline.RunMarks | controllers/aodh_controller.go:100-253 | the condition writes of a run, mirrored and RBAC ones included, are those of the stages it passed, in their order, then at most one of the stage that stopped it; a False mark is still in force at the end |
| Discipline.AutoscalingStageDiscipline | controllers/autoscaling_controller.go:270-463 | all condition writes of an Autoscaling pass are a prefix of one fixed order in which every mark is True, followed by at most one more; a False mark can only be that last write, and then the pass does not end Ready |
| Checks.StageVerdict | controllers/aodh_controller.go:100-445 | each stage goes through iff its call found no error, asked for no requeue, found a transport secret, found memcached or heat ready, or found its hash recorded, as the stage requires; a stage that stops returns exactly the requeue and the error that its answer calls for |
| Checks.StageFields | controllers/autoscaling_controller.go:276-447 | every status field and every collected value is written by its one stage, from the answer of that stage, and left alone by all others and by failing calls |
| Checks.LogIsTruthful | controllers/autoscaling_controller.go:127-145 | after any pass the condition list is the one that was read with the logged writes replayed in order and Ready recomputed |
| Checks.RbacWrites | controllers/autoscaling_controller.go:249-270 | ReconcileRbac touches its own three conditions and no others |
| Checks.FetchOutcome | controllers/autoscaling_controller.go:102-114 | a failed read is reported and a missing object is not; nothing is done in either case |
| Checks.RunStops | controllers/autoscaling_controller.go:241-466 | a run stops at the first stage that its answers do not let through, with that result |
| Checks.ReachesAodhGate | controllers/autoscaling_controller.go:241-430 | an Autoscaling pass reaches the gate iff every call before it succeeded and memcached and heat were ready |
| Checks.AutoscalingCompletesExactly | controllers/autoscaling_controller.go:99-466 | under any interference, a pass completes iff every listed answer is good and the recorded hash is that of the inputs; a deletion, iff no release failed |
| PassOutcomes.AutoscalingMarksEarned | controllers/autoscaling_controller.go:325-389 | whatever a pass marks True it has seen to be so: memcached and heat found and ready, a transport secret, the database and its sync done, replicas up |
| PassOutcomes.AutoscalingWaits | controllers/autoscaling_controller.go:326-388 | a pass that finds memcached or heat missing or not ready ends there with the condition False, not Ready, an error and, unless the read itself failed, a requeue; no hash is recorded and nothing deployed |
| PassOutcomes.AutoscalingDeploysOnlyReady | controllers/autoscaling_controller.go:432-463 | a pass leaves a new workload only if all inputs were found, memcached and heat were ready and the hash was recorded |
| PassOutcomes.AutoscalingQueries | controllers/autoscaling_controller.go:400-415 | the configuration is rendered for the Prometheus of the spec, or else for the one of MetricStorage in the namespace on port 9090 |
| PassOutcomes.CeilometerCompletesExactly | controllers/ceilometer_controller.go:88-459 | the exact condition for a Ceilometer pass |
| PassOutcomes.LateErrors | controllers/autoscaling_controller.go:449-463 | behind the gate Autoscaling returns the error of a call only if it asks for no requeue, Ceilometer always |
| PassOutcomes.AutoscalingLetsGoExactly | controllers/aodh_controller.go:45-98 | a deletion gives up the finalizer iff no release of a dependent failed |
| Instances.AutoscalingFinalizers | controllers/aodh_controller.go:45-98 | in every run a database, keystone service or endpoint with our finalizer implies an Autoscaling with it |
| Instances.CeilometerFinalizers | controllers/ceilometer_controller.go:179-204 | the same for Ceilometer, which holds at most its keystone service |
| Instances.AutoscalingDeletionCompletes | controllers/autoscaling_controller.go:202-220 | one failure-free pass on a deleted Autoscaling frees all dependents and lets the resource go |
| Instances.CeilometerDeletionCompletes | controllers/ceilometer_controller.go:179-204 | the same for Ceilometer |
| Instances.AutoscalingGate | controllers/autoscaling_controller.go:432-457 | every CONFIG_HASH that a run of Autoscaling deploys was recorded before one of its passes began |
| Instances.CeilometerGate | controllers/ceilometer_controller.go:382-423 | the same for Ceilometer |
| Instances.CeilometerWakeUp | controllers/ceilometer_controller.go:117-177 | Ceilometer never loses a wake-up, patch errors included |
| Instances.AutoscalingWakeUp | controllers/autoscaling_controller.go:128-199 | under any interference, Autoscaling loses no wake-up when its patch succeeds |
| Instances.AutoscalingWakeUpExactly | controllers/autoscaling_controller.go:128-199 | whatever others do meanwhile, a silent incomplete pass leaves the resource that it read changed iff the metadata part (new finalizer) or a changed status part of its patch is accepted |
| Instances.AutoscalingLostWakeUp | controllers/autoscaling_controller.go:141-150 | the other side: every new Autoscaling whose patch is refused loses its wake-up, silently |
| Instances.AutoscalingInputSticks | controllers/autoscaling_controller.go:395-398 | after a pass that failed to read a secret and was persisted, InputReady stays False and Ready is never True in any continuation |
| Instances.StoredIsLast | controllers/autoscaling_controller.go:127-145 | unless the deferred patch fails, the stored status of the resource that was read is the one in memory, under any interference |
| Instances.CeilometerInputRestored | controllers/ceilometer_controller.go:327-342 | every Ceilometer pass that reads both secrets ends with InputReady True, whatever fails later, and stores it unless its patch fails |
| Convergence.RunWrites | controllers/aodh_controller.go:100-445 | a run to the end of its program has overlaid exactly the conditions its stages write |
| Convergence.CalmPass | controllers/autoscaling_controller.go:421-463 | closed form of a failure-free Autoscaling pass: record the hash of the current configuration and stop, or deploy everything with it |
| Convergence.AutoscalingConverges | controllers/aodh_controller.go:206-208 | any four or more failure-free passes that agree on what is hashed and on the hostname, with any replicas, mirrored conditions, job hashes and addresses, converge from any initialised state with any old hash and hostname; three suffice iff the first gate was open or both hostnames hash alike |
| Convergence.UnchangedHasConverged | controllers/autoscaling_controller.go:432-447 | a failure-free pass that leaves the stored resource unchanged has converged, so the resource's own wake-ups drive convergence |
| Convergence.AutoscalingQuiescent | controllers/autoscaling_controller.go:421-463 | the next pass with the answers of the last one changes nothing at all, in either order of the endpoint map |
| Convergence.AutoscalingStaysConverged | controllers/autoscaling_controller.go:421-463 | any number of further failure-free passes that agree on what is hashed and on the hostname keep the final configuration recorded and deployed |
| Convergence.AutoscalingStaysQuiet | controllers/autoscaling_controller.go:421-463 | any number of further passes with the answers of the last one, in any orders of the endpoint map, change nothing at all |
| Convergence.AutoscalingBringUp | controllers/autoscaling_controller.go:147-191 | from any resource that is not marked for deletion, a new one included, six or more such passes converge and keep its spec |
| Convergence.ReadyAfterCalm | controllers/autoscaling_controller.go:127-140 | after a completed healthy pass Autoscaling is Ready iff every condition that the pass does not write was already True |
| CeilometerConvergence.CalmCeilometerPass | controllers/ceilometer_controller.go:261-459 | closed form of a failure-free Ceilometer pass |
| CeilometerConvergence.CeilometerConverges | controllers/ceilometer_controller.go:382-439 | any two or more failure-free passes that agree on what is hashed converge, and the next with the answers of the last changes nothing; one suffices iff the hash was recorded or already deployed |
| CeilometerConvergence.CeilometerStaysConverged | controllers/ceilometer_controller.go:382-439 | any number of further such passes keep it so |
| CeilometerConvergence.CeilometerBringUp | controllers/ceilometer_controller.go:137-177 | from any resource that is not marked for deletion, a new one included, four or more such passes converge |
| CeilometerConvergence.CeilometerReadyAfterCalm | controllers/ceilometer_controller.go:117-129 | after a completed healthy pass Ceilometer is Ready iff every condition outside its own list was already True |
| Readiness.AutoscalingFirstList | controllers/autoscaling_controller.go:155-188 | the first list holds exactly the twelve conditions and Ready, all Unknown |
| Readiness.CeilometerFirstList | controllers/ceilometer_controller.go:142-165 | the same for the seven of Ceilometer |
| Readiness.AutoscalingBecomesReady | controllers/autoscaling_controller.go:127-191 | a new Autoscaling, or any with only its own conditions in the list, is Ready after six failure-free passes of the same inputs, the last one in healthy surroundings |
| Readiness.CeilometerBecomesReady | controllers/ceilometer_controller.go:116-177 | the same for Ceilometer in four |
| Controllers.RunSwallows | controllers/autoscaling_controller.go:449-463 | behind the gate a non-empty result of Autoscaling hides the error and nothing else differs |
| Controllers.Instance.GetSecret | controllers/autoscaling_controller.go:605-631 | follows the stage that reads a secret and files its hash; a missing secret is an error with a requeue |
| Controllers.Instance.RequireReady | controllers/autoscaling_controller.go:325-389 | goes through iff memcached or heat was found and ready, which its condition then says; otherwise an error and, unless the read itself failed, a requeue |
| Controllers.Instance.EnsureTransportURL | controllers/autoscaling_controller.go:276-308 | follows the transport stage, which goes through iff the transport has a secret |
| Controllers.Instance.PassGate | controllers/autoscaling_controller.go:432-447 | follows the gate: a changed hash is recorded and ends the pass, an unchanged one is accepted |
| Controllers.Instance.ExposeServices | controllers/aodh_controller.go:305-411 | the endpoint loop runs the service stages of both endpoints in map order and stops at the first failure |
| Controllers.Instance.ReconcileInitAodh | controllers/aodh_controller.go:100-253 | follows the keystone, database and sync stages |
| Controllers.Instance.ReconcileNormalAodh | controllers/aodh_controller.go:255-445 | follows the deployment stages |
| Controllers.Instance.AutoscalingNormal | controllers/autoscaling_controller.go:241-466 | follows the whole Autoscaling program |
| Controllers.Instance.AutoscalingDelete | controllers/aodh_controller.go:45-98 | follows the deletion program |
| Controllers.Instance.CeilometerNormal | controllers/ceilometer_controller.go:261-459 | follows the whole Ceilometer program |
| Controllers.Instance.CeilometerDelete | controllers/ceilometer_controller.go:179-204 | follows its deletion program |
| Controllers.PatchMeans | controllers/ceilometer_controller.go:116-135 | the deferred function: Ready is True iff the rest is, finalizer and status are stored iff their part changed and was accepted, nothing else moves, and the error is reported iff the reconciler reports and a part did not get through |
| Controllers.Instance.PatchInstance | controllers/autoscaling_controller.go:127-145 | the deferred writes, one after the other, have the effect about which PatchMeans speaks |
| Controllers.ReconcileAutoscaling | controllers/autoscaling_controller.go:99-200 | Reconcile, with early returns and deferred write, computes exactly the pass about which the theorems speak |
| Controllers.ReconcileCeilometer | controllers/ceilometer_controller.go:88-177 | the same for Ceilometer |
| InputHash.VarNameInjective | controllers/autoscaling_controller.go:626-628 | no two inputs are filed under one name, whatever the secrets are called |
| InputHash.FilesFaithfully | controllers/autoscaling_controller.go:545-563 | two environment maps are equal iff the inputs filed in them are |
| InputHash.AodhFiles | controllers/autoscaling_controller.go:545-563 | the map that Autoscaling hashes holds exactly the two secrets under their names, the scripts and the configuration |
| GateInputs.AodhGateVars | controllers/autoscaling_controller.go:311-430 | whatever is answered on the way, an Autoscaling pass that reaches the gate has exactly the variables of its inputs |
| GateInputs.CeilometerGateVars | controllers/ceilometer_controller.go:321-376 | the same for Ceilometer |
| InputHash.GateFires | controllers/autoscaling_controller.go:480-489 | the gate stops a pass, silently and with the new hash recorded, iff its variables differ from the recorded ones |
| InputHash.AodhGateFires | controllers/autoscaling_controller.go:432-447 | so an Autoscaling pass that reaches the gate ends there iff its inputs differ from the recorded ones |
| InputHash.CeilometerGateFires | controllers/ceilometer_controller.go:382-397 | the same for Ceilometer |
| InputHash.AodhHashSees | controllers/autoscaling_controller.go:492-564 | any two Autoscaling passes that reach the gate hash alike iff secrets, scripts and configuration agree |
| InputHash.CeilometerHashSees | controllers/ceilometer_controller.go:524-601 | the same for Ceilometer and its two services |
| TelemetryReadiness.SectionReflects | controllers/telemetry_controller.go:253-295 | an error-free section leaves its condition there iff it is enabled, telling whether the child is Ready, and spares the other sections |
| TelemetryReadiness.ReadyIsConjunction | controllers/telemetry_controller.go:192-219 | after an error-free pass AutoscalingReady, CeilometerReady and MetricStorageReady are there iff their flag is set, each True iff its child is Ready, and Ready is their conjunction |
| TelemetryReadiness.ReadinessIsStored | controllers/telemetry_controller.go:99-118 | unless the patch fails this list is what is stored |
| TelemetryReadiness.ReadinessIsHistoryFree | controllers/telemetry_controller.go:100-112 | the final list is the same from any two lists that earlier passes may have left |
| TelemetryReadiness.TelemetryWakeUp | controllers/telemetry_controller.go:100-166 | a pass without an error completed or left the object changed |
| TelemetryRuns.RunSound | controllers/telemetry_controller.go:221-238 | in every run children stay ours or nobody's, terminate only because of our finalizer, and the MetricStorage child has the last custom stack set |
| TelemetryRuns.RunTidy | controllers/telemetry_controller.go:125-141 | in every run the stored condition list holds only the three sub-conditions and Ready |
| TelemetryCopies.SectionOutcome | controllers/telemetry_controller.go:241-421 | a section fails iff a call it needs fails or the child is another controller's; an enabled one leaves an owned copy and the child's readiness, a disabled one no live child and no condition, a failing enabled one its condition False |
| TelemetryCopies.TelemetryPassCopies | controllers/telemetry_controller.go:192-219 | after a completed pass every section has its way, whatever passes the children make meanwhile |
| TelemetryCopies.SectionsSpelledOut | controllers/telemetry_controller.go:262-395 | spelled out: every image, stack option and other field of a child is the section's own, or the webhook's default where that is blank, or for MetricStorage what the child had where the section sets nothing; disabled children are gone or terminating |
| TelemetryCopies.FailedPassReports | controllers/telemetry_controller.go:192-219 | an incomplete pass returns an error, and the enabled section that failed is False and keeps the Telemetry from being Ready |
| TelemetryCopies.NoPass | controllers/telemetry_controller.go:74-86 | a failed read is reported, a missing Telemetry is not, and nothing is done |
| TelemetryCopies.FirstPass | controllers/telemetry_controller.go:120-123 | the first pass takes the finalizer and touches no child |
| TelemetryCopies.SecondPass | controllers/telemetry_controller.go:125-143 | the next sets up exactly the three conditions and Ready, all Unknown |
| TelemetryCopies.LastPass | controllers/telemetry_controller.go:168-177 | a pass over a deleted Telemetry drops the finalizer, lets the object go unless others hold it, and touches no child |
| TelemetryConvergence.CalmParentPass | controllers/telemetry_controller.go:192-219 | an undisturbed failure-free pass applies or deletes each child by its own section and keeps the parent working |
| TelemetryConvergence.CalmPassCloser | controllers/telemetry_controller.go:192-219 | so does a failure-free pass between whose sections the children make any passes: the parent keeps working and no child moves away from its goal, nor stays short of it unless it is terminating |
| TelemetryConvergence.ParentStepRank | controllers/telemetry_controller.go:221-238 | the parent's step never raises the rank of a child and lowers it unless the child is terminating |
| TelemetryConvergence.ChildPassRank | controllers/autoscaling_controller.go:193-219 | no pass of a child, failing or not, raises its rank, and one that goes through lowers it when the child is terminating |
| TelemetryConvergence.ParentChildConverges | controllers/telemetry_controller.go:241-421 | after any run of toggles, failures and user actions, four fair rounds in any order, with further passes of children, failing or not, between and inside the passes of the parent, leave every child there and not terminating iff enabled, and more rounds keep it so |
| TelemetryConvergence.PassesSettle | controllers/telemetry_controller.go:380-395 | repeated passes over an unchanged Telemetry change no stored child |
| TelemetryConvergence.CustomStackHistory | controllers/metricstorage_controller.go:219-234 | in every run the child's custom stack is the last non-nil one copied since its creation, and the stack is built from it iff it is not empty |
| TelemetryConvergence.CustomStackSticks | controllers/telemetry_controller.go:381-384 | a custom stack in use stays in use through a copy iff that copy is not an empty non-nil one |
| ChildRefinement.PassRefines | controllers/autoscaling_controller.go:99-200 | every pass, failing or not, of a reconciler of this shape is, seen by the parent, a child pass of the protocol |
| ChildRefinement.AutoscalingRefines | controllers/autoscaling_controller.go:147-219 | every Autoscaling pass refines the protocol, and a failure-free one goes through |
| ChildRefinement.CeilometerRefines | controllers/ceilometer_controller.go:137-204 | the same for Ceilometer |
| ChildRefinement.MetricStorageRefines | controllers/metricstorage_controller.go:82-175 | the same for MetricStorage |
| JointConvergence.MoveSimulates | controllers/telemetry_controller.go:423-431 | every parent pass and every pass of an actual child controller is an event of the protocol and keeps the two views of the child the same |
| JointConvergence.OperatorConverges | controllers/telemetry_controller.go:192-238 | after any past, four fair rounds of Telemetry passes and passes of the three child controllers leave Autoscaling, Ceilometer and MetricStorage each stored and not terminating iff its own flag is set, and gone otherwise |
| JointOutcome.DisabledAutoscalingLeavesNothing | controllers/telemetry_controller.go:312-319 | after any past, four fair rounds of Telemetry passes and actual child passes leave no disabled Autoscaling and our finalizer on none of its dependents |
| JointOutcome.DisabledCeilometerLeavesNothing | controllers/telemetry_controller.go:253-260 | the same for Ceilometer |
| JointOutcome.MovesAreTurns | controllers/telemetry_controller.go:320-345 | passes of the parent and of the other controllers in between do not disturb an enabled Autoscaling: its store makes exactly the passes of its own controller |
| JointOutcome.EnabledAutoscalingConverges | controllers/telemetry_controller.go:298-355 | after any past, four fair rounds and a pass of the parent, any moves with six or more failure-free Autoscaling passes of the same inputs, interleaved with passes of the parent and the other controllers, leave the spec of the parent stored and its configuration recorded and deployed |
| TelemetryController.Instance.Delete | controllers/telemetry_controller.go:221-238 | ensureDeleted deletes a child that is there and not yet terminating, and reports each failing call |
| TelemetryController.Instance.ReconcileSection | controllers/telemetry_controller.go:241-421 | fails iff a call it needs fails or the child is another controller's; an enabled section leaves the child with its own values, blanks filled, and a disabled one no live child |
| TelemetryController.Instance.ReconcileNormal | controllers/telemetry_controller.go:192-219 | the three sections in order, up to the first failure |
| TelemetryController.PatchInstance | controllers/telemetry_controller.go:99-118 | the deferred writes, one after the other, have the effect of the specified patch |
| TelemetryController.ReconcileTelemetry | controllers/telemetry_controller.go:71-166 | Reconcile computes exactly the pass about which the theorems speak |
| Admission.Ceilometer.Default | api/v1beta1/ceilometer_webhook.go:68-87 | fills exactly the blank images |
| Admission.Autoscaling.Default | api/v1beta1/autoscaling_webhook.go:64-77 | fills exactly the blank images |
| Admission.Telemetry.Default | api/v1beta1/telemetry_webhook.go:74-106 | fills exactly the blank images of both sections |
| Admission.Stack.Default | api/v1beta1/metricstorage_webhook.go:60-85 | fills blank interval, strategy, retention and, for persistent storage, the request |
| Admission.MetricStorage.Default | api/v1beta1/metricstorage_webhook.go:46-57 | allocates a stack iff both are nil, with alerting on, and defaults whatever stack there is |
| Admission.CeilometerCopySettles | controllers/telemetry_controller.go:262-270 | a Ceilometer copied from a defaulted Telemetry is left alone by its webhook iff no blank image has a default only in the child |
| Admission.AutoscalingCopySettles | controllers/telemetry_controller.go:321-329 | the same for Autoscaling |
| Admission.CopiesSettle | api/v1beta1/telemetry_webhook.go:74-106 | with non-empty image defaults neither child webhook changes a copy |
| Admission.ImagesOfChildren | api/v1beta1/telemetry_webhook.go:74-106 | each image of a child is the section's own, or else the Telemetry default, or else the child's; nothing but images is touched |
| Admission.MetricStorageSettles | controllers/telemetry_controller.go:380-388 | copying and defaulting a MetricStorage twice is doing it once |
| Admission.NodeExporterOnlyFromTelemetry | api/v1beta1/ceilometer_types.go:158-170 | a blank node exporter image is filled iff the Ceilometer comes from a Telemetry; every other image is the one set, or that of its environment variable, or the built-in one |
| Builders.GetPVCSpec | pkg/metricstorage/monitoring_stack.go:69-102 | a persistent stack claims the quantity of its own request, 20G if that is blank, or fails on it; selector and class are set where not blank; other stacks claim nothing |
| Builders.BuildStackReflects | pkg/metricstorage/monitoring_stack.go:32-67 | a build fails iff the stack is persistent and what it asks for is malformed, and otherwise carries alerting, retention and that claim |
| Builders.BuildChooses | controllers/metricstorage_controller.go:219-234 | a custom stack that is set and not empty is deployed as it is, otherwise one built from the options, which have to be there |
| Builders.ScrapeConfigCommutes | pkg/metricstorage/scrape_config.go:36-44 | the scrape interval is the stack's own or 30s where there is none, before and after defaulting, for every spec |
| Builders.BuildStackCommutes | pkg/metricstorage/monitoring_stack.go:32-102 | the built stack is the same before and after defaulting iff the strategy is set and the retention is set or the request malformed |
| Builders.PersistentBuildCommutes | pkg/metricstorage/monitoring_stack.go:79-90 | so it is for every persistent stack with a retention, blank request included |
| Builders.DefaultedBuildFails | controllers/metricstorage_controller.go:220-229 | after admission a build fails iff the custom stack is empty and non-nil with no other stack, or the request is malformed |
| Watches.WatchesFollowOrder | controllers/metricstorage_controller.go:379-415 | over any passes for any objects the watched kinds are a duplicate-free prefix of the fixed order and equal the successful Watch calls |
| Watches.WatchesOnlyGrow | controllers/metricstorage_controller.go:411-413 | every continuation of a run keeps what was registered |
| Watches.NormalKeeps | controllers/metricstorage_controller.go:199-355 | one pass reaches a watch only with the ones before it registered |
| Watches.MetricStorageWakeUp | controllers/metricstorage_controller.go:82-196 | whatever users do between read and patch, a silent pass whose patch succeeded completed, left the object changed, or waits for a stack to be set |
| Watches.MetricStorageWakeUpExactly | controllers/metricstorage_controller.go:110-152 | unless the object is recreated meanwhile, a silent incomplete pass leaves it changed iff the part of its patch that has something to write is accepted, whatever users edit or delete |
| Watches.MetricStorageLostWakeUp | controllers/metricstorage_controller.go:124-133 | every new MetricStorage whose patch is refused loses its wake-up, silently |
| Watches.AdmittedIsNotNil | api/v1beta1/metricstorage_webhook.go:46-57 | that wait cannot happen to an admitted object |
| StorageReadiness.NormalExactly | controllers/metricstorage_controller.go:199-377 | a pass goes through iff a stack is set, the four kinds can be watched and no deployment fails; otherwise it stops at the first that does not, with the condition of an unwatchable kind False and a requeue, or with an error |
| StorageReadiness.MetricStorageCompletesExactly | controllers/metricstorage_controller.go:82-175 | the exact condition for a MetricStorage pass to complete |
| StorageReadiness.MetricStorageStops | controllers/metricstorage_controller.go:185-345 | what an incomplete pass returns and leaves stored |
| StorageReadiness.MetricStorageReadyExactly | controllers/metricstorage_controller.go:241-257 | after a completed pass MonitoringStackReady is False if a condition of the stack is, True if there are any and all are, and else as before; the resource is Ready iff the stack is up and every condition the pass does not write was True |
| StorageReadiness.MetricStorageFirstList | controllers/metricstorage_controller.go:135-153 | the first list holds exactly the four conditions and Ready, all Unknown |
| StorageReadiness.NoPass | controllers/metricstorage_controller.go:85-97 | a failed read is reported, a missing MetricStorage is not, and nothing is done |
| MetricStorageController.MetricStorageReconciler.EnsureWatches | controllers/metricstorage_controller.go:379-415 | registers a kind once, when its definition exists and the watch succeeds |
| MetricStorageController.MetricStorageReconciler.JudgeStack | controllers/metricstorage_controller.go:241-257 | the loop marks MonitoringStackReady False if some condition is not True, True if there are any and all are, and else leaves it; nothing else changes |
| MetricStorageController.MetricStorageReconciler.ReconcileNormal | controllers/metricstorage_controller.go:177-377 | follows the four deployments in order, up to the first failure |
| MetricStorageController.MetricStorageReconciler.Reconcile | controllers/metricstorage_controller.go:82-161 | computes exactly the pass about which the theorems speak |
| Targets.FirstReserved | controllers/metricstorage_controller.go:523-532 | the first reservation on a network of the telemetry service, if any |
| Targets.GetAddressFromIPSet | controllers/metricstorage_controller.go:500-535 | the search loops find that reservation and fall back as specified |
| Targets.AddressesAreTrusted | controllers/metricstorage_controller.go:537-554 | every address is an IP address, matches the domain expression, or was reserved on a telemetry network |
| Targets.AddressExactly | controllers/metricstorage_controller.go:451-554 | which one: with IP sets the first reservation on a telemetry network, else ansible host or host name if the node has an IP set, else the host name; without IP sets the ansible host, if it is set and an IP address or domain name, or the host name |
| Targets.GetNodeExporterTargets | controllers/metricstorage_controller.go:417-468 | for every iteration order the loops return the targets of the longest resolvable prefix of the nodes with telemetry |
| Targets.TargetsAre | controllers/metricstorage_controller.go:456-464 | the targets are the addresses with port 9100, in order, up to the first node without one |
| Targets.FlatExactly | controllers/metricstorage_controller.go:432-450 | the nodes are exactly those of the node sets with the telemetry service |
| Targets.PrefixIsUnique | controllers/metricstorage_controller.go:451-464 | that specification has one answer, complete iff all nodes resolve |
| Targets.AnyOrderWhenComplete | controllers/metricstorage_controller.go:445-466 | if all nodes resolve, the targets are the same multiset for every iteration order |
| Targets.OrderFreeExactly | controllers/metricstorage_controller.go:445-466 | all iteration orders give the same multiset of targets iff the first node set with telemetry that holds an unresolvable node, if any, holds no resolvable one |
| Targets.TwoOrders | controllers/metricstorage_controller.go:456-463 | otherwise two enumerations of the same node sets give numbers of targets that differ |
| Domain.RegexIsDomain | controllers/metricstorage_controller.go:557-560 | the expression matches exactly: drop an optional final dot, split on dots, at least two labels, all non-empty and in the folded class |
| Domain.AcceptedNames | controllers/metricstorage_controller.go:557-560 | accepted names hold only letters, digits, hyphens, dots and the two folding characters, no empty label and an inner dot |
| Domain.IsValidDomain | controllers/metricstorage_controller.go:557-560 | one pass over the string decides the expression |
| Domain.HostNamesAreDomains | controllers/metricstorage_controller.go:557-560 | every host name of two or more labels under section 2.3.1 of RFC 1035 as relaxed by section 2.1 of RFC 1123 is accepted, with or without final dot |
| WatchMaps.TransportURLSecretFn | controllers/autoscaling_controller.go:662-694 | the nested loops return all matches, owner by owner and in list order, and nil iff there are none or the List call failed |
| WatchMaps.MemcachedFn | controllers/autoscaling_controller.go:695-722 | the loop returns the users of the instance in list order, and nil iff there are none or the List call failed |
| WatchMaps.TransportExactly | controllers/ceilometer_controller.go:658-690 | a resource is requested iff it is in the namespace and its name plus "-transport" is an owning TransportURL |
| WatchMaps.MemcachedExactly | controllers/autoscaling_controller.go:708-717 | a resource is selected iff it uses that instance |
| WatchMaps.SelectKeepsOrder | controllers/autoscaling_controller.go:708-717 | selection keeps the order of the list |
| WatchMaps.OwnTransport | controllers/autoscaling_controller.go:633-646 | a secret of the transport that a controller creates maps exactly to the resource named like its service |
| WatchMaps.ChildrenAndTheirTransports | controllers/telemetry_controller.go:299-310 | in every list of resources, the Ceilometer child is reached by its transport iff it is there, and the Autoscaling child never |

## Left out

- The Logging controller: the Ceilometer machine with a trivial deletion.
- Manager start-up, scheme and webhook registration, flags.
- Template rendering, secret contents, connection strings, StatefulSet, Job, Service and volume literals; of a workload only its CONFIG_HASH is kept, of a rendering only its hash.
- The network attachments copied into the status, and the reasons, severities and messages of conditions.
- Relabel rules of the ServiceMonitor; its interval is that of the ScrapeConfig.
- Owner-reference garbage collection and stale informer caches.
- Ready as "currently healthy": some conditions stay True from earlier passes, so readiness is stated as a property of histories.
- User edits of a child's spec behind the back of its Telemetry.
- Validation webhooks, which accept everything.
- Convergence.AutoscalingConverges: what is hashed and the database hostname stay the same over the passes; everything else may differ from pass to pass.
- JointConvergence.OperatorConverges: passes of a child controller lie between passes of the parent; TelemetryConvergence.ParentChildConverges has them inside as well.
- TelemetryConvergence.ParentChildConverges: assumes that no foreign finalizer holds a child and that no child belongs to another controller, either of which can block a deletion or a creation for good.
- ChildRefinement.PassRefines: in the middle of its pass a child may be edited, but not deleted, recreated or given a foreign finalizer; those are events of their own.
- TelemetryCopies.TelemetryPassCopies: in the middle of the pass the children make passes but users leave them alone; TelemetryCopies.SectionOutcome allows everything.
- Targets.GetNodeExporterTargets: the answers of the API server do not change during one computation.
