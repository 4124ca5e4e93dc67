# frp-provisioner: a Dafny model of its controllers

frp-provisioner watches Kubernetes Services of type LoadBalancer and runs one frp-client pod for each that
names an frp server. This project models its hard core and proves what it is for.

- `Objects`, `ApiServer`: pods, Services, owner references, finalizers, and the API server as a value `Cluster`
  with resource versions. Every call has a fault: served, refused, or carried out with the reply lost.
- `Claim`, `ClaimLoop`, `Ownership`: the ownership protocol of `RefManager` one API call at a time; what a whole
  claim does under any interference; any number of managers on the same objects.
- `Reconcile`: `ServiceReconciler.Reconcile` as a machine with one API call per step, and the system in which one
  worker per Service key runs between the moves of users, the kubelet and other controllers.
- `Reads`, `Safety`, `Finalizer`, `Isolation`, `Disturbed`: invariants over all interleaved runs of that system.
- `Outcome`, `Convergence`: what one undisturbed Reconcile achieves, stated without its steps (`Outcome.Goal`).
- `Adoption`, `Tunnel`: the same on the fields of the stored objects alone: which objects a claim takes and which
  owner may adopt, which Services end up with a tunnel, and what the pod behind it is made of.
- `Events`, `SecondPod`, `GuardLoss`: exactly when an undisturbed Reconcile makes a second pod, and exactly when the
  finalizer fails to protect a live one.
- `Scenario`, `Witnesses`: runs from an empty cluster that show what goes wrong without each rule below.
- `Client`, `RefManager`, `Reconciler`: the code in its own form (loops, lists, slices edited in place, a memoised
  verdict), with the cluster replaced arbitrarily before every call. Every call of the code is proved to be a step
  of the machines above, with the same effect on the cluster. `Reconciler.CodeIsARun` turns such an execution, with
  the moves of the others in between, into a run of the interleaved system that keeps the rules they kept, and
  `Reconciler.CodeKeepsPromises` states the two main theorems about every call of the code itself.
- `TaskManager`: `taskManager` as a transition system over its mutex, wait group and context, and GoCtx, Close and
  the started goroutine as code whose operations are proved to be a run of it.
- `FrpStatus`, `Admission`, `Probe`: the FrpServer status machine, the admission webhook, and the probe.

## Assumptions

They are written as definitions, not left implicit.

- API server (`ApiServer`): Update compares resource versions, an identical Update changes nothing, Delete goes by
  name and only marks a pod (or removes it at once), a Service with finalizers is only marked and goes with its
  last finalizer, uids are never reused.
- Other actors (`Reconcile.Enabled`): anything, except that outsiders do not make pods with the tracking label or
  controlled by a Service, do not change those two labels, do not make a Service the controller of a pod, and
  terminal phases are final. They may strip owner references and set controllers of other kinds, on labelled pods
  too. One worker per key, which may be cut short and started again at any point; reads are fresh.
- A live pod is passed over when the claim will leave it: it is under a foreign controller, or it is an orphan and
  its Service was read as dying (`Reconcile.PassedOver`). Four further rules (`Reconcile.Rule`) are named by the
  theorems that need them: `FinalizerIsOurs` (no outsider takes the finalizer off), `ProvisionSeesLive` (a served
  listing for a Service that wants a pod finds no live pod that is passed over), `CleanupSeesLive` (the same for a
  Service that does not want one) and `CleanupDeletesLand` (a Delete of a live claimed pod is not refused).
- `SetControllerReference` compares references by kind and name, not by uid; `SetStatusCondition` moves the
  transition time only together with the status.

## Where the obvious claim is false

- The finalizer does not always protect a live pod. Under `FinalizerIsOurs`, `CleanupSeesLive` and
  `CleanupDeletesLand` it does (`Finalizer.FinalizerGuardsLivePods`), adoptions included, and each of them is needed:
  the cleanup branch drops the finalizer although a Delete was refused (`Witnesses.ServiceGonePodAlive`), although a
  dying Service passed over a live orphan (`Witnesses.OrphanOutlivesService`) or a pod under a foreign controller
  (`Witnesses.ForeignPodOutlivesService`), and anybody can take it off (`Witnesses.FinalizerTakenOff`).
  `GuardLoss.GuardLostIff` is the exact condition for an undisturbed Reconcile, `Finalizer.GuardBreaksIff` for a
  single action in any run that keeps `FinalizerIsOurs`.
- At most one pod fails when another controller holds the pod at a listing and gives it back later
  (`Witnesses.ForeignControlMakesTwo`). With `ProvisionSeesLive` alone it holds (`Safety.AtMostOnePodAlways`), with
  pods taken over and given back freely between the listings. Without any rule, `Safety.SecondPodIff` says exactly
  which actions make a second pod, and `SecondPod.SecondPodMadeIff` exactly which undisturbed Reconciles do.
- Inactive pods with the tracking label are deleted whoever controls them (`Witnesses.ForeignPodDeleted`); they are
  among the pods of `Isolation.StrangerHitIff` below.
- A Delete goes by name, so it ends a stranger's pod that has taken the name of a listed one
  (`Witnesses.StrangerDeleted`). `Isolation.StrangerHitIff` says exactly when a step touches a pod that is not the
  Service's: never in the claim phase.
- A release need not free the object when two references share the owner's uid (`ClaimLoop.ReleaseFreesIff`).
- Adopt and release flatten their errors, so the NotFound branches of claimObject are never taken: a write to a
  vanished object fails the claim (`ClaimLoop.VanishedFails`).
- Surplus claimed pods stay: `Outcome.Goal` keeps every claimable pod while a tunnel is wanted.
- The comment on the FrpServer conditions suggests a meaningful transition time; because failures are written with
  status True it never moves (`FrpStatus.TransitionTimeFrozen`). Read errors are swallowed.
- Create accepts port 0 and update any port above 65535 (`Admission.CreateVersusUpdate`); the protocol is checked
  only with a TLS secret; defaulting panics on a quic transport without options.
- A panicking goroutine ends the process: the default recovery handler logs with Panic
  (`TaskManager.PanicEndsProcess`). Its Done comes first.
- The probe leaves behind exactly the files and connections whose release failed; those errors are discarded.

## Model

| member | source | states |
|---|---|---|
| Safety.AtMostOnePodAlways | pkg/controller/service_controller.go:107-177 | in every state of every interleaved run that keeps `ProvisionSeesLive`, with any faults and with pods taken over and given back in between, no Service uid has two active pods, by label or by controller |
| Safety.SecondPodIff | pkg/controller/service_controller.go:165-175 | in every run, under no rule, an action gives a Service a second active pod exactly when it is a Create that is carried out (a pod could be generated, its name is free, the call is not refused) while the Service has a live pod |
| SecondPod.SecondPodMadeIff | pkg/controller/service_controller.go:107-177 | from a state with at most one pod per Service an undisturbed Reconcile, at any point and with any faults, leaves two exactly when its Create is carried out and a live pod of the Service was passed over at the start |
| Witnesses.ForeignControlMakesTwo | pkg/controller/service_controller.go:125-175 | a run from an empty cluster that keeps every rule but `ProvisionSeesLive` and ends with two active pods owned by one Service |
| Safety.CaughtStep | pkg/controller/service_controller.go:107-177 | a worker that passed over nothing at its listing keeps every live pod of its Service in view through the claim, the Deletes and the finalizer update, up to the decision to make one |
| Safety.OthersRely | pkg/controller/service_controller.go:107-177 | no action of anybody else, other Services' workers included, gives a busy worker's Service a live pod, so the view of `CaughtStep` survives it |
| Safety.DecisionOnListed | pkg/controller/service_controller.go:216-238 | an active pod of the Service's own listing is kept if it is its own, adopted if it is an orphan and the Service is not dying, passed over otherwise, and never released |
| Safety.AdoptWriteKeeps | pkg/utils/controller/refmanager.go:149-161 | writing back a stale listed orphan makes no new live pod and keeps the store's discipline: it lands only on the version that was read |
| Finalizer.NoPodForVanishedService | pkg/controller/service_controller.go:158-175 | at every Create of every run that keeps `FinalizerIsOurs` the Service that was read is still stored, same uid, with the finalizer |
| Finalizer.FinalizerGoesIff | pkg/controller/service_controller.go:150-164 | under `FinalizerIsOurs` a finalizer goes exactly when its own worker's drop is carried out on the Service as it was read |
| Finalizer.FinalizerGuardsLivePods | pkg/controller/service_controller.go:142-175 | in every run that keeps `FinalizerIsOurs`, `CleanupSeesLive` and `CleanupDeletesLand`, a Service with a live pod is stored and carries the finalizer |
| Finalizer.GuardBreaksIff | pkg/controller/service_controller.go:150-155 | in a guarded state of a run that keeps `FinalizerIsOurs`, an action leaves a live pod unguarded exactly when it is a finalizer drop that is carried out while the Service has a live pod |
| GuardLoss.GuardLostIff | pkg/controller/service_controller.go:107-177 | from a guarded state, foreign controllers and several live pods included, an undisturbed Reconcile, at any point and with any faults, leaves an unguarded live pod exactly when the drop is carried out and a live pod was passed over (foreign controller, or orphan of a dying Service) or had its Delete refused |
| GuardLoss.PassedOverBreaksGuard | pkg/utils/controller/refmanager.go:187-223 | from any state in which a worker is about to list for a Service that wants no pod and a live one will be passed over, every undisturbed completion without a failing call ends with that pod unguarded |
| GuardLoss.RefusedDeleteBreaksGuard | pkg/controller/service_controller.go:144-155 | from any state, when the Delete of a live claimed pod is refused and the undisturbed rest of the cleanup takes the finalizer off, that pod ends unguarded |
| Witnesses.ServiceGonePodAlive | pkg/controller/service_controller.go:142-155 | a run from an empty cluster that keeps every rule but `CleanupDeletesLand`, at whose end the Service is gone and its pod is live |
| Witnesses.OrphanOutlivesService | pkg/controller/service_controller.go:125-155 | the same without a failing call, keeping every rule but `CleanupSeesLive`: a live orphan of a dying Service |
| Witnesses.ForeignPodOutlivesService | pkg/controller/service_controller.go:125-155 | the same without a failing call, keeping every rule but `CleanupSeesLive`: a pod under a foreign controller |
| Witnesses.FinalizerTakenOff | pkg/controller/service_controller.go:142-155 | a run that keeps every rule but `FinalizerIsOurs` and ends with an unguarded live pod |
| Outcome.HonestSuccess | pkg/controller/service_controller.go:120-176 | undisturbed, for every pattern of failures, nil is returned only if the goal for the Service as read is reached |
| Tunnel.SuccessDecidesTunnel | pkg/controller/service_controller.go:142-176 | for every pattern of failures, an undisturbed Reconcile that returns nil leaves the Service with the finalizer and an active pod in its namespace that carries both labels and is controlled by its uid if it is a LoadBalancer, names an frp server and is not being deleted, and with neither if any of these fails; nothing else about the Service changes |
| Tunnel.TunnelIffAsked | pkg/controller/service_controller.go:142-176 | the same as an equivalence for every undisturbed Reconcile that has ended without a failing call |
| Tunnel.UnaskedControlsNothing | pkg/controller/service_controller.go:142-155 | from any state a run can reach, success for a Service that does not ask for a tunnel leaves no active pod under its control, whatever the labels |
| Tunnel.CreateMakes | pkg/controller/service_controller.go:75-98 | a Create adds a pod exactly when the template parses, names no other controller, the name is free and the call is not refused; content, finalizers, other labels and other owner references are the template's, the name is built from template, Service and suffix, and nothing else changes |
| Tunnel.NewPodsMadeFromTemplate | pkg/controller/service_controller.go:165-175 | every pod an undisturbed Reconcile has made, at any point and with any faults, is made so from the Service as stored at the start |
| Tunnel.WorkersMakeFromTemplate | pkg/controller/service_controller.go:165-175 | in every run a worker stores a pod with a new uid only by a Create, and one made so from the Service it has read |
| Disturbed.SuccessClears | pkg/controller/service_controller.go:130-155 | in every run, whatever others do, a Reconcile that returns nil leaves every inactive pod it listed, and in cleanup every pod it claimed, gone or terminating |
| Disturbed.ErrorsStop | pkg/controller/service_controller.go:125-141 | in every run a Reconcile that has met an error in its claim or in deleting inactive pods goes on to neither cleanup nor provisioning and can only end with an error |
| Disturbed.FailingStep | pkg/controller/service_controller.go:125-141 | such a Reconcile leaves the Services alone, makes no pod and, after a failed claim, deletes none |
| Disturbed.DeleteErrsIffNotServed | pkg/controller/service_controller.go:132-149 | a served Delete is no error even if the pod is gone, any other is one |
| Disturbed.StaleServiceFails | pkg/controller/service_controller.go:150-163 | whoever writes the finalizer from an outdated read, or for a Service that is gone, changes nothing and fails |
| Outcome.StepProgress | pkg/controller/service_controller.go:107-177 | the phase by phase relation between the start and the current cluster, kept by every step |
| Outcome.DeleteEnds | pkg/controller/service_controller.go:133-136 | a Delete that reports success or NotFound has ended the pod under that name and changed no other |
| Convergence.EveryStepAdvances | pkg/controller/service_controller.go:107-177 | a Reconcile ends, whatever the answers and the interference |
| Convergence.Converges | pkg/controller/service_controller.go:107-177 | every undisturbed Reconcile that has ended without a failing call, whatever its listing order, names and deletions, returns nil, has reached the goal and leaves the Service settled |
| Convergence.CanConverge | pkg/controller/service_controller.go:107-177 | from any stored state there is such a Reconcile, given a usable template and a free name where a pod is needed |
| Convergence.UnusableTemplateNeverSucceeds | pkg/controller/service_controller.go:165-170 | where a pod must be made and the template cannot be used, no Reconcile returns nil |
| Convergence.SecondReconcileChangesNothing | pkg/controller/service_controller.go:107-177 | after a success a further Reconcile leaves the cluster identical, whatever its calls return |
| Convergence.FixedPointIffSettled | pkg/controller/service_controller.go:107-177 | a failure-free Reconcile changes nothing exactly when the Service is settled |
| Convergence.CreatedDescends | pkg/controller/service_controller.go:171 | what is stored for a created pod is active and keeps its name, labels and controller |
| Convergence.GenerateThenFind | pkg/controller/service_controller.go:49-98 | a generated pod is listed, active until terminal or deleting, and claimed without an API call |
| Isolation.ReconcileIsolated | pkg/controller/service_controller.go:49-177 | undisturbed, at every point and for all faults: untouchable pods and other Services are as they were, new pods are its own |
| Isolation.StepsIsolated | pkg/controller/service_controller.go:125-149 | in every run, under no rule, a step changes only pods of its own namespace: one it makes, which is its Service's; a selected one that is an orphan or its own; or, by a Delete only, a selected one under another controller or one that reused the listed name |
| Isolation.StrangerHitIff | pkg/controller/service_controller.go:132-149 | in every run a step changes a stored pod that is not selected, orphan or own exactly when it is a Delete carried out under that name on a pod not yet terminating |
| Witnesses.StrangerDeleted | pkg/controller/service_controller.go:132-137 | a run from an empty cluster that keeps all rules, after which a served Delete ends an outsider's running pod |
| Witnesses.ForeignPodDeleted | pkg/controller/service_controller.go:132-137 | a run that keeps all rules, after which a served Delete ends a failed pod held by another controller |
| Reconciler.CodeIsARun | pkg/controller/service_controller.go:107-177 | the calls of the code, with others' moves between, are a run of the system with the same end, and it keeps every rule that the others and the calls keep |
| Reconciler.CodeKeepsPromises | pkg/controller/service_controller.go:107-177 | after every call of the code, in a cluster that others keep changing, no Service has two active pods (under `ProvisionSeesLive`), and every live pod is guarded (under the three rules of the guard) |
| Reconciler.ServiceReconciler.GetOwnedPods | pkg/controller/service_controller.go:49-73 | lists the selected pods and splits them by activity, in order; an error returns nothing |
| Reconciler.ServiceReconciler.SplitPods | pkg/controller/service_controller.go:63-72 | the loop computes exactly the active and the inactive subsequence |
| Reconcile.SplitPieces | pkg/controller/service_controller.go:63-72 | piece by piece and in order, each pod by its own activity |
| Reconciler.ServiceReconciler.MakePod | pkg/controller/service_controller.go:75-98 | builds the pod step by step as `Objects.GeneratePod` describes, or fails; `Tunnel.CreateMakes` says what that pod is |
| Reconciler.ServiceReconciler.ClaimPods | pkg/controller/service_controller.go:216-238 | plays the claim protocol to its end and returns the claimed pods in order |
| Reconciler.ServiceReconciler.Reconcile | pkg/controller/service_controller.go:107-177 | under arbitrary interference its calls are steps of the machine, effects included, ending in the reported result |
| Reconciler.ServiceReconciler.Settle | pkg/controller/service_controller.go:130-156 | deletes inactive pods, stops on errors, then branches on the cleanup guard |
| Reconciler.ServiceReconciler.CleanUp | pkg/controller/service_controller.go:144-155 | deletes claimed pods, then drops the finalizer regardless of failed Deletes |
| Reconciler.ServiceReconciler.Provision | pkg/controller/service_controller.go:158-176 | finalizer first, then a pod if none is claimed |
| Objects.GeneratedPod | pkg/controller/service_controller.go:75-98 | generatePod fails exactly on an unusable template; otherwise namespace, both labels, controller and activity |
| Objects.UpsertControls | pkg/controller/service_controller.go:91-94 | after SetControllerReference the owner is the managing controller |
| Objects.UpsertCountsOne | pkg/utils/controller/refmanager.go:149-151 | adopting an orphan leaves exactly one controller reference |
| Objects.UpsertPlaces | pkg/controller/service_controller.go:91-94 | the reference replaces the first one to the same kind and name, or is appended; no other moves |
| Objects.ControlledMeans | pkg/utils/controller/refmanager.go:187-192 | the managing controller is the first reference flagged as one |
| Objects.Without | pkg/controller/service_controller.go:150 | no occurrence is left, and a list without one is returned as it is |
| Objects.WithoutPieces | pkg/controller/service_controller.go:150 | distributes over concatenation in order and drops single occurrences only, which fixes order and multiplicity |
| Objects.WithoutKeeps | pkg/controller/service_controller.go:150 | every other string is in the result exactly when it was in the list |
| ApiServer.NoLostUpdate | pkg/utils/controller/refmanager.go:107-113 | a write from an earlier read changes nothing or replaces exactly what was read |
| ClaimLoop.ClaimLoopSpec | pkg/utils/controller/refmanager.go:46-71 | one outcome per object, fixed by the object, one verdict and its own write; claimed ones in order, one error each for the failed |
| ClaimLoop.OwnerAskedOnce | pkg/utils/controller/refmanager.go:73-79 | the owner is fetched at most once per manager, and only for an adoptable orphan |
| ClaimLoop.VanishedFails | pkg/utils/controller/refmanager.go:206-213 | a write to an object that is no longer stored fails the object and the whole claim |
| ClaimLoop.RefusedVerdict | pkg/utils/controller/refmanager.go:140-143 | a refused verdict claims no orphan and gives every adoptable orphan exactly one error |
| ClaimLoop.RefusedVerdictWritesNoOrphan | pkg/utils/controller/refmanager.go:140-162 | after a refused verdict only releases are written |
| Adoption.DeadOwnerAdoptsNothing | pkg/utils/controller/refmanager.go:115-143 | in every play in which the owner's fetch fails or finds nobody, another uid or a deletion mark under its key, no orphan is claimed or written, and every adoptable one has failed once in the end |
| Adoption.AdoptionFollowsFetch | pkg/utils/controller/refmanager.go:115-162 | an orphan is written only after a served fetch that found the owner's very uid, not being deleted, and what is written is the orphan with the owner's controller reference in its place |
| Adoption.VerdictIsTheFetch | pkg/utils/controller/refmanager.go:73-79 | the verdict of a whole claim is what its one fetch found |
| Adoption.ClaimedIff | pkg/utils/controller/refmanager.go:187-240 | only own objects that fit and fitting orphans are claimed; a claim without an error claims all of them and has written every own object that no longer fits |
| Adoption.AdoptedObject | pkg/utils/controller/refmanager.go:149-151 | an orphan can be given the reference exactly within the owner's namespace, and nothing else about it changes |
| ClaimLoop.WritesOwnOrOrphan | pkg/utils/controller/refmanager.go:187-240 | writes go only to matching live orphans and to the owner's own objects that no longer match |
| ClaimLoop.ReleaseSurgery | pkg/utils/controller/refmanager.go:164-185 | with distinct uids exactly the owner's reference goes, the rest keeps its order, the object is uncontrolled |
| ClaimLoop.ReleaseFreesIff | pkg/utils/controller/refmanager.go:164-178 | a release frees the object exactly when the first match by uid is the only controller reference |
| ClaimLoop.ReleaseMayKeepControl | pkg/utils/controller/refmanager.go:166-171 | a family of objects that stay controlled after a release |
| Ownership.ExclusiveOwnership | pkg/utils/controller/refmanager.go:140-240 | with any number of managers and stale reads every object has at most one controller, and steps move it only to or from the acting owner |
| Ownership.HandoverThroughOrphan | pkg/utils/controller/refmanager.go:140-240 | between two owners of an object there is a state in which it has none |
| Ownership.ActEffect | pkg/utils/controller/refmanager.go:187-240 | a manager's step changes the store only by a legal move of an object that is still as it was read |
| RefManager.Handle.SetController | pkg/utils/controller/refmanager.go:149-151 | sets the reference in place or in a grown array, or leaves the object alone and fails |
| RefManager.IndexOf | pkg/utils/controller/refmanager.go:165-171 | the first reference with the uid, or -1 |
| RefManager.CutOut | pkg/utils/controller/refmanager.go:173-178 | the gap is closed in a copy; the caller's array is not written |
| RefManager.Manager.CanAdopt | pkg/utils/controller/refmanager.go:115-138 | fails unless the owner is fetched, has the same uid and is not being deleted; `Adoption` says what follows from it |
| RefManager.Manager.CanAdoptOnce | pkg/utils/controller/refmanager.go:73-79 | the verdict is taken on the first call and repeated afterwards without a call |
| RefManager.Manager.Adopt | pkg/utils/controller/refmanager.go:140-162 | plays the adoption of one object: verdict, reference, write |
| RefManager.Manager.Release | pkg/utils/controller/refmanager.go:164-185 | writes the object without the owner's first reference; the caller's object is not in the frame |
| RefManager.Manager.Matching | pkg/utils/controller/refmanager.go:47-59 | selector and all filters |
| RefManager.Manager.ClaimObject | pkg/utils/controller/refmanager.go:187-240 | one object: the protocol has moved past it, claimed, skipped or failed |
| RefManager.Manager.ClaimOwnedObjects | pkg/utils/controller/refmanager.go:46-71 | the loop is a complete play; claimed objects in order, errors counted, objects not up for adoption untouched |
| TaskManager.CloseIsSafe | pkg/safe/groutine.go:48-65 | once a Close passes its wait until it unlocks: cancelled, nothing unfinished, nothing can be registered or started |
| TaskManager.WaitGroupAccounting | pkg/safe/groutine.go:48-91 | the counter is registered minus finished, never negative, and each goroutine signals exactly once, returning or panicking |
| TaskManager.CloseShrinks | pkg/safe/groutine.go:59-65 | while a Close holds the lock the unfinished goroutines only get fewer |
| TaskManager.CloseWaitsBoundedly | pkg/safe/groutine.go:59-65 | while a Close waits, the steps left to the running goroutines are fixed and only used up |
| TaskManager.CallbackDeadlocks | pkg/safe/groutine.go:48-65 | a running goroutine that calls the manager back blocks itself and the Close for ever |
| TaskManager.StuckIsReached | pkg/safe/groutine.go:48-65 | a run from a new manager that gets into that state |
| TaskManager.CloseCanPassIff | pkg/safe/groutine.go:48-65 | a waiting Close can get through exactly when no unfinished goroutine is inside a call on the manager |
| TaskManager.PanicEndsProcess | pkg/safe/groutine.go:76-91 | along every run a goroutine that has panicked is never over unless the process has ended |
| TaskManager.OnlyPanicsEndProcess | pkg/safe/groutine.go:48-91 | as long as no goroutine panics no run ends the process |
| TaskManager.Manager.GoCtx | pkg/safe/groutine.go:48-56 | whatever the others do, its operations are lock, add, start, unlock in this order and part of a run of the system; it stops short only waiting for the lock or with the process |
| TaskManager.Manager.Close | pkg/safe/groutine.go:59-65 | lock, cancel, wait, unlock in this order as part of a run; it stops short only waiting for the lock, for unfinished goroutines or with the process |
| TaskManager.Manager.RunTask | pkg/safe/groutine.go:52-91 | begin, return or panic, then Done either way, then after a panic the end of the process |
| FrpStatus.Store.Reconcile | pkg/controller/frpserver_controller.go:49-94 | the stored object and the returned error for every verdict, clock and fault |
| FrpStatus.VerdictIsStored | pkg/controller/frpserver_controller.go:49-94 | a read and unrefused Reconcile stores Healthy exactly if the probe passed and Unhealthy exactly if not, with the probe's own message in reason and condition, unless the phase was Unknown, which only becomes Pending; other conditions stay; otherwise nothing changes |
| FrpStatus.StatusFollowsLastVerdict | pkg/controller/frpserver_controller.go:62-93 | along every run the status tells of the last verdict stored, whatever came before it |
| FrpStatus.ErrorIffUnhealthy | pkg/controller/frpserver_controller.go:53-93 | after an acknowledged write an error is returned exactly if the server is left Unhealthy; always without the acknowledgement, never without a read |
| FrpStatus.Store.SetStatusCondition | pkg/controller/frpserver_controller.go:71-77 | find and change in place or append; the time moves exactly with the status |
| FrpStatus.StatusRuns | pkg/controller/frpserver_controller.go:62-93 | along every run one Initialized condition at most, agreeing with phase and reason |
| FrpStatus.NeverWritesUnknown | pkg/controller/frpserver_controller.go:62-93 | whatever Reconcile writes, the phase is not Unknown |
| FrpStatus.StatusSettles | pkg/controller/frpserver_controller.go:62-93 | over any number of Reconciles with one verdict, any clocks and any faults, at most two writes happen, and at most one unless the phase was Unknown |
| FrpStatus.QuietMeansHealthy | pkg/controller/frpserver_controller.go:53-93 | nil is returned only for a stored healthy verdict, for an Unknown phase, or when nothing could be read |
| FrpStatus.TransitionTimeFrozen | pkg/controller/frpserver_controller.go:71-77 | the transition time of the condition never moves once it is written |
| Admission.Server.Default | pkg/controller/frpserver_validator.go:34-57 | panics exactly on quic without options, having set everything before; otherwise the defaulted specification, with a cancelled context reported |
| Admission.DefaultingIdempotent | pkg/controller/frpserver_validator.go:34-57 | fills every defaulted field, keeps every set value, and is idempotent |
| Admission.DefaultFixesFilled | pkg/controller/frpserver_validator.go:34-57 | a specification is left as it is exactly when nothing is missing |
| Admission.DefaultValues | pkg/controller/frpserver_validator.go:34-57 | the value of every field that was left out |
| Admission.AdmittedIff | pkg/controller/frpserver_validator.go:34-107 | defaulting and create together, on the specification as submitted: exactly when it is accepted |
| Admission.MinimalIsAdmitted | pkg/controller/frpserver_validator.go:34-155 | token, address and one external address suffice, on create and again on update |
| Admission.Server.ValidateCreate | pkg/controller/frpserver_validator.go:62-107 | exactly the broken rules are reported, and the probe runs exactly when there are none |
| Admission.Server.ValidateUpdate | pkg/controller/frpserver_validator.go:110-155 | the same with the port rule of update |
| Admission.CreateVersusUpdate | pkg/controller/frpserver_validator.go:62-155 | the two accept the same specifications up to port 0 and ports above 65535 |
| Admission.ResubmissionAccepted | pkg/controller/frpserver_validator.go:34-155 | a defaulted object accepted on create is accepted unchanged on update |
| Admission.ProtocolCheckedOnlyWithSecret | pkg/controller/frpserver_validator.go:88-148 | on create as on update an accepted specification stays accepted under any protocol exactly when no secret is named or the protocol is known |
| Probe.ValidateFrpServerConfig | pkg/utils/frpclient/validate.go:31-229 | succeeds exactly when every step of the plan was tried in source order and none failed, and otherwise stops at the first that did; on every exit files and connections are as before but for exactly those whose release failed; Open is called at most once and then sees exactly the secret's data |
| Probe.StageSecret | pkg/utils/frpclient/validate.go:88-159 | certificate, key and optional authority staged in order with their removal deferred; stops at the first failure, and lookups fail only for missing entries |
| Probe.Dial | pkg/utils/frpclient/validate.go:161-229 | configuration check, open, connect and login in order, stopping at the first failure; every connection opened is on the deferred stack; Open sees the staged files |
| Probe.Host.RunDeferred | pkg/utils/frpclient/validate.go:104-189 | the deferred releases run last first and give back exactly what is on the stack and did not fail to be released |
| Probe.RecordTells | pkg/utils/frpclient/validate.go:94-229 | success is one good outcome per step of the plan, failure a bad last outcome after good ones only |

## Left out

- scheduleServer, getFrpServers and IsFrpServerActive: not called by Reconcile; a lookup and a simple partition.
- The frp login itself, TLS, OIDC, configuration completion and its validation: foreign code, each a step that succeeds or fails.
- The field-by-field copy of the specification into the frp client configuration: assignments without branching beyond nil checks.
- YAML parsing of the pod template and the random name: an arbitrary parsed template and an arbitrary suffix that may collide.
- RefManager.Manager.Adopt: has no early return for a nil scheme, because canAdopt, which comes first, already dereferences the scheme.
- Reflection and scheme lookups of NewRefManager and getOwner: the owner is fetched by its key from the stored Services.
- Garbage collection, leader election and stale informer caches: reads are fresh and there is one worker per key.
- Texts of error messages and log output: errors are counted, not worded.
- Outcome.HonestSuccess: speaks of a Reconcile nobody disturbs, because under interference the goal can be undone before it returns; the guarantees under interference are those of `Disturbed`, `Safety`, `Finalizer` and `Isolation`.
- Convergence.Converges: a collision of the generated name counts as a failing call.
- TaskManager.Manager.Close: one operation of a shared primitive is one atomic action; a method that blocks returns with a flag that says so.
- Configuration, flags, logging, metrics, version, server wiring, generated deep copies and field indexes: plumbing over libraries.
