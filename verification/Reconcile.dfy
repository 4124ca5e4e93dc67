/** ServiceReconciler.Reconcile as a machine that makes at most one API call per step, and the
    system in which one worker per Service key runs between other actors' moves. */
module Reconcile {
  import opened Objects
  import opened ApiServer
  import Claim

  /** Where a Reconcile stands, with its local variables. `inst` is the Service as read. */
  datatype PC =
    | AtGet(key: Key)
    | AtList(inst: Service)
    | AtClaim(inst: Service, inactive: seq<Pod>, claim: Claim.State)
    | AtDeleteInactive(inst: Service, inactive: seq<Pod>, next: nat, claimed: seq<Pod>, errs: nat)
    | AtDeleteClaimed(inst: Service, claimed: seq<Pod>, next: nat, errs: nat)
    | AtDropFinalizer(inst: Service, errs: nat)
    | AtAddFinalizer(inst: Service, claimed: seq<Pod>)
    | AtCreate(inst: Service)
    | Done(failed: bool)

  function ManagerFor(s: Service): Claim.Manager {
    Claim.Manager(OwnerOf(s), SelectorFor(s.key.name, s.uid), [])
  }

  /** The active (or the inactive) pods of a listing, in its order. */
  function Split(pods: seq<Pod>, active: bool): seq<Pod> {
    if pods == [] then []
    else (if IsPodActive(pods[0]) == active then [pods[0]] else []) + Split(pods[1..], active)
  }

  lemma {:induction false} SplitMembers(pods: seq<Pod>, active: bool)
    ensures forall p :: p in Split(pods, active) <==> p in pods && IsPodActive(p) == active
  {
    if pods != [] {
      SplitMembers(pods[1..], active);
      assert pods == [pods[0]] + pods[1..];
    }
  }

  /** Piece by piece and in order, each pod by its own activity. */
  lemma {:induction false} SplitPieces(a: seq<Pod>, b: seq<Pod>, active: bool, p: Pod)
    ensures Split(a + b, active) == Split(a, active) + Split(b, active)
    ensures Split([p], active) == if IsPodActive(p) == active then [p] else []
    decreases |a|
  {
    assert [p][1..] == [];
    if a == [] {
      assert a + b == b;
    } else {
      SplitPieces(a[1..], b, active, p);
      assert (a + b)[1..] == a[1..] + b;
    }
  }

  function Pick(objs: seq<Pod>, indices: seq<nat>): (r: seq<Pod>)
    ensures |r| <= |indices|
    ensures (forall i | 0 <= i < |indices| :: indices[i] < |objs|) ==>
      |r| == |indices| && forall i | 0 <= i < |r| :: r[i] == objs[indices[i]]
  {
    if indices == [] then []
    else (if indices[0] < |objs| then [objs[indices[0]]] else []) + Pick(objs, indices[1..])
  }

  predicate Hard(e: ApiError) {
    e != NoError && e != NotFound
  }

  function Count(e: bool): nat { if e then 1 else 0 }

  predicate InFlight(pc: PC) { !pc.Done? }

  function AfterFinalizer(inst: Service, claimed: seq<Pod>): PC {
    if claimed == [] then AtCreate(inst) else Done(false)
  }

  function Dropped(inst: Service): Service {
    inst.(finalizers := Without(inst.finalizers, FINALIZER_NAME))
  }

  function Added(inst: Service): Service {
    inst.(finalizers := inst.finalizers + [FINALIZER_NAME])
  }

  function Step(t: Template, c: Cluster, pc: PC, ans: Answer): (r: (Cluster, PC))
    requires InFlight(pc)
  {
    match pc
    case AtGet(key) =>
      if !ans.fault.Served? then (c, Done(true))
      else if key !in c.services then (c, Done(false))
      else (c, AtList(c.services[key]))
    case AtList(inst) =>
      if !ans.fault.Served? then (c, Done(true))
      else (c, AtClaim(inst, Split(ans.listing, false),
                       Claim.Start(ManagerFor(inst), Split(ans.listing, true))))
    case AtClaim(inst, inactive, claim) =>
      if !Claim.Finished(claim) then
        var r := Claim.Step(c, claim, ans);
        (r.0, AtClaim(inst, inactive, r.1))
      else if claim.errs > 0 then (c, Done(true))
      else (c, AtDeleteInactive(inst, inactive, 0, Pick(claim.objs, claim.claimed), 0))
    case AtDeleteInactive(inst, inactive, next, claimed, errs) =>
      if next < |inactive| then
        var reply := DeletePod(c, inactive[next].key, ans.fault, ans.gone);
        (reply.cluster, AtDeleteInactive(inst, inactive, next + 1, claimed, errs + Count(Hard(reply.error))))
      else if errs > 0 then (c, Done(true))
      else if !WantsPod(inst) then (c, AtDeleteClaimed(inst, claimed, 0, 0))
      else (c, AtAddFinalizer(inst, claimed))
    case AtDeleteClaimed(inst, claimed, next, errs) =>
      if next < |claimed| then
        var reply := DeletePod(c, claimed[next].key, ans.fault, ans.gone);
        (reply.cluster, AtDeleteClaimed(inst, claimed, next + 1, errs + Count(Hard(reply.error))))
      else (c, AtDropFinalizer(inst, errs))
    case AtDropFinalizer(inst, errs) =>
      var reply := UpdateService(c, Dropped(inst), ans.fault);
      (reply.cluster, Done(errs > 0 || reply.error != NoError))
    case AtAddFinalizer(inst, claimed) =>
      if FINALIZER_NAME in inst.finalizers then (c, AfterFinalizer(inst, claimed))
      else
        var reply := UpdateService(c, Added(inst), ans.fault);
        (reply.cluster, if reply.error != NoError then Done(true) else AfterFinalizer(inst, claimed))
    case AtCreate(inst) =>
      match GeneratePod(t, inst, ans.suffix)
      case None => (c, Done(true))
      case Some(pod) =>
        var reply := CreatePod(c, pod, ans.uid, ans.fault);
        (reply.cluster, Done(reply.error != NoError))
  }

  /** The answers the API server can give: a listing is complete, a new pod's uid is new. */
  ghost predicate Admissible(c: Cluster, pc: PC, ans: Answer) {
    && (pc.AtList? ==> IsListing(c, pc.inst, ans.listing))
    && (pc.AtCreate? ==> ans.uid !in c.podUids)
  }

  // ----- the system -----

  datatype Sys = Sys(template: Template, cluster: Cluster, workers: map<Key, PC>)

  datatype Action =
    | Begin(key: Key)
    | Work(key: Key, ans: Answer)
    | NewService(svc: Service)
    | EditService(svc: Service)
    | DropService(key: Key)
    | NewPod(pod: Pod)
    | EditPod(pod: Pod)
    | DropPod(key: Key, gone: bool)
    | Vanish(key: Key)

  /** The pod is marked as belonging to the Service uid, by label or by controller. */
  predicate Tracks(p: Pod, uid: Uid) {
    (LABEL_CONTROLLER_UID in p.labels && p.labels[LABEL_CONTROLLER_UID] == uid) || ControllerUid(p) == Some(uid)
  }

  /** An active pod that carries the Service uid as its tracking label. */
  predicate LiveFor(p: Pod, uid: Uid) {
    IsPodActive(p) && LABEL_CONTROLLER_UID in p.labels && p.labels[LABEL_CONTROLLER_UID] == uid
  }

  function TrackingLabels(p: Pod): (Option<string>, Option<string>) {
    (if LABEL_SERVICE_NAME in p.labels then Some(p.labels[LABEL_SERVICE_NAME]) else None,
     if LABEL_CONTROLLER_UID in p.labels then Some(p.labels[LABEL_CONTROLLER_UID]) else None)
  }

  /** An outsider's pod: it does not carry the tracking label and no Service controls it. */
  ghost predicate Outside(c: Cluster, p: Pod) {
    LABEL_CONTROLLER_UID !in p.labels && (ControllerUid(p).Some? ==> ControllerUid(p).value !in c.serviceUids)
  }

  /** What others may do to a stored pod: anything but forge or erase the tracking labels or make
      a Service its controller.  They may take owner references away and set controllers of other
      kinds.  Terminal phases are final. */
  ghost predicate LegalPodEdit(c: Cluster, p: Pod, q: Pod) {
    && q.key == p.key && q.uid == p.uid && q.deleting == p.deleting
    && (IsTerminal(p.phase) ==> q.phase == p.phase)
    && TrackingLabels(q) == TrackingLabels(p)
    && (ControllerUid(q) == ControllerUid(p) || ControllerUid(q) == None || ControllerUid(q).value !in c.serviceUids)
  }

  ghost predicate Enabled(s: Sys, a: Action) {
    var c := s.cluster;
    match a
    case Begin(key) => true  // after a restart of the controller even in the middle of a Reconcile
    case Work(key, ans) => key in s.workers && InFlight(s.workers[key]) && Admissible(c, s.workers[key], ans)
    case NewService(svc) =>
      && svc.key !in c.services && svc.uid !in c.serviceUids && !svc.deleting
      && forall k | k in c.pods :: !Tracks(c.pods[k], svc.uid)
    case EditService(svc) =>
      && svc.key in c.services && svc.uid == c.services[svc.key].uid && svc.deleting == c.services[svc.key].deleting
    case DropService(key) => key in c.services
    case NewPod(pod) => pod.key !in c.pods && pod.uid !in c.podUids && Outside(c, pod)
    case EditPod(pod) => pod.key in c.pods && LegalPodEdit(c, c.pods[pod.key], pod)
    case DropPod(key, gone) => key in c.pods
    case Vanish(key) => key in c.pods
  }

  ghost function Apply(s: Sys, a: Action): Sys
    requires Enabled(s, a)
  {
    var c := s.cluster;
    match a
    case Begin(key) => s.(workers := s.workers[key := AtGet(key)])
    case Work(key, ans) =>
      var r := Step(s.template, c, s.workers[key], ans);
      s.(cluster := r.0, workers := s.workers[key := r.1])
    case NewService(svc) =>
      s.(cluster := StoreService(c, svc).(serviceUids := c.serviceUids[svc.uid := svc.key]))
    case EditService(svc) => s.(cluster := StoreService(c, svc))
    case DropService(key) => s.(cluster := DeleteService(c, key))
    case NewPod(pod) => s.(cluster := StorePod(c, pod).(podUids := c.podUids + {pod.uid}))
    case EditPod(pod) => s.(cluster := StorePod(c, pod))
    case DropPod(key, gone) => s.(cluster := MarkPod(c, key, gone))
    case Vanish(key) => s.(cluster := RemovePod(c, key))
  }

  // ----- runs -----

  ghost predicate Runs(s: Sys, run: seq<Action>)
    decreases |run|
  {
    run == [] || (Enabled(s, run[0]) && Runs(Apply(s, run[0]), run[1..]))
  }

  ghost function After(s: Sys, run: seq<Action>): Sys
    requires Runs(s, run)
    decreases |run|
  {
    if run == [] then s else After(Apply(s, run[0]), run[1..])
  }

  // ----- rules -----

  /** Assumptions on a run, each about single actions.  A theorem names the rules it needs. */
  datatype Rule =
    | FinalizerIsOurs     // no outsider takes the finalizer off
    | ProvisionSeesLive   // a listing for a Service that wants a pod shows no live pod that is passed over
    | CleanupSeesLive     // nor does a listing for one that does not
    | CleanupDeletesLand  // a Delete of a live claimed pod is not refused

  ghost predicate Holds(rule: Rule, s: Sys, a: Action)
    requires Enabled(s, a)
  {
    var c := s.cluster;
    match rule
    case FinalizerIsOurs =>
      a.EditService? && FINALIZER_NAME in c.services[a.svc.key].finalizers ==> FINALIZER_NAME in a.svc.finalizers
    case ProvisionSeesLive =>
      a.Work? && s.workers[a.key].AtList? && a.ans.fault.Served? && WantsPod(s.workers[a.key].inst) ==>
        !exists k :: PassedOver(c, s.workers[a.key].inst, k)
    case CleanupSeesLive =>
      a.Work? && s.workers[a.key].AtList? && a.ans.fault.Served? && !WantsPod(s.workers[a.key].inst) ==>
        !exists k :: PassedOver(c, s.workers[a.key].inst, k)
    case CleanupDeletesLand =>
      a.Work? && DeletesLive(c, s.workers[a.key]) ==> !a.ans.fault.Refused?
  }

  ghost predicate HoldAll(rules: set<Rule>, s: Sys, a: Action)
    requires Enabled(s, a)
  {
    forall r | r in rules :: Holds(r, s, a)
  }

  /** A live pod of the Service that its claim passes over: one under a foreign controller, or an orphan
      when the Service was read as dying. */
  predicate PassedOver(c: Cluster, inst: Service, k: Key) {
    && k in c.pods && LiveFor(c.pods[k], inst.uid) && ControllerUid(c.pods[k]) != Some(inst.uid)
    && (ControllerUid(c.pods[k]).Some? || inst.deleting)
  }

  /** The next call is a cleanup Delete of a pod that is still live. */
  predicate DeletesLive(c: Cluster, pc: PC) {
    && pc.AtDeleteClaimed? && pc.next < |pc.claimed|
    && pc.claimed[pc.next].key in c.pods && LiveFor(c.pods[pc.claimed[pc.next].key], pc.inst.uid)
  }

  ghost predicate Obeys(s: Sys, run: seq<Action>, rules: set<Rule>)
    requires Runs(s, run)
    decreases |run|
  {
    run == [] || (HoldAll(rules, s, run[0]) && Obeys(Apply(s, run[0]), run[1..], rules))
  }

  /** Nobody works yet, and no stored pod claims to belong to a Service. */
  ghost predicate Init(s: Sys) {
    && s.workers == map[] && WellFormed(s.cluster)
    && (forall k | k in s.cluster.pods :: Outside(s.cluster, s.cluster.pods[k]))
  }
}
