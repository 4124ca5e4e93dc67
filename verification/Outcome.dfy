/** What one undisturbed Reconcile achieves, stated without its steps: honest success,
    convergence, and the fixed point. */
module Outcome {
  import opened Objects
  import opened ApiServer
  import opened Reconcile
  import Claim

  // ----- undisturbed executions -----

  /** The worker runs alone, one answer per step. */
  ghost predicate Solo(t: Template, c: Cluster, pc: PC, answers: seq<Answer>)
    decreases |answers|
  {
    answers == [] ||
    (InFlight(pc) && Admissible(c, pc, answers[0]) &&
     var r := Step(t, c, pc, answers[0]); Solo(t, r.0, r.1, answers[1..]))
  }

  ghost function SoloEnd(t: Template, c: Cluster, pc: PC, answers: seq<Answer>): (Cluster, PC)
    requires Solo(t, c, pc, answers)
    decreases |answers|
  {
    if answers == [] then (c, pc)
    else var r := Step(t, c, pc, answers[0]); SoloEnd(t, r.0, r.1, answers[1..])
  }

  // ----- the specification: what becomes of each pod and of the Service -----

  /** The active pods a Reconcile counts as the Service's: its own, and orphans it may adopt. */
  predicate Orphan(inst: Service, p: Pod) {
    Selected(p, inst) && IsPodActive(p) && ControllerUid(p) == None && !inst.deleting
  }

  predicate Owned(inst: Service, p: Pod) {
    Selected(p, inst) && IsPodActive(p) && ControllerUid(p) == Some(inst.uid)
  }

  predicate Claimable(inst: Service, p: Pod) {
    Orphan(inst, p) || Owned(inst, p)
  }

  /** Left in place, with the controller reference when it was an orphan. */
  predicate Kept(inst: Service, p: Pod, after: Option<Pod>) {
    after.Some? &&
    if Orphan(inst, p)
    then SetControllerReference(OwnerOf(inst), p).Some?
         && after.value == SetControllerReference(OwnerOf(inst), p).value.(version := after.value.version)
    else after.value == p
  }

  /** Removed (its name may be taken by a new pod), or the same pod terminating. */
  predicate Ended(p: Pod, after: Option<Pod>) {
    after.None? || after.value.uid != p.uid ||
    (after.value.deleting && after.value.key == p.key && after.value.labels == p.labels)
  }

  /** The pod has to go: it is inactive, or the Service does not want a tunnel any more. */
  predicate Doomed(inst: Service, p: Pod) {
    Selected(p, inst) && (!IsPodActive(p) || (Claimable(inst, p) && !WantsPod(inst)))
  }

  function At(c: Cluster, k: Key): Option<Pod> {
    if k in c.pods then Some(c.pods[k]) else None
  }

  ghost predicate PodsSettled(c0: Cluster, inst: Service, c: Cluster) {
    forall k | k in c0.pods ::
      if Doomed(inst, c0.pods[k]) then Ended(c0.pods[k], At(c, k)) else Kept(inst, c0.pods[k], At(c, k))
  }

  ghost predicate NeedsPod(c0: Cluster, inst: Service) {
    WantsPod(inst) && forall k | k in c0.pods :: !Claimable(inst, c0.pods[k])
  }

  predicate IsNew(c0: Cluster, p: Pod) { p.uid !in c0.podUids }

  /** New pods: exactly one when the Service wants a tunnel and has none, else none. */
  ghost predicate PodsMade(c0: Cluster, inst: Service, c: Cluster) {
    && (forall k | k in c.pods && IsNew(c0, c.pods[k]) :: NeedsPod(c0, inst) && Owned(inst, c.pods[k]))
    && (forall k | k in c.pods && !IsNew(c0, c.pods[k]) :: k in c0.pods && c0.pods[k].uid == c.pods[k].uid)
    && (forall k, l | k in c.pods && l in c.pods && IsNew(c0, c.pods[k]) && IsNew(c0, c.pods[l]) :: k == l)
    && (NeedsPod(c0, inst) ==> exists k :: k in c.pods && IsNew(c0, c.pods[k]))
  }

  /** The finalizer is appended unless it is there already. */
  function Guarding(inst: Service): (r: seq<string>)
    ensures FINALIZER_NAME in r
  {
    if FINALIZER_NAME in inst.finalizers then inst.finalizers else inst.finalizers + [FINALIZER_NAME]
  }

  ghost predicate ServiceSettled(c0: Cluster, inst: Service, c: Cluster) {
    && (forall k | k != inst.key ::
          (k in c.services <==> k in c0.services) && (k in c.services ==> c.services[k] == c0.services[k]))
    && if WantsPod(inst)
       then inst.key in c.services &&
            c.services[inst.key] == inst.(version := c.services[inst.key].version, finalizers := Guarding(inst))
       else if inst.deleting && Dropped(inst).finalizers == [] then inst.key !in c.services
       else inst.key in c.services && c.services[inst.key] == Dropped(inst).(version := c.services[inst.key].version)
  }

  /** The goal of a Reconcile for the Service as read. */
  ghost predicate Goal(c0: Cluster, inst: Service, c: Cluster) {
    PodsSettled(c0, inst, c) && PodsMade(c0, inst, c) && ServiceSettled(c0, inst, c)
  }

  // ----- how far a Reconcile has come -----

  /** Exactly the selected active pods of the start, each once. */
  ghost predicate ActiveAre(c0: Cluster, inst: Service, active: seq<Pod>) {
    && (forall i | 0 <= i < |active| ::
          At(c0, active[i].key) == Some(active[i]) && Selected(active[i], inst) && IsPodActive(active[i]))
    && DistinctKeys(active)
    && (forall k | k in c0.pods && Selected(c0.pods[k], inst) && IsPodActive(c0.pods[k]) ::
          Among(active, 0, |active|, k))
  }

  predicate Among(pods: seq<Pod>, lo: nat, hi: nat, k: Key)
    requires hi <= |pods|
  {
    exists i :: lo <= i < hi && pods[i].key == k
  }

  /** A pod at the stage where orphans count as adopted if `adopted`, and doomed ones as gone if `ended`. */
  predicate Stage(inst: Service, p: Pod, after: Option<Pod>, adopted: bool, ended: bool) {
    if ended then Ended(p, after)
    else if adopted then Kept(inst, p, after)
    else after == Some(p)
  }

  /** Nothing but stored pods has changed, and each is still the pod it was. */
  ghost predicate SamePods(c0: Cluster, c: Cluster) {
    c.podUids == c0.podUids &&
    forall k | k in c.pods ::
      k in c0.pods && c.pods[k].key == k && c.pods[k].uid == c0.pods[k].uid && c.pods[k].labels == c0.pods[k].labels
  }

  ghost predicate SameServices(c0: Cluster, c: Cluster) {
    c.services == c0.services && SamePods(c0, c)
  }

  ghost predicate ClaimedAre(c0: Cluster, inst: Service, claimed: seq<Pod>) {
    && (forall i | 0 <= i < |claimed| :: At(c0, claimed[i].key) == Some(claimed[i]) && Claimable(inst, claimed[i]))
    && (forall k | k in c0.pods && Claimable(inst, c0.pods[k]) :: Among(claimed, 0, |claimed|, k))
  }

  ghost predicate ClaimProgress(c0: Cluster, inst: Service, c: Cluster, claim: Claim.State)
    requires claim.next <= |claim.objs|
  {
    && (forall k | k in c0.pods :: Stage(inst, c0.pods[k], At(c, k), Among(claim.objs, 0, claim.next, k), false))
    && (forall i | 0 <= i < |claim.claimed| ::
          claim.claimed[i] < claim.next && Claimable(inst, claim.objs[claim.claimed[i]]))
    && (forall i | 0 <= i < claim.next && Claimable(inst, claim.objs[i]) :: i in claim.claimed)
  }

  ghost predicate Found(c0: Cluster, key: Key, inst: Service) {
    key in c0.services && c0.services[key] == inst && inst.key == key
  }

  predicate Inactive(inst: Service, p: Pod) {
    Selected(p, inst) && !IsPodActive(p)
  }

  ghost predicate InactiveAre(c0: Cluster, inst: Service, inactive: seq<Pod>) {
    && (forall i | 0 <= i < |inactive| :: At(c0, inactive[i].key) == Some(inactive[i]) && Inactive(inst, inactive[i]))
    && (forall k | k in c0.pods && Inactive(inst, c0.pods[k]) :: Among(inactive, 0, |inactive|, k))
  }

  /** A Reconcile that reports success: the goal is met, or there was no Service. */
  ghost predicate Achieved(c0: Cluster, key: Key, c: Cluster) {
    if key in c0.services then Goal(c0, c0.services[key], c) else c == c0
  }

  /** How far a Reconcile of the Service at `key` has come, phase by phase, as long as it has not
      met an error. */
  ghost predicate Progress(c0: Cluster, key: Key, c: Cluster, pc: PC) {
    match pc
    case AtGet(k) => k == key && c == c0
    case AtList(inst) => Found(c0, key, inst) && c == c0
    case AtClaim(inst, inactive, claim) =>
      && Found(c0, key, inst) && SameServices(c0, c)
      && ActiveAre(c0, inst, claim.objs) && InactiveAre(c0, inst, inactive)
      && claim.mgr == ManagerFor(inst) && claim.next <= |claim.objs|
      && (claim.errs == 0 ==> ClaimProgress(c0, inst, c, claim))
    case AtDeleteInactive(inst, inactive, next, claimed, errs) =>
      && Found(c0, key, inst) && SameServices(c0, c) && next <= |inactive|
      && InactiveAre(c0, inst, inactive) && ClaimedAre(c0, inst, claimed)
      && (errs == 0 ==> forall k | k in c0.pods :: Stage(inst, c0.pods[k], At(c, k), true, Among(inactive, 0, next, k)))
    case AtDeleteClaimed(inst, claimed, next, errs) =>
      && Found(c0, key, inst) && SameServices(c0, c) && next <= |claimed| && !WantsPod(inst)
      && ClaimedAre(c0, inst, claimed)
      && (errs == 0 ==> forall k | k in c0.pods ::
            Stage(inst, c0.pods[k], At(c, k), true, Inactive(inst, c0.pods[k]) || Among(claimed, 0, next, k)))
    case AtDropFinalizer(inst, errs) =>
      && Found(c0, key, inst) && SameServices(c0, c) && !WantsPod(inst)
      && (errs == 0 ==> PodsSettled(c0, inst, c))
    case AtAddFinalizer(inst, claimed) =>
      && Found(c0, key, inst) && SameServices(c0, c) && WantsPod(inst) && ClaimedAre(c0, inst, claimed)
      && PodsSettled(c0, inst, c)
    case AtCreate(inst) =>
      && Found(c0, key, inst) && SamePods(c0, c) && NeedsPod(c0, inst)
      && PodsSettled(c0, inst, c) && ServiceSettled(c0, inst, c)
    case Done(failed) => !failed ==> Achieved(c0, key, c)
  }

  // ----- listing -----

  ghost predicate DistinctKeys(pods: seq<Pod>) {
    forall i, j | 0 <= i < j < |pods| :: pods[i].key != pods[j].key
  }

  lemma {:induction false} SplitDistinct(pods: seq<Pod>, active: bool)
    requires DistinctKeys(pods)
    ensures DistinctKeys(Split(pods, active))
  {
    if pods != [] {
      SplitDistinct(pods[1..], active);
      SplitMembers(pods[1..], active);
      var rest := Split(pods[1..], active);
      forall j | 0 <= j < |rest| ensures rest[j].key != pods[0].key {
        assert rest[j] in pods[1..];
      }
    }
  }

  /** Each half of a listing holds the stored pods of its kind, and all of them. */
  lemma HalfOfListing(c0: Cluster, inst: Service, listing: seq<Pod>, active: bool)
    requires WellFormed(c0) && IsListing(c0, inst, listing)
    ensures var half := Split(listing, active);
      && (forall i | 0 <= i < |half| ::
            At(c0, half[i].key) == Some(half[i]) && Selected(half[i], inst) && IsPodActive(half[i]) == active)
      && (forall k | k in c0.pods && Selected(c0.pods[k], inst) && IsPodActive(c0.pods[k]) == active ::
            Among(half, 0, |half|, k))
  {
    var half := Split(listing, active);
    SplitMembers(listing, active);
    forall i | 0 <= i < |half|
      ensures At(c0, half[i].key) == Some(half[i]) && Selected(half[i], inst) && IsPodActive(half[i]) == active
    {
      assert half[i] in half;
    }
    forall k | k in c0.pods && Selected(c0.pods[k], inst) && IsPodActive(c0.pods[k]) == active
      ensures Among(half, 0, |half|, k)
    {
      var i :| 0 <= i < |listing| && listing[i] == c0.pods[k];
      assert c0.pods[k] in half;
    }
  }

  lemma ListingSplits(c0: Cluster, inst: Service, listing: seq<Pod>)
    requires WellFormed(c0) && IsListing(c0, inst, listing)
    ensures ActiveAre(c0, inst, Split(listing, true)) && InactiveAre(c0, inst, Split(listing, false))
  {
    HalfOfListing(c0, inst, listing, true);
    HalfOfListing(c0, inst, listing, false);
    SplitDistinct(listing, true);
  }

  // ----- claiming -----

  lemma DecideSelected(inst: Service, p: Pod)
    requires Selected(p, inst) && IsPodActive(p)
    ensures var d := Claim.Decide(ManagerFor(inst), p);
      && (d.Adopt? <==> Orphan(inst, p)) && (d.Keep? <==> Owned(inst, p)) && !d.Release?
    ensures MayOwn(inst.key.namespace, p.key.namespace)
    ensures Orphan(inst, p) ==> SetControllerReference(OwnerOf(inst), p).Some?
  {
  }

  lemma AmongNext(pods: seq<Pod>, lo: nat, next: nat, k: Key)
    requires lo <= next < |pods|
    ensures Among(pods, lo, next + 1, k) <==> Among(pods, lo, next, k) || pods[next].key == k
  {
  }

  lemma ClaimLocalProgress(c0: Cluster, inst: Service, c: Cluster, claim: Claim.State, claim': Claim.State)
    requires ActiveAre(c0, inst, claim.objs) && claim.next < |claim.objs| && ClaimProgress(c0, inst, c, claim)
    requires var p := claim.objs[claim.next];
      !Orphan(inst, p) && claim' == if Owned(inst, p) then Claim.Take(claim) else Claim.Skip(claim)
    ensures ClaimProgress(c0, inst, c, claim')
  {
    forall k | k in c0.pods ensures Stage(inst, c0.pods[k], At(c, k), Among(claim.objs, 0, claim.next + 1, k), false) {
      AmongNext(claim.objs, 0, claim.next, k);
    }
  }

  lemma ClaimWriteProgress(c0: Cluster, inst: Service, c: Cluster, claim: Claim.State, d: Cluster)
    requires ActiveAre(c0, inst, claim.objs) && claim.next < |claim.objs| && ClaimProgress(c0, inst, c, claim)
    requires var p := claim.objs[claim.next];
      && Orphan(inst, p) && SetControllerReference(OwnerOf(inst), p).Some?
      && var q := SetControllerReference(OwnerOf(inst), p).value;
         d.pods == c.pods[q.key := q.(version := d.revision)] ||
           (d == c && c.pods.Keys >= {q.key} && c.pods[q.key] == q)
    ensures ClaimProgress(c0, inst, d, Claim.Take(claim))
  {
    forall k | k in c0.pods ensures Stage(inst, c0.pods[k], At(d, k), Among(claim.objs, 0, claim.next + 1, k), false) {
      AmongNext(claim.objs, 0, claim.next, k);
      if k == claim.objs[claim.next].key {
        assert c0.pods[k] == claim.objs[claim.next];
      }
    }
  }

  lemma UpdatePodSame(c0: Cluster, c: Cluster, p: Pod, q: Pod, fault: Fault)
    requires SameServices(c0, c) && At(c0, p.key) == Some(p) && q.key == p.key && q.uid == p.uid && q.labels == p.labels
    ensures SameServices(c0, UpdatePod(c, q, fault).cluster)
  {
  }

  lemma AdoptStepProgress(c0: Cluster, inst: Service, c: Cluster, claim: Claim.State, ans: Answer)
    requires SameServices(c0, c) && ActiveAre(c0, inst, claim.objs) && claim.mgr == ManagerFor(inst)
    requires claim.next < |claim.objs| && Claim.NextCall(claim).Write?
    ensures var r := Claim.Step(c, claim, ans);
      && SameServices(c0, r.0) && r.1.next == claim.next + 1
      && (claim.errs == 0 && ClaimProgress(c0, inst, c, claim) && r.1.errs == 0 ==> ClaimProgress(c0, inst, r.0, r.1))
  {
    var p := claim.objs[claim.next];
    DecideSelected(inst, p);
    var q := Claim.NextCall(claim).written;
    UpdatePodSame(c0, c, p, q, ans.fault);
    var r := Claim.Step(c, claim, ans);
    if claim.errs == 0 && ClaimProgress(c0, inst, c, claim) && r.1.errs == 0 {
      ClaimWriteProgress(c0, inst, c, claim, r.0);
    }
  }

  lemma ClaimStepProgress(c0: Cluster, key: Key, inst: Service, inactive: seq<Pod>, c: Cluster, claim: Claim.State,
                          ans: Answer)
    requires Progress(c0, key, c, AtClaim(inst, inactive, claim)) && !Claim.Finished(claim)
    ensures var r := Claim.Step(c, claim, ans); Progress(c0, key, r.0, AtClaim(inst, inactive, r.1))
  {
    DecideSelected(inst, claim.objs[claim.next]);
    var r := Claim.Step(c, claim, ans);
    var call := Claim.NextCall(claim);
    if call.Write? {
      AdoptStepProgress(c0, inst, c, claim, ans);
    } else if claim.errs == 0 && call.NoCall? && r.1.errs == 0 {
      ClaimLocalProgress(c0, inst, c, claim, r.1);
    }
  }

  lemma ClaimFinishes(c0: Cluster, inst: Service, inactive: seq<Pod>, c: Cluster, claim: Claim.State)
    requires ActiveAre(c0, inst, claim.objs) && InactiveAre(c0, inst, inactive)
    requires claim.next == |claim.objs| && ClaimProgress(c0, inst, c, claim)
    ensures ClaimedAre(c0, inst, Pick(claim.objs, claim.claimed))
    ensures forall k | k in c0.pods :: Stage(inst, c0.pods[k], At(c, k), true, Among(inactive, 0, 0, k))
  {
    var claimed := Pick(claim.objs, claim.claimed);
    forall k | k in c0.pods && Claimable(inst, c0.pods[k]) ensures Among(claimed, 0, |claimed|, k) {
      assert Among(claim.objs, 0, |claim.objs|, k);
      var i :| 0 <= i < |claim.objs| && claim.objs[i].key == k;
      var j :| 0 <= j < |claim.claimed| && claim.claimed[j] == i;
      assert claimed[j] == claim.objs[i];
    }
    forall k | k in c0.pods ensures Stage(inst, c0.pods[k], At(c, k), true, Among(inactive, 0, 0, k)) {
      if !Among(claim.objs, 0, claim.next, k) {
        assert !(Selected(c0.pods[k], inst) && IsPodActive(c0.pods[k]));
      }
    }
  }

  // ----- deleting -----

  lemma MarkSame(c0: Cluster, c: Cluster, k: Key, gone: bool)
    requires SameServices(c0, c) && k in c.pods
    ensures var d := MarkPod(c, k, gone);
      SameServices(c0, d) && (forall l | l != k :: At(d, l) == At(c, l)) && (k in d.pods ==> d.pods[k].deleting)
  {
    if !c.pods[k].deleting {
      var q := c.pods[k].(key := k, deleting := true);
      assert SameServices(c0, RemovePod(c, k));
      assert SameServices(c0, StorePod(c, q));
    }
  }

  /** A Delete that reports success or NotFound ends the pod under its key and no other. */
  lemma DeleteEnds(c0: Cluster, c: Cluster, k: Key, ans: Answer)
    requires WellFormed(c0) && SameServices(c0, c)
    ensures var d := DeletePod(c, k, ans.fault, ans.gone);
      && SameServices(c0, d.cluster)
      && (forall l | l != k :: At(d.cluster, l) == At(c, l))
      && (!Hard(d.error) && k in c0.pods ==> Ended(c0.pods[k], At(d.cluster, k)))
  {
    if k in c.pods {
      MarkSame(c0, c, k, ans.gone);
    }
  }

  lemma DeleteInactiveProgress(t: Template, c0: Cluster, key: Key, c: Cluster, pc: PC, ans: Answer)
    requires WellFormed(c0) && pc.AtDeleteInactive? && Progress(c0, key, c, pc) && pc.next < |pc.inactive|
    ensures var r := Step(t, c, pc, ans); Progress(c0, key, r.0, r.1)
  {
    var k := pc.inactive[pc.next].key;
    DeleteEnds(c0, c, k, ans);
    var r := Step(t, c, pc, ans);
    if r.1.errs == 0 {
      forall l | l in c0.pods
        ensures Stage(pc.inst, c0.pods[l], At(r.0, l), true, Among(pc.inactive, 0, pc.next + 1, l))
      {
        AmongNext(pc.inactive, 0, pc.next, l);
        assert Stage(pc.inst, c0.pods[l], At(c, l), true, Among(pc.inactive, 0, pc.next, l));
      }
    }
  }

  lemma DeleteClaimedProgress(t: Template, c0: Cluster, key: Key, c: Cluster, pc: PC, ans: Answer)
    requires WellFormed(c0) && pc.AtDeleteClaimed? && Progress(c0, key, c, pc) && pc.next < |pc.claimed|
    ensures var r := Step(t, c, pc, ans); Progress(c0, key, r.0, r.1)
  {
    var k := pc.claimed[pc.next].key;
    DeleteEnds(c0, c, k, ans);
    var r := Step(t, c, pc, ans);
    if r.1.errs == 0 {
      forall l | l in c0.pods
        ensures Stage(pc.inst, c0.pods[l], At(r.0, l), true,
                      Inactive(pc.inst, c0.pods[l]) || Among(pc.claimed, 0, pc.next + 1, l))
      {
        AmongNext(pc.claimed, 0, pc.next, l);
        assert Stage(pc.inst, c0.pods[l], At(c, l), true,
                     Inactive(pc.inst, c0.pods[l]) || Among(pc.claimed, 0, pc.next, l));
      }
    }
  }

  // ----- the Service -----

  /** An acknowledged removal of the finalizer leaves the Service as the goal asks. */
  lemma FinalizerDropped(c0: Cluster, inst: Service, c: Cluster, fault: Fault)
    requires WellFormed(c0) && Found(c0, inst.key, inst) && c.services == c0.services && !WantsPod(inst)
    requires UpdateService(c, Dropped(inst), fault).error == NoError
    ensures ServiceSettled(c0, inst, UpdateService(c, Dropped(inst), fault).cluster)
  {
  }

  lemma DropProgress(t: Template, c0: Cluster, key: Key, c: Cluster, pc: PC, ans: Answer)
    requires WellFormed(c0) && pc.AtDropFinalizer? && Progress(c0, key, c, pc)
    ensures var r := Step(t, c, pc, ans); Progress(c0, key, r.0, r.1)
  {
    var r := Step(t, c, pc, ans);
    if !r.1.failed {
      FinalizerDropped(c0, pc.inst, c, ans.fault);
      SettledSame(c0, pc.inst, c, r.0);
      assert PodsMade(c0, pc.inst, r.0);
    }
  }

  /** Once the finalizer is stored, nothing else about the Service has changed. */
  lemma FinalizerStored(c0: Cluster, inst: Service, c: Cluster, fault: Fault)
    requires Found(c0, inst.key, inst) && c.services == c0.services && WantsPod(inst)
    ensures FINALIZER_NAME in inst.finalizers ==> ServiceSettled(c0, inst, c)
    ensures var reply := UpdateService(c, Added(inst), fault);
      FINALIZER_NAME !in inst.finalizers && reply.error == NoError ==> ServiceSettled(c0, inst, reply.cluster)
  {
    var w := Added(inst);
    assert w.finalizers[|w.finalizers| - 1] == FINALIZER_NAME;
  }

  lemma ProvisionedProgress(c0: Cluster, key: Key, c: Cluster, inst: Service, claimed: seq<Pod>)
    requires WellFormed(c0) && Found(c0, key, inst) && SamePods(c0, c) && WantsPod(inst)
    requires ClaimedAre(c0, inst, claimed)
    requires PodsSettled(c0, inst, c) && ServiceSettled(c0, inst, c)
    ensures Progress(c0, key, c, AfterFinalizer(inst, claimed))
  {
    if claimed != [] {
      assert Claimable(inst, claimed[0]);
      assert !NeedsPod(c0, inst);
      assert PodsMade(c0, inst, c);
    }
  }

  /** Nothing about the pods depends on the Services. */
  lemma SettledSame(c0: Cluster, inst: Service, c: Cluster, d: Cluster)
    requires PodsSettled(c0, inst, c) && SamePods(c0, c) && d.pods == c.pods && d.podUids == c.podUids
    ensures PodsSettled(c0, inst, d) && SamePods(c0, d)
  {
    assert forall k :: At(d, k) == At(c, k);
  }

  lemma AddProgress(t: Template, c0: Cluster, key: Key, c: Cluster, pc: PC, ans: Answer)
    requires WellFormed(c0) && pc.AtAddFinalizer? && Progress(c0, key, c, pc)
    ensures var r := Step(t, c, pc, ans); Progress(c0, key, r.0, r.1)
  {
    FinalizerStored(c0, pc.inst, c, ans.fault);
    if FINALIZER_NAME in pc.inst.finalizers {
      ProvisionedProgress(c0, key, c, pc.inst, pc.claimed);
    } else if UpdateService(c, Added(pc.inst), ans.fault).error == NoError {
      var d := UpdateService(c, Added(pc.inst), ans.fault).cluster;
      SettledSame(c0, pc.inst, c, d);
      ProvisionedProgress(c0, key, d, pc.inst, pc.claimed);
    }
  }

  /** The created pod is the one new pod. */
  lemma CreateMakes(c0: Cluster, inst: Service, c: Cluster, p: Pod, uid: Uid, fault: Fault)
    requires SamePods(c0, c) && WellFormed(c0) && NeedsPod(c0, inst) && uid !in c.podUids
    requires Selected(p, inst) && ControllerUid(p) == Some(inst.uid) && CreatePod(c, p, uid, fault).error == NoError
    ensures PodsMade(c0, inst, CreatePod(c, p, uid, fault).cluster)
  {
    var d := CreatePod(c, p, uid, fault).cluster;
    assert ControllerUid(d.pods[p.key]) == ControllerUid(p);
    assert Owned(inst, d.pods[p.key]);
    forall k | k in d.pods && k != p.key
      ensures k in c0.pods && d.pods[k].uid == c0.pods[k].uid && !IsNew(c0, d.pods[k])
    {
      assert d.pods[k] == c.pods[k];
    }
    assert IsNew(c0, d.pods[p.key]);
  }

  /** A pod under a name that was free changes nothing for the pods of the start. */
  lemma CreateLeaves(c0: Cluster, inst: Service, c: Cluster, p: Pod, uid: Uid, fault: Fault)
    requires PodsSettled(c0, inst, c) && WellFormed(c0) && c.podUids == c0.podUids && uid !in c.podUids
    requires CreatePod(c, p, uid, fault).error == NoError
    ensures PodsSettled(c0, inst, CreatePod(c, p, uid, fault).cluster)
  {
    var d := CreatePod(c, p, uid, fault).cluster;
    forall k | k in c0.pods
      ensures if Doomed(inst, c0.pods[k]) then Ended(c0.pods[k], At(d, k)) else Kept(inst, c0.pods[k], At(d, k))
    {
      assert k != p.key ==> At(d, k) == At(c, k);
    }
  }

  lemma CreateProgress(t: Template, c0: Cluster, key: Key, c: Cluster, pc: PC, ans: Answer)
    requires WellFormed(c0) && pc.AtCreate? && Progress(c0, key, c, pc) && ans.uid !in c.podUids
    ensures var r := Step(t, c, pc, ans); Progress(c0, key, r.0, r.1)
  {
    var r := Step(t, c, pc, ans);
    GeneratedPod(t, pc.inst, ans.suffix);
    if !r.1.failed {
      var p := GeneratePod(t, pc.inst, ans.suffix).value;
      CreateMakes(c0, pc.inst, c, p, ans.uid, ans.fault);
      CreateLeaves(c0, pc.inst, c, p, ans.uid, ans.fault);
    }
  }

  // ----- the whole Reconcile -----

  lemma InactiveDone(t: Template, c0: Cluster, key: Key, c: Cluster, pc: PC, ans: Answer)
    requires pc.AtDeleteInactive? && Progress(c0, key, c, pc) && pc.next == |pc.inactive|
    ensures var r := Step(t, c, pc, ans); Progress(c0, key, r.0, r.1)
  {
    if pc.errs == 0 {
      forall k | k in c0.pods ensures Among(pc.inactive, 0, pc.next, k) <==> Inactive(pc.inst, c0.pods[k]) {}
    }
  }

  lemma ClaimedDone(t: Template, c0: Cluster, key: Key, c: Cluster, pc: PC, ans: Answer)
    requires pc.AtDeleteClaimed? && Progress(c0, key, c, pc) && pc.next == |pc.claimed|
    ensures var r := Step(t, c, pc, ans); Progress(c0, key, r.0, r.1)
  {
    if pc.errs == 0 {
      forall k | k in c0.pods ensures Among(pc.claimed, 0, pc.next, k) <==> Claimable(pc.inst, c0.pods[k]) {}
    }
  }

  lemma ClaimPhaseProgress(t: Template, c0: Cluster, key: Key, c: Cluster, pc: PC, ans: Answer)
    requires pc.AtClaim? && Progress(c0, key, c, pc)
    ensures var r := Step(t, c, pc, ans); Progress(c0, key, r.0, r.1)
  {
    if !Claim.Finished(pc.claim) {
      ClaimStepProgress(c0, key, pc.inst, pc.inactive, c, pc.claim, ans);
    } else if pc.claim.errs == 0 {
      ClaimFinishes(c0, pc.inst, pc.inactive, c, pc.claim);
    }
  }

  lemma DeletesProgress(t: Template, c0: Cluster, key: Key, c: Cluster, pc: PC, ans: Answer)
    requires WellFormed(c0) && (pc.AtDeleteInactive? || pc.AtDeleteClaimed?) && Progress(c0, key, c, pc)
    ensures var r := Step(t, c, pc, ans); Progress(c0, key, r.0, r.1)
  {
    if pc.AtDeleteInactive? {
      if pc.next < |pc.inactive| {
        DeleteInactiveProgress(t, c0, key, c, pc, ans);
      } else {
        InactiveDone(t, c0, key, c, pc, ans);
      }
    } else {
      if pc.next < |pc.claimed| {
        DeleteClaimedProgress(t, c0, key, c, pc, ans);
      } else {
        ClaimedDone(t, c0, key, c, pc, ans);
      }
    }
  }

  lemma StepProgress(t: Template, c0: Cluster, key: Key, c: Cluster, pc: PC, ans: Answer)
    requires WellFormed(c0) && Progress(c0, key, c, pc) && InFlight(pc) && Admissible(c, pc, ans)
    ensures var r := Step(t, c, pc, ans); Progress(c0, key, r.0, r.1)
  {
    match pc
    case AtGet(_) =>
    case AtList(inst) => ListProgress(t, c0, key, c, pc, ans);
    case AtClaim(_, _, _) => ClaimPhaseProgress(t, c0, key, c, pc, ans);
    case AtDeleteInactive(_, _, _, _, _) => DeletesProgress(t, c0, key, c, pc, ans);
    case AtDeleteClaimed(_, _, _, _) => DeletesProgress(t, c0, key, c, pc, ans);
    case AtDropFinalizer(_, _) => DropProgress(t, c0, key, c, pc, ans);
    case AtAddFinalizer(_, _) => AddProgress(t, c0, key, c, pc, ans);
    case AtCreate(_) => CreateProgress(t, c0, key, c, pc, ans);
  }

  lemma ListProgress(t: Template, c0: Cluster, key: Key, c: Cluster, pc: PC, ans: Answer)
    requires WellFormed(c0) && pc.AtList? && Progress(c0, key, c, pc) && Admissible(c, pc, ans)
    ensures var r := Step(t, c, pc, ans); Progress(c0, key, r.0, r.1)
  {
    if ans.fault.Served? {
      ListingSplits(c0, pc.inst, ans.listing);
      var claim := Step(t, c, pc, ans).1.claim;
      forall k | k in c0.pods ensures !Among(claim.objs, 0, 0, k) {}
    }
  }

  lemma {:induction false} SoloProgress(t: Template, c0: Cluster, key: Key, c: Cluster, pc: PC, answers: seq<Answer>)
    requires WellFormed(c0) && Progress(c0, key, c, pc) && Solo(t, c, pc, answers)
    ensures var end := SoloEnd(t, c, pc, answers); Progress(c0, key, end.0, end.1)
    decreases |answers|
  {
    if answers != [] {
      StepProgress(t, c0, key, c, pc, answers[0]);
      var r := Step(t, c, pc, answers[0]);
      SoloProgress(t, c0, key, r.0, r.1, answers[1..]);
    }
  }

  /** Whatever calls fail, a Reconcile that reports success has reached the goal for the Service
      as it was read; with no Service it has changed nothing. */
  lemma HonestSuccess(t: Template, c0: Cluster, key: Key, answers: seq<Answer>)
    requires WellFormed(c0) && Solo(t, c0, AtGet(key), answers)
    requires SoloEnd(t, c0, AtGet(key), answers).1 == Done(false)
    ensures Achieved(c0, key, SoloEnd(t, c0, AtGet(key), answers).0)
  {
    SoloProgress(t, c0, key, c0, AtGet(key), answers);
  }
}
