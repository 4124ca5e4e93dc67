/** One undisturbed Reconcile without failing calls reaches the goal, and a state is left alone
    exactly when the goal is already met. */
module Convergence {
  import opened Objects
  import opened ApiServer
  import opened Reconcile
  import opened Outcome
  import opened Reads
  import Claim

  // ----- every Reconcile ends -----

  function Phase(pc: PC): nat {
    match pc
    case AtGet(_) => 8
    case AtList(_) => 7
    case AtClaim(_, _, _) => 6
    case AtDeleteInactive(_, _, _, _, _) => 5
    case AtDeleteClaimed(_, _, _, _) => 4
    case AtDropFinalizer(_, _) => 3
    case AtAddFinalizer(_, _) => 2
    case AtCreate(_) => 1
    case Done(_) => 0
  }

  function Left(pc: PC): int {
    match pc
    case AtClaim(_, _, claim) => 2 * (|claim.objs| - claim.next) + Count(claim.verdict.None?)
    case AtDeleteInactive(_, inactive, next, _, _) => |inactive| - next
    case AtDeleteClaimed(_, claimed, next, _) => |claimed| - next
    case _ => 0
  }

  /** Whatever the answers and whatever others do to the cluster, each step moves to a later phase
      or leaves less to do in its own: a Reconcile cannot go on for ever. */
  lemma EveryStepAdvances(t: Template, c: Cluster, pc: PC, ans: Answer)
    requires InFlight(pc)
    ensures var next := Step(t, c, pc, ans).1;
      Phase(next) < Phase(pc) || (Phase(next) == Phase(pc) && 0 <= Left(next) < Left(pc))
  {
  }

  // ----- nothing fails -----

  /** The call is served, and a pod to be created gets a usable template and a free name. */
  ghost predicate Lucky(t: Template, c: Cluster, pc: PC, ans: Answer) {
    && ans.fault.Served?
    && (pc.AtCreate? ==> GeneratePod(t, pc.inst, ans.suffix).Some? &&
                         GeneratePod(t, pc.inst, ans.suffix).value.key !in c.pods)
  }

  ghost predicate AllLucky(t: Template, c: Cluster, pc: PC, answers: seq<Answer>)
    requires Solo(t, c, pc, answers)
    decreases |answers|
  {
    answers == [] ||
    (Lucky(t, c, pc, answers[0]) && var r := Step(t, c, pc, answers[0]); AllLucky(t, r.0, r.1, answers[1..]))
  }

  predicate Smooth(pc: PC) {
    match pc
    case AtClaim(_, _, claim) => claim.errs == 0 && (claim.verdict.Some? ==> claim.verdict.value)
    case AtDeleteInactive(_, _, _, _, errs) => errs == 0
    case AtDeleteClaimed(_, _, _, errs) => errs == 0
    case AtDropFinalizer(_, errs) => errs == 0
    case Done(failed) => !failed
    case _ => true
  }

  lemma ClaimSmooth(c0: Cluster, key: Key, inst: Service, inactive: seq<Pod>, c: Cluster, claim: Claim.State,
                    ans: Answer)
    requires Progress(c0, key, c, AtClaim(inst, inactive, claim)) && !Claim.Finished(claim)
    requires Smooth(AtClaim(inst, inactive, claim)) && ans.fault.Served?
    ensures Smooth(AtClaim(inst, inactive, Claim.Step(c, claim, ans).1))
  {
    var p := claim.objs[claim.next];
    DecideSelected(inst, p);
    assert !Among(claim.objs, 0, claim.next, p.key);
    assert Stage(inst, c0.pods[p.key], At(c, p.key), false, false);
  }

  /** A write from a fresh read is not refused. */
  lemma FinalizerWriteSmooth(c0: Cluster, inst: Service, c: Cluster, w: Service)
    requires Found(c0, inst.key, inst) && c.services == c0.services && w.key == inst.key && w.version == inst.version
    ensures UpdateService(c, w, Served).error == NoError
  {
  }

  lemma CreateSmooth(t: Template, c: Cluster, inst: Service, ans: Answer)
    requires Lucky(t, c, AtCreate(inst), ans)
    ensures Step(t, c, AtCreate(inst), ans).1 == Done(false)
  {
  }

  lemma DeletesSmooth(t: Template, c: Cluster, pc: PC, ans: Answer)
    requires (pc.AtDeleteInactive? || pc.AtDeleteClaimed?) && pc.errs == 0 && ans.fault.Served?
    ensures Smooth(Step(t, c, pc, ans).1)
  {
  }

  lemma SmoothStep(t: Template, c0: Cluster, key: Key, c: Cluster, pc: PC, ans: Answer)
    requires WellFormed(c0) && Progress(c0, key, c, pc) && Smooth(pc) && InFlight(pc)
    requires Admissible(c, pc, ans) && Lucky(t, c, pc, ans)
    ensures Smooth(Step(t, c, pc, ans).1)
  {
    match pc
    case AtClaim(inst, inactive, claim) =>
      if !Claim.Finished(claim) { ClaimSmooth(c0, key, inst, inactive, c, claim, ans); }
    case AtDropFinalizer(inst, _) => FinalizerWriteSmooth(c0, inst, c, Dropped(inst));
    case AtAddFinalizer(inst, _) => FinalizerWriteSmooth(c0, inst, c, Added(inst));
    case AtCreate(inst) => CreateSmooth(t, c, inst, ans);
    case AtDeleteInactive(_, _, _, _, _) => DeletesSmooth(t, c, pc, ans);
    case AtDeleteClaimed(_, _, _, _) => DeletesSmooth(t, c, pc, ans);
    case _ =>
  }

  lemma {:induction false} SmoothSolo(t: Template, c0: Cluster, key: Key, c: Cluster, pc: PC, answers: seq<Answer>)
    requires WellFormed(c0) && Progress(c0, key, c, pc) && Smooth(pc)
    requires Solo(t, c, pc, answers) && AllLucky(t, c, pc, answers)
    ensures Smooth(SoloEnd(t, c, pc, answers).1)
    decreases |answers|
  {
    if answers != [] {
      StepProgress(t, c0, key, c, pc, answers[0]);
      SmoothStep(t, c0, key, c, pc, answers[0]);
      var r := Step(t, c, pc, answers[0]);
      SmoothSolo(t, c0, key, r.0, r.1, answers[1..]);
    }
  }

  // ----- such an execution exists -----

  ghost predicate Lists(c: Cluster, inst: Service, keys: set<Key>, pods: seq<Pod>) {
    && (forall i | 0 <= i < |pods| ::
          pods[i].key in keys && At(c, pods[i].key) == Some(pods[i]) && Selected(pods[i], inst))
    && DistinctKeys(pods)
    && (forall k | k in keys && k in c.pods && Selected(c.pods[k], inst) :: c.pods[k] in pods)
  }

  lemma {:induction false} ListKeys(c: Cluster, inst: Service, keys: set<Key>) returns (pods: seq<Pod>)
    requires WellFormed(c)
    ensures Lists(c, inst, keys, pods)
    decreases keys
  {
    if keys == {} {
      pods := [];
    } else {
      var k :| k in keys;
      var rest := ListKeys(c, inst, keys - {k});
      pods := if k in c.pods && Selected(c.pods[k], inst) then [c.pods[k]] + rest else rest;
      forall l | l in keys && l in c.pods && Selected(c.pods[l], inst) ensures c.pods[l] in pods {
        assert l != k ==> l in keys - {k};
      }
    }
  }

  lemma HasListing(c: Cluster, inst: Service) returns (pods: seq<Pod>)
    requires WellFormed(c)
    ensures IsListing(c, inst, pods)
  {
    pods := ListKeys(c, inst, c.pods.Keys);
  }

  /** There is an answer with which the next step goes well. */
  lemma LuckyAnswer(t: Template, c0: Cluster, key: Key, c: Cluster, pc: PC, suffix: string, uid: Uid)
    returns (ans: Answer)
    requires WellFormed(c0) && Progress(c0, key, c, pc) && uid !in c0.podUids
    requires key in c0.services && NeedsPod(c0, c0.services[key]) ==>
      var made := GeneratePod(t, c0.services[key], suffix);
      made.Some? && made.value.key !in c0.pods
    ensures Admissible(c, pc, ans) && Lucky(t, c, pc, ans)
  {
    var listing := [];
    if pc.AtList? {
      listing := HasListing(c, pc.inst);
    }
    ans := Answer(Served, listing, false, suffix, uid);
  }

  /** From any point on, the remaining steps can be played to the end. */
  lemma {:induction false} PlayOut(t: Template, c0: Cluster, key: Key, c: Cluster, pc: PC, suffix: string, uid: Uid)
    returns (answers: seq<Answer>)
    requires WellFormed(c0) && Progress(c0, key, c, pc) && Smooth(pc) && uid !in c0.podUids
    requires key in c0.services && NeedsPod(c0, c0.services[key]) ==>
      var made := GeneratePod(t, c0.services[key], suffix);
      made.Some? && made.value.key !in c0.pods
    ensures Solo(t, c, pc, answers) && AllLucky(t, c, pc, answers) && SoloEnd(t, c, pc, answers).1.Done?
    decreases Phase(pc), Left(pc)
  {
    if pc.Done? {
      answers := [];
    } else {
      var ans := LuckyAnswer(t, c0, key, c, pc, suffix, uid);
      StepProgress(t, c0, key, c, pc, ans);
      SmoothStep(t, c0, key, c, pc, ans);
      EveryStepAdvances(t, c, pc, ans);
      var r := Step(t, c, pc, ans);
      var rest := PlayOut(t, c0, key, r.0, r.1, suffix, uid);
      answers := [ans] + rest;
      assert answers[1..] == rest;
    }
  }

  // ----- the states a Reconcile leaves alone -----

  /** The Service at `key` is gone, or has what its specification asks for and nothing left to tidy. */
  ghost predicate Settled(c: Cluster, key: Key) {
    key in c.services ==>
      var s := c.services[key];
      && (forall k | k in c.pods && Inactive(s, c.pods[k]) :: c.pods[k].deleting)
      && (forall k | k in c.pods :: !Orphan(s, c.pods[k]))
      && if WantsPod(s)
         then FINALIZER_NAME in s.finalizers && exists k :: k in c.pods && Owned(s, c.pods[k])
         else FINALIZER_NAME !in s.finalizers && forall k | k in c.pods :: !Owned(s, c.pods[k])
  }

  lemma KeptOwned(inst: Service, p: Pod, after: Option<Pod>)
    requires Kept(inst, p, after)
    ensures after.value.labels == p.labels && after.value.key == p.key && IsPodActive(after.value) == IsPodActive(p)
    ensures Claimable(inst, p) ==> Owned(inst, after.value)
    ensures Owned(inst, after.value) ==> Claimable(inst, p)
    ensures !Orphan(inst, after.value)
  {
    if Orphan(inst, p) {
      AdoptControls(OwnerOf(inst), p);
      var q := SetControllerReference(OwnerOf(inst), p).value;
      assert after.value.ownerRefs == q.ownerRefs;
      assert ControllerUid(after.value) == ControllerUid(q);
    }
  }

  /** What a pod stored after the goal is met can be. */
  lemma GoalPods(c0: Cluster, inst: Service, c: Cluster, k: Key)
    requires WellFormed(c0) && Goal(c0, inst, c) && k in c.pods
    ensures Inactive(inst, c.pods[k]) ==> c.pods[k].deleting
    ensures !Orphan(inst, c.pods[k])
    ensures !WantsPod(inst) ==> !Owned(inst, c.pods[k])
  {
    if !IsNew(c0, c.pods[k]) {
      assert At(c, k) == Some(c.pods[k]);
      if !Doomed(inst, c0.pods[k]) {
        KeptOwned(inst, c0.pods[k], At(c, k));
      }
    }
  }

  lemma GoalOwns(c0: Cluster, inst: Service, c: Cluster)
    requires WellFormed(c0) && Goal(c0, inst, c) && WantsPod(inst)
    ensures exists k :: k in c.pods && Owned(inst, c.pods[k])
  {
    if NeedsPod(c0, inst) {
      var k :| k in c.pods && IsNew(c0, c.pods[k]);
      assert Owned(inst, c.pods[k]);
    } else {
      var k :| k in c0.pods && Claimable(inst, c0.pods[k]);
      assert !Doomed(inst, c0.pods[k]);
      KeptOwned(inst, c0.pods[k], At(c, k));
      assert Owned(inst, c.pods[k]);
    }
  }

  lemma SameVerdicts(s: Service, s': Service, p: Pod)
    requires s.key == s'.key && s.uid == s'.uid && s.deleting == s'.deleting
    ensures Inactive(s, p) == Inactive(s', p) && Orphan(s, p) == Orphan(s', p) && Owned(s, p) == Owned(s', p)
  {
  }

  /** Reaching the goal settles the Service. */
  lemma GoalSettles(c0: Cluster, key: Key, c: Cluster)
    requires WellFormed(c0) && Achieved(c0, key, c)
    ensures Settled(c, key)
  {
    if key in c0.services && key in c.services {
      var inst := c0.services[key];
      var s := c.services[key];
      assert s.key == inst.key && s.uid == inst.uid && s.deleting == inst.deleting && WantsPod(s) == WantsPod(inst);
      forall k | k in c.pods
        ensures (Inactive(s, c.pods[k]) ==> c.pods[k].deleting) && !Orphan(s, c.pods[k]) &&
          (!WantsPod(s) ==> !Owned(s, c.pods[k]))
      {
        GoalPods(c0, inst, c, k);
        SameVerdicts(inst, s, c.pods[k]);
      }
      if WantsPod(inst) {
        GoalOwns(c0, inst, c);
        var k :| k in c.pods && Owned(inst, c.pods[k]);
        SameVerdicts(inst, s, c.pods[k]);
        assert Owned(s, c.pods[k]);
      }
    }
  }

  lemma SettledStep(t: Template, c: Cluster, key: Key, pc: PC, ans: Answer)
    requires WellFormed(c) && Settled(c, key) && Progress(c, key, c, pc) && InFlight(pc) && Admissible(c, pc, ans)
    ensures Step(t, c, pc, ans).0 == c
  {
    match pc
    case AtClaim(inst, inactive, claim) =>
      if !Claim.Finished(claim) {
        var p := claim.objs[claim.next];
        DecideSelected(inst, p);
        assert At(c, p.key) == Some(p);
        assert !Orphan(inst, c.pods[p.key]);
      }
    case AtDeleteInactive(inst, inactive, next, claimed, errs) =>
      if next < |inactive| {
        assert At(c, inactive[next].key) == Some(inactive[next]);
      }
    case _ =>
  }

  lemma {:induction false} SettledSolo(t: Template, c: Cluster, key: Key, pc: PC, answers: seq<Answer>)
    requires WellFormed(c) && Settled(c, key) && Progress(c, key, c, pc) && Solo(t, c, pc, answers)
    ensures SoloEnd(t, c, pc, answers).0 == c
    decreases |answers|
  {
    if answers != [] {
      SettledStep(t, c, key, pc, answers[0]);
      StepProgress(t, c, key, c, pc, answers[0]);
      SettledSolo(t, c, key, Step(t, c, pc, answers[0]).1, answers[1..]);
    }
  }

  // ----- stored states stay well formed -----

  lemma {:induction false} SoloWellFormed(t: Template, key: Key, c: Cluster, pc: PC, answers: seq<Answer>)
    requires WellFormed(c) && ReadInv(c, key, pc) && Solo(t, c, pc, answers)
    ensures WellFormed(SoloEnd(t, c, pc, answers).0)
    decreases |answers|
  {
    if answers != [] {
      OwnRead(t, c, key, pc, answers[0]);
      var r := Step(t, c, pc, answers[0]);
      SoloWellFormed(t, key, r.0, r.1, answers[1..]);
    }
  }

  // ----- the theorems -----

  /** Every undisturbed Reconcile that has come to its end without a failing call, whatever the order of
      its listing, the random names and the speed of deletions, reports success and has reached the goal. */
  lemma Converges(t: Template, c: Cluster, key: Key, answers: seq<Answer>)
    requires WellFormed(c) && Solo(t, c, AtGet(key), answers) && AllLucky(t, c, AtGet(key), answers)
    requires SoloEnd(t, c, AtGet(key), answers).1.Done?
    ensures var end := SoloEnd(t, c, AtGet(key), answers);
      end.1 == Done(false) && Achieved(c, key, end.0) && Settled(end.0, key)
  {
    SmoothSolo(t, c, key, c, AtGet(key), answers);
    HonestSuccess(t, c, key, answers);
    GoalSettles(c, key, SoloEnd(t, c, AtGet(key), answers).0);
  }

  /** From any stored state there is such a Reconcile, given, where a pod has to be made, a usable template
      and a free name. */
  lemma CanConverge(t: Template, c: Cluster, key: Key, suffix: string, uid: Uid) returns (answers: seq<Answer>)
    requires WellFormed(c) && uid !in c.podUids
    requires key in c.services && NeedsPod(c, c.services[key]) ==>
      var made := GeneratePod(t, c.services[key], suffix);
      made.Some? && made.value.key !in c.pods
    ensures Solo(t, c, AtGet(key), answers) && AllLucky(t, c, AtGet(key), answers)
    ensures var end := SoloEnd(t, c, AtGet(key), answers);
      end.1 == Done(false) && Achieved(c, key, end.0) && Settled(end.0, key)
  {
    answers := PlayOut(t, c, key, c, AtGet(key), suffix, uid);
    Converges(t, c, key, answers);
  }

  /** Only a Create uses up a pod uid, and only with a usable template. */
  lemma NoUidWithoutPod(t: Template, c: Cluster, pc: PC, ans: Answer)
    requires InFlight(pc) && (pc.AtCreate? ==> !UsableTemplate(t, pc.inst))
    ensures Step(t, c, pc, ans).0.podUids == c.podUids
  {
    if pc.AtCreate? { GeneratedPod(t, pc.inst, ans.suffix); }
  }

  lemma {:induction false} NoPodWithoutTemplate(t: Template, c0: Cluster, key: Key, c: Cluster, pc: PC,
                                                answers: seq<Answer>)
    requires WellFormed(c0) && Progress(c0, key, c, pc) && Solo(t, c, pc, answers) && c.podUids == c0.podUids
    requires key in c0.services && !UsableTemplate(t, c0.services[key])
    ensures SoloEnd(t, c, pc, answers).0.podUids == c0.podUids
    decreases |answers|
  {
    if answers != [] {
      StepProgress(t, c0, key, c, pc, answers[0]);
      var r := Step(t, c, pc, answers[0]);
      NoUidWithoutPod(t, c, pc, answers[0]);
      NoPodWithoutTemplate(t, c0, key, r.0, r.1, answers[1..]);
    }
  }

  /** The template condition is needed: where a pod has to be made and the template cannot be used, no
      Reconcile ever reports success. */
  lemma UnusableTemplateNeverSucceeds(t: Template, c0: Cluster, key: Key, answers: seq<Answer>)
    requires WellFormed(c0) && key in c0.services && NeedsPod(c0, c0.services[key])
    requires !UsableTemplate(t, c0.services[key])
    requires Solo(t, c0, AtGet(key), answers)
    ensures SoloEnd(t, c0, AtGet(key), answers).1 != Done(false)
  {
    var end := SoloEnd(t, c0, AtGet(key), answers);
    NoPodWithoutTemplate(t, c0, key, c0, AtGet(key), answers);
    SoloWellFormed(t, key, c0, AtGet(key), answers);
    if end.1 == Done(false) {
      HonestSuccess(t, c0, key, answers);
    }
  }

  // ----- generate, then find -----

  /** A pod that carries on the identity of another: same place, labels and controller. */
  predicate Descends(p: Pod, q: Pod) {
    q.key == p.key && q.labels == p.labels && ControllerUid(q) == ControllerUid(p)
  }

  /** What is stored for a pod starts out active and carries on its identity. */
  lemma CreatedDescends(c: Cluster, p: Pod, uid: Uid, fault: Fault)
    requires p.key !in c.pods && !fault.Refused?
    ensures var d := CreatePod(c, p, uid, fault).cluster;
      p.key in d.pods && Descends(p, d.pods[p.key]) && IsPodActive(d.pods[p.key])
  {
    var d := CreatePod(c, p, uid, fault).cluster;
    assert d.pods[p.key].ownerRefs == p.ownerRefs;
  }

  /** As long as a generated pod carries on its identity it is in every listing of its Service, counts as
      active until it is terminal or being deleted, and is claimed without any API call. */
  lemma GenerateThenFind(t: Template, inst: Service, suffix: string, d: Cluster, listing: seq<Pod>)
    requires GeneratePod(t, inst, suffix).Some? && IsListing(d, inst, listing)
    requires var made := GeneratePod(t, inst, suffix).value; made.key in d.pods && Descends(made, d.pods[made.key])
    ensures var p := d.pods[GeneratePod(t, inst, suffix).value.key];
      && p in listing
      && (p in Split(listing, true) <==> !IsTerminal(p.phase) && !p.deleting)
      && Claim.Decide(ManagerFor(inst), p).Keep?
      && (forall st: Claim.State | st.mgr == ManagerFor(inst) && !Claim.Finished(st) && st.objs[st.next] == p ::
            Claim.NextCall(st).NoCall?)
  {
    GeneratedPod(t, inst, suffix);
    var p := d.pods[GeneratePod(t, inst, suffix).value.key];
    assert Selected(p, inst);
    SplitMembers(listing, true);
    var i :| 0 <= i < |listing| && listing[i] == p;
  }

  /** After a Reconcile that reported success, a further one changes nothing at all, whatever
      its calls return. */
  lemma SecondReconcileChangesNothing(t: Template, c0: Cluster, key: Key, first: seq<Answer>, second: seq<Answer>)
    requires WellFormed(c0) && Solo(t, c0, AtGet(key), first) && SoloEnd(t, c0, AtGet(key), first).1 == Done(false)
    requires Solo(t, SoloEnd(t, c0, AtGet(key), first).0, AtGet(key), second)
    ensures SoloEnd(t, SoloEnd(t, c0, AtGet(key), first).0, AtGet(key), second).0 == SoloEnd(t, c0, AtGet(key), first).0
  {
    HonestSuccess(t, c0, key, first);
    var c := SoloEnd(t, c0, AtGet(key), first).0;
    GoalSettles(c0, key, c);
    SoloWellFormed(t, key, c0, AtGet(key), first);
    SettledSolo(t, c, key, AtGet(key), second);
  }

  /** The fixed points are exactly the settled states. */
  lemma FixedPointIffSettled(t: Template, c: Cluster, key: Key, answers: seq<Answer>)
    requires WellFormed(c) && Solo(t, c, AtGet(key), answers) && AllLucky(t, c, AtGet(key), answers)
    requires SoloEnd(t, c, AtGet(key), answers).1.Done?
    ensures SoloEnd(t, c, AtGet(key), answers).0 == c <==> Settled(c, key)
  {
    Converges(t, c, key, answers);
    if Settled(c, key) {
      SettledSolo(t, c, key, AtGet(key), answers);
    }
  }
}
