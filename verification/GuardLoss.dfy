/** Exactly when a Reconcile that nobody disturbs leaves a live pod whose Service does not carry the
    finalizer. */
module GuardLoss {
  import opened Objects
  import opened ApiServer
  import opened Reconcile
  import opened Reads
  import opened Safety
  import opened Finalizer
  import opened Outcome
  import opened Convergence
  import opened Events
  import Claim

  // ----- no drop, no loss -----

  lemma {:induction false} UndroppedGuards(t: Template, key: Key, c: Cluster, pc: PC, answers: seq<Answer>)
    requires SysPinned(Alone(t, c, key, pc)) && Guarded(c)
    requires Solo(t, c, pc, answers) && !Happens(t, c, pc, answers, DropCarriedOut)
    ensures Guarded(SoloEnd(t, c, pc, answers).0)
    decreases |answers|
  {
    if answers != [] {
      var s, a, r := Alone(t, c, key, pc), Work(key, answers[0]), Step(t, c, pc, answers[0]);
      AloneStep(t, c, key, pc, answers[0]);
      PinStep(s, a);
      GuardBreaksIff(s, a);
      UndroppedGuards(t, key, r.0, r.1, answers[1..]);
    }
  }

  // ----- no live pod left behind, no loss -----

  lemma ClaimableIsLive(inst: Service, p: Pod)
    requires Claimable(inst, p)
    ensures LiveFor(p, inst.uid)
  {
    LabelledMeans(p, inst.key.name, inst.uid);
  }

  /** Undisturbed, a Delete of a live claimed pod is a Delete of a pod that was live at the start. */
  lemma DeletesLiveAtStart(c0: Cluster, key: Key, c: Cluster, pc: PC)
    requires Progress(c0, key, c, pc) && DeletesLive(c, pc)
    ensures var k := pc.claimed[pc.next].key; k in c0.pods && LiveFor(c0.pods[k], pc.inst.uid)
  {
    ClaimableIsLive(pc.inst, pc.claimed[pc.next]);
  }

  lemma StepObeys(t: Template, c0: Cluster, key: Key, c: Cluster, pc: PC, answers: seq<Answer>)
    requires key in c0.services && Progress(c0, key, c, pc) && Solo(t, c, pc, answers) && answers != []
    requires !exists k :: PassedOver(c0, c0.services[key], k)
    requires forall k | k in c0.pods && LiveFor(c0.pods[k], c0.services[key].uid) ::
      !Happens(t, c, pc, answers, DeleteRefused(k))
    requires Enabled(Alone(t, c, key, pc), Work(key, answers[0]))
    ensures HoldAll(GUARD_RULES, Alone(t, c, key, pc), Work(key, answers[0]))
  {
    if DeletesLive(c, pc) {
      DeletesLiveAtStart(c0, key, c, pc);
      var k := pc.claimed[pc.next].key;
      assert !Happens(t, c, pc, answers, DeleteRefused(k));
      assert !Occurs(DeleteRefused(k), t, c, pc, answers[0]);
    }
  }

  lemma {:induction false} CleanGuards(t: Template, c0: Cluster, key: Key, c: Cluster, pc: PC, answers: seq<Answer>)
    requires WellFormed(c0) && key in c0.services && Progress(c0, key, c, pc) && Solo(t, c, pc, answers)
    requires SysGuarded(Alone(t, c, key, pc))
    requires !exists k :: PassedOver(c0, c0.services[key], k)
    requires forall k | k in c0.pods && LiveFor(c0.pods[k], c0.services[key].uid) ::
      !Happens(t, c, pc, answers, DeleteRefused(k))
    ensures Guarded(SoloEnd(t, c, pc, answers).0)
    decreases |answers|
  {
    if answers != [] {
      var r := Step(t, c, pc, answers[0]);
      AloneStep(t, c, key, pc, answers[0]);
      StepObeys(t, c0, key, c, pc, answers);
      GuardStep(Alone(t, c, key, pc), Work(key, answers[0]));
      StepProgress(t, c0, key, c, pc, answers[0]);
      forall k | k in c0.pods && LiveFor(c0.pods[k], c0.services[key].uid)
        ensures !Happens(t, r.0, r.1, answers[1..], DeleteRefused(k))
      {
        assert !Happens(t, c, pc, answers, DeleteRefused(k));
      }
      CleanGuards(t, c0, key, r.0, r.1, answers[1..]);
    }
  }

  // ----- a live pod left behind -----

  ghost predicate Ascending(indices: seq<nat>, bound: nat) {
    && (forall i | 0 <= i < |indices| :: indices[i] < bound)
    && (forall i, j | 0 <= i < j < |indices| :: indices[i] < indices[j])
  }

  /** No pod is claimed twice. */
  ghost predicate ClaimsOnce(pc: PC) {
    match pc
    case AtClaim(_, _, claim) =>
      DistinctKeys(claim.objs) && claim.next <= |claim.objs| && Ascending(claim.claimed, claim.next)
    case AtDeleteInactive(_, _, _, claimed, _) => DistinctKeys(claimed)
    case AtDeleteClaimed(_, claimed, _, _) => DistinctKeys(claimed)
    case _ => true
  }

  lemma ClaimAscends(c: Cluster, claim: Claim.State, ans: Answer)
    requires !Claim.Finished(claim) && Ascending(claim.claimed, claim.next)
    ensures var next := Claim.Step(c, claim, ans).1;
      Ascending(next.claimed, next.next) && next.objs == claim.objs && next.next <= |next.objs|
  {
  }

  lemma PickDistinct(objs: seq<Pod>, indices: seq<nat>)
    requires DistinctKeys(objs) && Ascending(indices, |objs|)
    ensures DistinctKeys(Pick(objs, indices))
  {
  }

  lemma ClaimsOnceStep(t: Template, c0: Cluster, key: Key, c: Cluster, pc: PC, ans: Answer)
    requires WellFormed(c0) && Progress(c0, key, c, pc) && ClaimsOnce(pc) && InFlight(pc) && Admissible(c, pc, ans)
    ensures ClaimsOnce(Step(t, c, pc, ans).1)
  {
    match pc
    case AtList(inst) =>
      if ans.fault.Served? { ListingSplits(c0, inst, ans.listing); }
    case AtClaim(_, _, claim) =>
      if !Claim.Finished(claim) {
        ClaimAscends(c, claim, ans);
      } else {
        PickDistinct(claim.objs, claim.claimed);
      }
    case _ =>
  }

  /** An undisturbed Reconcile from `c0`. */
  ghost predicate OnTrack(c0: Cluster, key: Key, c: Cluster, pc: PC) {
    && WellFormed(c0) && Progress(c0, key, c, pc) && ClaimsOnce(pc)
    && WellFormed(c) && ReadInv(c, key, pc)
  }

  lemma OnTrackStep(t: Template, c0: Cluster, key: Key, c: Cluster, pc: PC, ans: Answer)
    requires OnTrack(c0, key, c, pc) && InFlight(pc) && Admissible(c, pc, ans)
    ensures var r := Step(t, c, pc, ans); OnTrack(c0, key, r.0, r.1)
  {
    ClaimsOnceStep(t, c0, key, c, pc, ans);
    StepProgress(t, c0, key, c, pc, ans);
    OwnRead(t, c, key, pc, ans);
  }

  ghost predicate StillLive(c: Cluster, k: Key, uid: Uid) { k in c.pods && LiveFor(c.pods[k], uid) }

  /** The cleanup has no Delete under this name ahead of it. */
  ghost predicate DeleteBehind(pc: PC, k: Key) {
    || (pc.AtDeleteClaimed? && forall i | pc.next <= i < |pc.claimed| :: pc.claimed[i].key != k)
    || pc.AtDropFinalizer?
  }

  lemma {:induction false} NoMoreDeletes(t: Template, c: Cluster, pc: PC, answers: seq<Answer>, k: Key)
    requires Solo(t, c, pc, answers) && (DeleteBehind(pc, k) || pc.Done?)
    ensures !Happens(t, c, pc, answers, DeleteRefused(k))
    decreases |answers|
  {
    if answers != [] {
      var r := Step(t, c, pc, answers[0]);
      NoMoreDeletes(t, r.0, r.1, answers[1..], k);
    }
  }

  /** Provisioning never takes the finalizer off. */
  lemma {:induction false} NoDropAhead(t: Template, c: Cluster, pc: PC, answers: seq<Answer>)
    requires Solo(t, c, pc, answers) && (pc.AtAddFinalizer? || pc.AtCreate? || pc.Done?)
    ensures !Happens(t, c, pc, answers, DropCarriedOut)
    decreases |answers|
  {
    if answers != [] {
      var r := Step(t, c, pc, answers[0]);
      NoDropAhead(t, r.0, r.1, answers[1..]);
    }
  }

  lemma ClaimKeepsLive(c: Cluster, claim: Claim.State, ans: Answer, k: Key, uid: Uid)
    requires !Claim.Finished(claim) && Genuine(c, claim.objs[claim.next]) && StillLive(c, k, uid)
    ensures StillLive(Claim.Step(c, claim, ans).0, k, uid)
  {
    var call := Claim.NextCall(claim);
    if call.Write? { NoLostUpdate(c, claim.objs[claim.next], call.written, ans.fault); }
  }

  lemma OthersStayLive(c: Cluster, target: Key, fault: Fault, gone: bool, k: Key, uid: Uid)
    requires StillLive(c, k, uid) && (target != k || fault.Refused?)
    ensures StillLive(DeletePod(c, target, fault, gone).cluster, k, uid)
  {
  }

  /** The pod at `k` is one the cleanup will not end: it is passed over, or its Delete is refused or lies
      behind. */
  ghost predicate Spared(t: Template, c0: Cluster, key: Key, c: Cluster, pc: PC, answers: seq<Answer>, k: Key)
    requires Solo(t, c, pc, answers) && key in c0.services
  {
    PassedOver(c0, c0.services[key], k) || Happens(t, c, pc, answers, DeleteRefused(k)) || DeleteBehind(pc, k)
  }

  lemma PassedOverUnclaimed(c0: Cluster, inst: Service, claimed: seq<Pod>, k: Key, i: nat)
    requires ClaimedAre(c0, inst, claimed) && PassedOver(c0, inst, k) && i < |claimed|
    ensures claimed[i].key != k
  {
    assert At(c0, claimed[i].key) == Some(claimed[i]) && Claimable(inst, claimed[i]);
  }

  lemma DeleteSpares(t: Template, c0: Cluster, key: Key, c: Cluster, pc: PC, answers: seq<Answer>, k: Key)
    requires key in c0.services && Progress(c0, key, c, pc) && ClaimsOnce(pc)
    requires pc.AtDeleteClaimed? && pc.next < |pc.claimed|
    requires Solo(t, c, pc, answers) && answers != [] && StillLive(c, k, pc.inst.uid)
    requires Spared(t, c0, key, c, pc, answers, k)
    ensures var r := Step(t, c, pc, answers[0]);
      StillLive(r.0, k, pc.inst.uid) && Spared(t, c0, key, r.0, r.1, answers[1..], k)
  {
    var r := Step(t, c, pc, answers[0]);
    var q := pc.claimed[pc.next];
    if PassedOver(c0, c0.services[key], k) {
      PassedOverUnclaimed(c0, pc.inst, pc.claimed, k, pc.next);
    } else if q.key == k {
      assert DeleteBehind(r.1, k);
      NoMoreDeletes(t, r.0, r.1, answers[1..], k);
      assert Occurs(DeleteRefused(k), t, c, pc, answers[0]);
    }
    OthersStayLive(c, q.key, answers[0].fault, answers[0].gone, k, pc.inst.uid);
  }

  /** Every step before the drop leaves such a pod live. */
  lemma SparedStep(t: Template, c0: Cluster, key: Key, c: Cluster, pc: PC, answers: seq<Answer>, k: Key)
    requires OnTrack(c0, key, c, pc) && key in c0.services
    requires k in c0.pods && LiveFor(c0.pods[k], c0.services[key].uid) && StillLive(c, k, c0.services[key].uid)
    requires Solo(t, c, pc, answers) && answers != [] && !pc.AtDropFinalizer?
    requires !pc.AtAddFinalizer? && !pc.AtCreate? && Spared(t, c0, key, c, pc, answers, k)
    ensures var r := Step(t, c, pc, answers[0]);
      StillLive(r.0, k, c0.services[key].uid) && Spared(t, c0, key, r.0, r.1, answers[1..], k)
  {
    var ans, uid := answers[0], c0.services[key].uid;
    match pc
    case AtClaim(inst, _, claim) =>
      if !Claim.Finished(claim) {
        assert Listed(c, inst, claim.objs[claim.next]);
        ClaimKeepsLive(c, claim, ans, k, uid);
      }
    case AtDeleteInactive(inst, inactive, next, _, _) =>
      if next < |inactive| {
        assert At(c0, inactive[next].key) == Some(inactive[next]) && Inactive(inst, inactive[next]);
        OthersStayLive(c, inactive[next].key, ans.fault, ans.gone, k, uid);
      }
    case AtDeleteClaimed(_, claimed, next, _) =>
      if next < |claimed| { DeleteSpares(t, c0, key, c, pc, answers, k); }
    case _ =>
  }

  lemma DropLoses(t: Template, key: Key, c: Cluster, pc: PC, answers: seq<Answer>, k: Key)
    requires pc.AtDropFinalizer? && WellFormed(c) && ReadInv(c, key, pc) && StillLive(c, k, pc.inst.uid)
    requires key in c.services && c.services[key] == pc.inst
    requires Solo(t, c, pc, answers) && Happens(t, c, pc, answers, DropCarriedOut)
    ensures !Guarded(SoloEnd(t, c, pc, answers).0)
  {
    var s, a, r := Alone(t, c, key, pc), Work(key, answers[0]), Step(t, c, pc, answers[0]);
    AloneStep(t, c, key, pc, answers[0]);
    NoDropAhead(t, r.0, r.1, answers[1..]);
    assert Drops(s, a, key);
    DropUncovers(s, a, key, k);
    assert answers[1..] == [];
  }

  lemma {:induction false} SparedUnguards(t: Template, c0: Cluster, key: Key, c: Cluster, pc: PC, answers: seq<Answer>,
                                          k: Key)
    requires OnTrack(c0, key, c, pc) && key in c0.services
    requires k in c0.pods && LiveFor(c0.pods[k], c0.services[key].uid) && StillLive(c, k, c0.services[key].uid)
    requires Solo(t, c, pc, answers) && Happens(t, c, pc, answers, DropCarriedOut)
    requires Spared(t, c0, key, c, pc, answers, k)
    ensures !Guarded(SoloEnd(t, c, pc, answers).0)
    decreases |answers|
  {
    if pc.AtDropFinalizer? {
      DropLoses(t, key, c, pc, answers, k);
    } else {
      if pc.AtAddFinalizer? || pc.AtCreate? { NoDropAhead(t, c, pc, answers); }
      var r := Step(t, c, pc, answers[0]);
      SparedStep(t, c0, key, c, pc, answers, k);
      OnTrackStep(t, c0, key, c, pc, answers[0]);
      SparedUnguards(t, c0, key, r.0, r.1, answers[1..], k);
    }
  }

  // ----- the theorem -----

  /** A pod that is live when the Reconcile starts and that its cleanup leaves alone: one under a foreign
      controller, an orphan of a Service read as dying, or one whose Delete is refused. */
  ghost predicate LeftBehind(t: Template, c0: Cluster, key: Key, answers: seq<Answer>, k: Key)
    requires key in c0.services && Solo(t, c0, AtGet(key), answers)
  {
    && k in c0.pods && LiveFor(c0.pods[k], c0.services[key].uid)
    && (PassedOver(c0, c0.services[key], k) || Happens(t, c0, AtGet(key), answers, DeleteRefused(k)))
  }

  /** From a guarded state a Reconcile that nobody disturbs ends, or stands at any point, with an unguarded
      live pod exactly when its finalizer drop was carried out and a live pod was left behind. */
  lemma GuardLostIff(t: Template, c0: Cluster, key: Key, answers: seq<Answer>)
    requires WellFormed(c0) && Disciplined(c0) && Guarded(c0) && key in c0.services
    requires Solo(t, c0, AtGet(key), answers)
    ensures !Guarded(SoloEnd(t, c0, AtGet(key), answers).0) <==>
      && Happens(t, c0, AtGet(key), answers, DropCarriedOut)
      && exists k :: LeftBehind(t, c0, key, answers, k)
  {
    var pc := AtGet(key);
    AloneSound(t, c0, key, pc);
    if !Happens(t, c0, pc, answers, DropCarriedOut) {
      UndroppedGuards(t, key, c0, pc, answers);
    } else if k :| LeftBehind(t, c0, key, answers, k) {
      SparedUnguards(t, c0, key, c0, pc, answers, k);
    } else {
      forall k ensures !PassedOver(c0, c0.services[key], k) {
        assert !LeftBehind(t, c0, key, answers, k);
      }
      forall k | k in c0.pods && LiveFor(c0.pods[k], c0.services[key].uid)
        ensures !Happens(t, c0, pc, answers, DeleteRefused(k))
      {
        assert !LeftBehind(t, c0, key, answers, k);
      }
      CleanGuards(t, c0, key, c0, pc, answers);
    }
  }

  // ----- from any state of any run -----

  lemma UntouchedStep(t: Template, c: Cluster, pc: PC, ans: Answer, k: Key)
    requires DeleteBehind(pc, k) && pc.AtDeleteClaimed? && StillLive(c, k, pc.inst.uid)
    ensures var (d, next) := Step(t, c, pc, ans);
      DeleteBehind(next, k) && next.inst == pc.inst && d.services == c.services && StillLive(d, k, pc.inst.uid)
  {
    if pc.next < |pc.claimed| {
      OthersStayLive(c, pc.claimed[pc.next].key, ans.fault, ans.gone, k, pc.inst.uid);
    }
  }

  lemma {:induction false} UntouchedToDrop(t: Template, key: Key, c: Cluster, pc: PC, answers: seq<Answer>, k: Key)
    requires WellFormed(c) && ReadInv(c, key, pc) && DeleteBehind(pc, k)
    requires key in c.services && c.services[key] == pc.inst && StillLive(c, k, pc.inst.uid)
    requires Solo(t, c, pc, answers) && Happens(t, c, pc, answers, DropCarriedOut)
    ensures !Guarded(SoloEnd(t, c, pc, answers).0)
    decreases |answers|
  {
    if pc.AtDropFinalizer? {
      DropLoses(t, key, c, pc, answers, k);
    } else {
      var r := Step(t, c, pc, answers[0]);
      OwnRead(t, c, key, pc, answers[0]);
      UntouchedStep(t, c, pc, answers[0], k);
      UntouchedToDrop(t, key, r.0, r.1, answers[1..], k);
    }
  }

  /** From any state of any run: when the Delete of a live claimed pod is refused and the rest of the
      cleanup, undisturbed and with any other failures, takes the finalizer off, the pod ends unguarded. */
  lemma RefusedDeleteBreaksGuard(s: Sys, key: Key, answers: seq<Answer>)
    requires SysRead(s) && key in s.workers && DeletesLive(s.cluster, s.workers[key]) && ClaimsOnce(s.workers[key])
    requires key in s.cluster.services && s.cluster.services[key] == s.workers[key].inst
    requires Solo(s.template, s.cluster, s.workers[key], answers) && answers != [] && answers[0].fault.Refused?
    requires Happens(s.template, s.cluster, s.workers[key], answers, DropCarriedOut)
    ensures Runs(s, Works(key, answers)) && Obeys(s, Works(key, answers), {FinalizerIsOurs})
    ensures !Guarded(After(s, Works(key, answers)).cluster)
  {
    var t, c, pc := s.template, s.cluster, s.workers[key];
    assert ReadInv(c, key, pc);
    var r := Step(t, c, pc, answers[0]);
    UntouchedToDrop(t, key, r.0, r.1, answers[1..], pc.claimed[pc.next].key);
    SoloRuns(s, key, answers);
  }

  /** Without failing calls a cleanup that has come to its end has taken the finalizer off. */
  lemma {:induction false} LuckyDrops(t: Template, c0: Cluster, key: Key, c: Cluster, pc: PC, answers: seq<Answer>)
    requires WellFormed(c0) && key in c0.services && !WantsPod(c0.services[key]) && Progress(c0, key, c, pc)
    requires Smooth(pc)
    requires Solo(t, c, pc, answers) && AllLucky(t, c, pc, answers) && !pc.Done? && SoloEnd(t, c, pc, answers).1.Done?
    ensures Happens(t, c, pc, answers, DropCarriedOut)
    decreases |answers|
  {
    var r := Step(t, c, pc, answers[0]);
    if !pc.AtDropFinalizer? {
      StepProgress(t, c0, key, c, pc, answers[0]);
      SmoothStep(t, c0, key, c, pc, answers[0]);
      LuckyDrops(t, c0, key, r.0, r.1, answers[1..]);
    }
  }

  /** From any state in which a worker is about to list for a Service that does not want a pod and has a live
      one that will be passed over, every undisturbed completion without a failing call ends with that pod
      unguarded. */
  lemma PassedOverBreaksGuard(s: Sys, key: Key, k: Key, answers: seq<Answer>)
    requires SysRead(s) && key in s.workers && s.workers[key].AtList? && Found(s.cluster, key, s.workers[key].inst)
    requires !WantsPod(s.workers[key].inst) && PassedOver(s.cluster, s.workers[key].inst, k)
    requires Solo(s.template, s.cluster, s.workers[key], answers)
    requires AllLucky(s.template, s.cluster, s.workers[key], answers)
    requires SoloEnd(s.template, s.cluster, s.workers[key], answers).1.Done?
    ensures Runs(s, Works(key, answers)) && Obeys(s, Works(key, answers), {FinalizerIsOurs, CleanupDeletesLand})
    ensures !Guarded(After(s, Works(key, answers)).cluster)
  {
    var t, c, pc := s.template, s.cluster, s.workers[key];
    assert ReadInv(c, key, pc);
    LuckyDrops(t, c, key, c, pc, answers);
    SparedUnguards(t, c, key, c, pc, answers, k);
    SoloRuns(s, key, answers);
  }
}
