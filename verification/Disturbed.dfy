/** What a reported success means when others interfere: the pods a Reconcile has deleted stay deleted. */
module Disturbed {
  import opened Objects
  import opened ApiServer
  import opened Reconcile
  import opened Reads
  import opened Isolation
  import Claim
  import ClaimLoop

  /** The pod that was listed is no longer stored or is terminating, whatever goes by its name now. */
  ghost predicate Gone(c: Cluster, q: Pod) {
    q.uid in c.podUids && forall k | k in c.pods && c.pods[k].uid == q.uid :: c.pods[k].deleting
  }

  ghost predicate GoneUpTo(c: Cluster, pods: seq<Pod>, n: nat)
    requires n <= |pods|
  {
    forall i | 0 <= i < n :: Gone(c, pods[i])
  }

  lemma GoneStable(c: Cluster, d: Cluster, pods: seq<Pod>, n: nat)
    requires Persist(c, d) && n <= |pods| && GoneUpTo(c, pods, n)
    ensures GoneUpTo(d, pods, n)
  {
    forall i | 0 <= i < n ensures Gone(d, pods[i]) {
      assert Gone(c, pods[i]);
    }
  }

  /** A Delete that reports success or NotFound ends the listed pod, even if its name has passed on. */
  lemma DeleteMakesGone(c: Cluster, inst: Service, q: Pod, fault: Fault, gone: bool)
    requires WellFormed(c) && Known(c, inst, q) && !Hard(DeletePod(c, q.key, fault, gone).error)
    ensures Gone(DeletePod(c, q.key, fault, gone).cluster, q)
  {
  }

  /** How far the worker has come with the two lists. */
  ghost predicate Clearing(c: Cluster, pc: PC, inst: Service, inactive: seq<Pod>, claimed: seq<Pod>) {
    match pc
    case AtDeleteInactive(i, pods, next, others, errs) =>
      && i == inst && pods == inactive && others == claimed && next <= |inactive|
      && (errs == 0 ==> GoneUpTo(c, inactive, next))
    case AtDeleteClaimed(i, pods, next, errs) =>
      && i == inst && pods == claimed && next <= |claimed| && GoneUpTo(c, inactive, |inactive|)
      && (errs == 0 ==> GoneUpTo(c, claimed, next))
    case AtDropFinalizer(_, errs) =>
      GoneUpTo(c, inactive, |inactive|) && (errs == 0 ==> GoneUpTo(c, claimed, |claimed|))
    case AtAddFinalizer(_, _) => WantsPod(inst) && GoneUpTo(c, inactive, |inactive|)
    case AtCreate(_) => WantsPod(inst) && GoneUpTo(c, inactive, |inactive|)
    case Done(failed) => !failed ==> Cleared(c, inst, inactive, claimed)
    case _ => false
  }

  ghost predicate Cleared(c: Cluster, inst: Service, inactive: seq<Pod>, claimed: seq<Pod>) {
    GoneUpTo(c, inactive, |inactive|) && (!WantsPod(inst) ==> GoneUpTo(c, claimed, |claimed|))
  }

  lemma ClearingStable(c: Cluster, d: Cluster, pc: PC, inst: Service, inactive: seq<Pod>, claimed: seq<Pod>)
    requires Persist(c, d) && Clearing(c, pc, inst, inactive, claimed)
    ensures Clearing(d, pc, inst, inactive, claimed)
  {
    if GoneUpTo(c, inactive, |inactive|) { GoneStable(c, d, inactive, |inactive|); }
    if GoneUpTo(c, claimed, |claimed|) { GoneStable(c, d, claimed, |claimed|); }
    if pc.AtDeleteInactive? && pc.errs == 0 { GoneStable(c, d, inactive, pc.next); }
    if pc.AtDeleteClaimed? && pc.errs == 0 { GoneStable(c, d, claimed, pc.next); }
  }

  lemma DeleteClears(c: Cluster, d: Cluster, inst: Service, pods: seq<Pod>, next: nat, ans: Answer)
    requires WellFormed(c) && next < |pods| && KnownAll(c, inst, pods) && GoneUpTo(c, pods, next) && Persist(c, d)
    requires d == DeletePod(c, pods[next].key, ans.fault, ans.gone).cluster
    requires !Hard(DeletePod(c, pods[next].key, ans.fault, ans.gone).error)
    ensures GoneUpTo(d, pods, next + 1)
  {
    GoneStable(c, d, pods, next);
    assert Known(c, inst, pods[next]);
    DeleteMakesGone(c, inst, pods[next], ans.fault, ans.gone);
  }

  lemma ClearingOwn(s: Sys, key: Key, ans: Answer, inst: Service, inactive: seq<Pod>, claimed: seq<Pod>)
    requires SysKnown(s) && Enabled(s, Work(key, ans)) && Clearing(s.cluster, s.workers[key], inst, inactive, claimed)
    ensures var s' := Apply(s, Work(key, ans)); Clearing(s'.cluster, s'.workers[key], inst, inactive, claimed)
  {
    var c, pc := s.cluster, s.workers[key];
    var d := Apply(s, Work(key, ans)).cluster;
    PersistStep(s, Work(key, ans));
    ClearingStable(c, d, pc, inst, inactive, claimed);
    assert KnownInv(c, pc);
    if pc.AtDeleteInactive? && pc.next < |inactive| && pc.errs == 0 {
      if !Hard(DeletePod(c, inactive[pc.next].key, ans.fault, ans.gone).error) {
        DeleteClears(c, d, inst, inactive, pc.next, ans);
      }
    } else if pc.AtDeleteClaimed? && pc.next < |claimed| && pc.errs == 0 {
      if !Hard(DeletePod(c, claimed[pc.next].key, ans.fault, ans.gone).error) {
        DeleteClears(c, d, inst, claimed, pc.next, ans);
      }
    }
  }

  lemma {:induction false} ClearingRun(s: Sys, run: seq<Action>, key: Key, inst: Service, inactive: seq<Pod>,
                                       claimed: seq<Pod>)
    requires SysKnown(s) && Runs(s, run) && Begin(key) !in run && key in s.workers
    requires Clearing(s.cluster, s.workers[key], inst, inactive, claimed)
    ensures key in After(s, run).workers
    ensures Clearing(After(s, run).cluster, After(s, run).workers[key], inst, inactive, claimed)
    decreases |run|
  {
    if run != [] {
      var a := run[0];
      assert a in run;
      KnownStep(s, a);
      if a.Work? && a.key == key {
        ClearingOwn(s, key, a.ans, inst, inactive, claimed);
      } else {
        PersistStep(s, a);
        ClearingStable(s.cluster, Apply(s, a).cluster, s.workers[key], inst, inactive, claimed);
      }
      ClearingRun(Apply(s, a), run[1..], key, inst, inactive, claimed);
    }
  }

  /** In every run, whatever others do between the calls and after them: once a Reconcile that had listed
      and claimed its pods reports success, every inactive pod it listed, and in the cleanup branch every
      pod it claimed, is no longer stored or is terminating. */
  lemma SuccessClears(s: Sys, before: seq<Action>, run: seq<Action>, key: Key, inst: Service, inactive: seq<Pod>,
                      claimed: seq<Pod>)
    requires Init(s) && Runs(s, before) && key in After(s, before).workers
    requires After(s, before).workers[key] == AtDeleteInactive(inst, inactive, 0, claimed, 0)
    requires Runs(After(s, before), run) && Begin(key) !in run
    requires key in After(After(s, before), run).workers && After(After(s, before), run).workers[key] == Done(false)
    ensures Cleared(After(After(s, before), run).cluster, inst, inactive, claimed)
  {
    KnownAlways(s, before);
    ClearingRun(After(s, before), run, key, inst, inactive, claimed);
  }

  // ----- errors -----

  /** A served Delete is no error, whether or not the pod is still there, and any other is one. */
  lemma DeleteErrsIffNotServed(t: Template, c: Cluster, pc: PC, ans: Answer)
    requires pc.AtDeleteInactive? || pc.AtDeleteClaimed?
    requires pc.next < |if pc.AtDeleteInactive? then pc.inactive else pc.claimed|
    ensures var next := Step(t, c, pc, ans).1;
      && (next.AtDeleteInactive? || next.AtDeleteClaimed?)
      && next.errs == pc.errs + (if ans.fault.Served? then 0 else 1)
  {
  }

  /** The claim, or a Delete of an inactive pod, has failed. */
  predicate Failing(pc: PC) {
    || (pc.AtClaim? && pc.claim.errs > 0) || (pc.AtDeleteInactive? && pc.errs > 0) || pc == Done(true)
  }

  /** Only the owner references and the version may differ. */
  predicate OnlyOwnersDiffer(p: Pod, q: Pod) {
    q == p.(ownerRefs := q.ownerRefs, version := q.version)
  }

  lemma ClaimOnlyWritesOwners(c: Cluster, claim: Claim.State, ans: Answer, k: Key)
    requires WellFormed(c) && !Claim.Finished(claim) && Genuine(c, claim.objs[claim.next]) && k in c.pods
    ensures var d := Claim.Step(c, claim, ans).0;
      d.services == c.services && d.podUids == c.podUids && k in d.pods && OnlyOwnersDiffer(c.pods[k], d.pods[k])
  {
    var call := Claim.NextCall(claim);
    if call.Write? {
      NoLostUpdate(c, claim.objs[claim.next], call.written, ans.fault);
      ClaimLoop.WritesOwnOrOrphan(claim);
    }
  }

  /** What a failing Reconcile still does: it stays so, leaves the Services alone and makes no pod; and if it
      was the claim that failed, it does not delete one either. */
  lemma FailingStep(t: Template, c: Cluster, key: Key, pc: PC, ans: Answer)
    requires WellFormed(c) && ReadInv(c, key, pc) && InFlight(pc) && Failing(pc)
    ensures var r := Step(t, c, pc, ans);
      && Failing(r.1) && r.0.services == c.services && r.0.podUids == c.podUids
      && (pc.AtClaim? ==>
            && !r.1.AtDeleteInactive?
            && forall k | k in c.pods :: k in r.0.pods && OnlyOwnersDiffer(c.pods[k], r.0.pods[k]))
  {
    if pc.AtClaim? && !Claim.Finished(pc.claim) {
      assert Listed(c, pc.inst, pc.claim.objs[pc.claim.next]);
      forall k | k in c.pods
        ensures var d := Claim.Step(c, pc.claim, ans).0; k in d.pods && OnlyOwnersDiffer(c.pods[k], d.pods[k])
      {
        ClaimOnlyWritesOwners(c, pc.claim, ans, k);
      }
    }
  }

  /** In every run: a Reconcile that has met an error in its claim, or in deleting the inactive pods, goes on to
      neither the cleanup nor the provisioning, whatever others do, and can only end with an error. */
  lemma {:induction false} ErrorsStop(s: Sys, run: seq<Action>, key: Key)
    requires SysRead(s) && Runs(s, run) && Begin(key) !in run && key in s.workers && Failing(s.workers[key])
    ensures key in After(s, run).workers && Failing(After(s, run).workers[key])
    decreases |run|
  {
    if run != [] {
      var a := run[0];
      assert a in run;
      ReadStep(s, a);
      if a.Work? && a.key == key {
        assert ReadInv(s.cluster, key, s.workers[key]);
        FailingStep(s.template, s.cluster, key, s.workers[key], a.ans);
      }
      ErrorsStop(Apply(s, a), run[1..], key);
    }
  }

  /** Whoever comes to write the finalizer with an outdated Service in hand, or with one that is gone, changes
      nothing and fails. */
  lemma StaleServiceFails(t: Template, c: Cluster, pc: PC, ans: Answer)
    requires pc.AtDropFinalizer? || (pc.AtAddFinalizer? && FINALIZER_NAME !in pc.inst.finalizers)
    requires pc.inst.key !in c.services || c.services[pc.inst.key].version != pc.inst.version
    ensures Step(t, c, pc, ans) == (c, Done(true))
  {
  }
}
