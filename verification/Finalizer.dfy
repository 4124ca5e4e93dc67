/** What the finalizer is for: no pod is made for a Service that is gone, and a Service with a
    live pod cannot go. */
module Finalizer {
  import opened Objects
  import opened ApiServer
  import opened Reconcile
  import opened Reads
  import opened Safety
  import Claim

  // ----- no pod for a vanished Service -----

  /** The Service that was read is still stored, under the same uid and with the finalizer. */
  ghost predicate Pinned(c: Cluster, inst: Service) {
    inst.key in c.services && c.services[inst.key].uid == inst.uid && FINALIZER_NAME in c.services[inst.key].finalizers
  }

  ghost predicate PinInv(c: Cluster, pc: PC) {
    match pc
    case AtGet(_) => true
    case Done(_) => true
    case AtCreate(inst) => Pinned(c, inst)
    case _ => FINALIZER_NAME in pc.inst.finalizers ==> Pinned(c, pc.inst)
  }

  ghost predicate SysPinned(s: Sys) {
    SysRead(s) && forall key | key in s.workers :: PinInv(s.cluster, s.workers[key])
  }

  /** A worker takes the finalizer off the Service stored at `k`, which is as it was read. */
  ghost predicate Drops(s: Sys, a: Action, k: Key) {
    && a.Work? && a.key == k && k in s.workers && s.workers[k].AtDropFinalizer? && !a.ans.fault.Refused?
    && k in s.cluster.services && s.cluster.services[k] == s.workers[k].inst
  }

  lemma StepServices(t: Template, c: Cluster, pc: PC, ans: Answer)
    requires InFlight(pc) && !pc.AtDropFinalizer? && !pc.AtAddFinalizer?
    ensures Step(t, c, pc, ans).0.services == c.services
  {
  }

  /** A finalizer update from a genuine read changes nothing, or exactly what was read. */
  lemma WriteService(c: Cluster, inst: Service, w: Service, fault: Fault)
    requires GenuineService(c, inst) && w.key == inst.key && w.version == inst.version && w.uid == inst.uid
    ensures var reply := UpdateService(c, w, fault);
      && (reply.cluster == c ||
          (w.key in c.services && c.services[w.key] == inst && reply.cluster == StoreService(c, w)))
      && (reply.error == NoError ==>
            && w.key in c.services && c.services[w.key] == inst
            && (reply.cluster == StoreService(c, w) || (reply.cluster == c && w == inst)))
  {
  }

  /** The Service at `k` is the same one and carries the finalizer. */
  ghost predicate Carried(c: Cluster, d: Cluster, k: Key)
    requires k in c.services
  {
    k in d.services && d.services[k].uid == c.services[k].uid && FINALIZER_NAME in d.services[k].finalizers
  }

  lemma AddFinalizerStays(c: Cluster, inst: Service, fault: Fault, k: Key)
    requires GenuineService(c, inst)
    requires k in c.services && FINALIZER_NAME in c.services[k].finalizers
    ensures Carried(c, UpdateService(c, Added(inst), fault).cluster, k)
  {
    var w := Added(inst);
    WriteService(c, inst, w, fault);
    assert w.finalizers[|w.finalizers| - 1] == FINALIZER_NAME;
  }

  lemma DropFinalizerIff(c: Cluster, inst: Service, fault: Fault, k: Key)
    requires GenuineService(c, inst)
    requires k in c.services && FINALIZER_NAME in c.services[k].finalizers
    ensures Carried(c, UpdateService(c, Dropped(inst), fault).cluster, k) <==>
      !(k == inst.key && c.services[k] == inst && !fault.Refused?)
  {
    WriteService(c, inst, Dropped(inst), fault);
  }

  /** If no outsider takes it off, a finalizer goes exactly when its own worker's drop is carried out on
      the Service as it was read. */
  lemma FinalizerGoesIff(s: Sys, a: Action, k: Key)
    requires SysRead(s) && Enabled(s, a) && Holds(FinalizerIsOurs, s, a)
    requires k in s.cluster.services && FINALIZER_NAME in s.cluster.services[k].finalizers
    ensures Carried(s.cluster, Apply(s, a).cluster, k) <==> !Drops(s, a, k)
  {
    if a.Work? {
      var pc := s.workers[a.key];
      assert ReadInv(s.cluster, a.key, pc);
      if pc.AtAddFinalizer? {
        AddFinalizerStays(s.cluster, pc.inst, a.ans.fault, k);
      } else if pc.AtDropFinalizer? {
        DropFinalizerIff(s.cluster, pc.inst, a.ans.fault, k);
      } else {
        StepServices(s.template, s.cluster, pc, a.ans);
      }
    }
  }

  lemma PinStable(s: Sys, a: Action, inst: Service)
    requires SysRead(s) && Enabled(s, a) && Holds(FinalizerIsOurs, s, a)
    requires Pinned(s.cluster, inst) && !Drops(s, a, inst.key)
    ensures Pinned(Apply(s, a).cluster, inst)
  {
    FinalizerGoesIff(s, a, inst.key);
  }

  /** A worker that goes on past the finalizer has it stored. */
  lemma AddPins(c: Cluster, inst: Service, fault: Fault)
    requires GenuineService(c, inst) && FINALIZER_NAME !in inst.finalizers
    requires UpdateService(c, Added(inst), fault).error == NoError
    ensures Pinned(UpdateService(c, Added(inst), fault).cluster, inst)
  {
    var w := Added(inst);
    WriteService(c, inst, w, fault);
    assert w.finalizers[|w.finalizers| - 1] == FINALIZER_NAME;
  }

  lemma NextPin(t: Template, c: Cluster, key: Key, pc: PC, ans: Answer)
    requires WellFormed(c) && ReadInv(c, key, pc) && InFlight(pc) && Admissible(c, pc, ans) && PinInv(c, pc)
    requires !pc.AtGet? && !pc.AtDropFinalizer? && Pinned(c, pc.inst) ==> Pinned(Step(t, c, pc, ans).0, pc.inst)
    ensures var r := Step(t, c, pc, ans); PinInv(r.0, r.1)
  {
    if pc.AtAddFinalizer? && FINALIZER_NAME !in pc.inst.finalizers
      && UpdateService(c, Added(pc.inst), ans.fault).error == NoError {
      AddPins(c, pc.inst, ans.fault);
    }
  }

  lemma OwnPin(s: Sys, key: Key, ans: Answer)
    requires SysPinned(s) && Enabled(s, Work(key, ans))
    ensures var s' := Apply(s, Work(key, ans)); PinInv(s'.cluster, s'.workers[key])
  {
    var a := Work(key, ans);
    var pc := s.workers[key];
    assert ReadInv(s.cluster, key, pc) && PinInv(s.cluster, pc);
    if !pc.AtGet? && !pc.AtDropFinalizer? && Pinned(s.cluster, pc.inst) {
      PinStable(s, a, pc.inst);
    }
    NextPin(s.template, s.cluster, key, pc, ans);
  }

  lemma PinStep(s: Sys, a: Action)
    requires SysPinned(s) && Enabled(s, a) && Holds(FinalizerIsOurs, s, a)
    ensures SysPinned(Apply(s, a))
  {
    ReadStep(s, a);
    var s' := Apply(s, a);
    forall key | key in s'.workers ensures PinInv(s'.cluster, s'.workers[key]) {
      if a.Work? && a.key == key {
        OwnPin(s, key, a.ans);
      } else if key in s.workers && s'.workers[key] == s.workers[key] {
        var pc := s.workers[key];
        assert PinInv(s.cluster, pc) && ReadInv(s.cluster, key, pc);
        if !pc.AtGet? && !pc.Done? && Pinned(s.cluster, pc.inst) {
          PinStable(s, a, pc.inst);
        }
      }
    }
  }

  lemma {:induction false} PinnedAlways(s: Sys, run: seq<Action>)
    requires SysPinned(s) && Runs(s, run) && Obeys(s, run, {FinalizerIsOurs})
    ensures SysPinned(After(s, run))
    decreases |run|
  {
    if run != [] {
      assert Holds(FinalizerIsOurs, s, run[0]);
      PinStep(s, run[0]);
      PinnedAlways(Apply(s, run[0]), run[1..]);
    }
  }

  /** However the Service was edited or asked to go since it was read, when a worker is about to
      create a pod that very Service is stored and carries the finalizer. */
  lemma NoPodForVanishedService(s: Sys, run: seq<Action>, key: Key)
    requires Init(s) && Runs(s, run) && Obeys(s, run, {FinalizerIsOurs})
    requires key in After(s, run).workers && After(s, run).workers[key].AtCreate?
    ensures var end := After(s, run);
      var inst := end.workers[key].inst;
      inst.key == key && Pinned(end.cluster, inst)
  {
    PinnedAlways(s, run);
    var end := After(s, run);
    assert ReadInv(end.cluster, key, end.workers[key]);
    assert PinInv(end.cluster, end.workers[key]);
  }

  // ----- a Service with a live pod cannot go -----

  ghost predicate Carries(c: Cluster, uid: Uid) {
    && uid in c.serviceUids && c.serviceUids[uid] in c.services
    && c.services[c.serviceUids[uid]].uid == uid
    && FINALIZER_NAME in c.services[c.serviceUids[uid]].finalizers
  }

  /** Whoever has a live pod is stored and carries the finalizer. */
  ghost predicate Guarded(c: Cluster) {
    forall k | k in c.pods && IsPodActive(c.pods[k]) && LABEL_CONTROLLER_UID in c.pods[k].labels ::
      Carries(c, c.pods[k].labels[LABEL_CONTROLLER_UID])
  }

  /** A live pod after an action that does not drop its Service's finalizer is guarded. */
  lemma StaysCarried(s: Sys, a: Action, k: Key, uid: Uid)
    requires SysPinned(s) && Guarded(s.cluster) && Enabled(s, a) && Holds(FinalizerIsOurs, s, a)
    requires k in Apply(s, a).cluster.pods && LiveFor(Apply(s, a).cluster.pods[k], uid)
    requires Carries(s.cluster, uid) ==> !Drops(s, a, s.cluster.serviceUids[uid])
    ensures Carries(Apply(s, a).cluster, uid)
  {
    ReadStep(s, a);
    if Creates(s, a) && s.workers[a.key].inst.uid == uid {
      assert PinInv(s.cluster, s.workers[a.key]) && ReadInv(s.cluster, a.key, s.workers[a.key]);
      PinStable(s, a, s.workers[a.key].inst);
    } else {
      HarmlessStep(s, a, uid);
      assert Carries(s.cluster, uid);
      FinalizerGoesIff(s, a, s.cluster.serviceUids[uid]);
    }
  }

  /** Dropping the finalizer leaves a live pod unguarded. */
  lemma DropUncovers(s: Sys, a: Action, key: Key, k: Key)
    requires SysRead(s) && Enabled(s, a) && Drops(s, a, key)
    requires k in s.cluster.pods && LiveFor(s.cluster.pods[k], s.workers[key].inst.uid)
    ensures !Guarded(Apply(s, a).cluster)
  {
    var inst := s.workers[key].inst;
    assert ReadInv(s.cluster, key, s.workers[key]);
    var d := Apply(s, a).cluster;
    assert d.pods[k] == s.cluster.pods[k];
    assert FINALIZER_NAME !in Dropped(inst).finalizers;
    assert !Carries(d, inst.uid);
  }

  /** The one way to lose the guard: in every state of every run, an action leaves a live pod unguarded
      exactly when it is a finalizer drop that is carried out while the Service has a live pod. */
  lemma GuardBreaksIff(s: Sys, a: Action)
    requires SysPinned(s) && Guarded(s.cluster) && Enabled(s, a) && Holds(FinalizerIsOurs, s, a)
    ensures !Guarded(Apply(s, a).cluster) <==>
      a.Work? && Drops(s, a, a.key) && HasLive(s.cluster, s.workers[a.key].inst.uid)
  {
    var d := Apply(s, a).cluster;
    if a.Work? && Drops(s, a, a.key) && HasLive(s.cluster, s.workers[a.key].inst.uid) {
      var k :| k in s.cluster.pods && LiveFor(s.cluster.pods[k], s.workers[a.key].inst.uid);
      DropUncovers(s, a, a.key, k);
    } else {
      forall k | k in d.pods && IsPodActive(d.pods[k]) && LABEL_CONTROLLER_UID in d.pods[k].labels
        ensures Carries(d, d.pods[k].labels[LABEL_CONTROLLER_UID])
      {
        var uid := d.pods[k].labels[LABEL_CONTROLLER_UID];
        assert LiveFor(d.pods[k], uid);
        if Carries(s.cluster, uid) && Drops(s, a, s.cluster.serviceUids[uid]) { DropHitsLive(s, a, k, uid); }
        StaysCarried(s, a, k, uid);
      }
    }
  }

  /** A drop at the Service of a pod that is live afterwards is a drop with a live pod. */
  lemma DropHitsLive(s: Sys, a: Action, k: Key, uid: Uid)
    requires SysRead(s) && Enabled(s, a)
    requires Carries(s.cluster, uid) && Drops(s, a, s.cluster.serviceUids[uid])
    requires k in Apply(s, a).cluster.pods && LiveFor(Apply(s, a).cluster.pods[k], uid)
    ensures HasLive(s.cluster, s.workers[a.key].inst.uid)
  {
    HarmlessStep(s, a, uid);
  }

  // ----- the guard along whole runs -----

  /** Whoever cleans up after a Service has all its live pods still ahead of it. */
  ghost predicate CleanupCaught(c: Cluster, pc: PC) {
    Busy(pc) && !WantsPod(pc.inst) ==> Caught(c, pc)
  }

  ghost predicate SysGuarded(s: Sys) {
    && SysSound(s) && SysPinned(s) && Guarded(s.cluster)
    && (forall key | key in s.workers :: CleanupCaught(s.cluster, s.workers[key]))
  }

  const GUARD_RULES := {FinalizerIsOurs, CleanupSeesLive, CleanupDeletesLand}

  const ALL_RULES := GUARD_RULES + {ProvisionSeesLive}

  lemma GuardRulesHold(s: Sys, a: Action)
    requires Enabled(s, a) && HoldAll(GUARD_RULES, s, a)
    ensures Holds(FinalizerIsOurs, s, a) && Holds(CleanupSeesLive, s, a) && Holds(CleanupDeletesLand, s, a)
  {
    assert FinalizerIsOurs in GUARD_RULES && CleanupSeesLive in GUARD_RULES && CleanupDeletesLand in GUARD_RULES;
  }

  lemma OwnCleanupCaught(s: Sys, key: Key, ans: Answer)
    requires SysGuarded(s) && Enabled(s, Work(key, ans)) && HoldAll(GUARD_RULES, s, Work(key, ans))
    ensures var s' := Apply(s, Work(key, ans)); CleanupCaught(s'.cluster, s'.workers[key])
  {
    var c, pc := s.cluster, s.workers[key];
    assert ReadInv(c, key, pc) && CleanupCaught(c, pc);
    GuardRulesHold(s, Work(key, ans));
    if Busy(pc) && !WantsPod(pc.inst) { CaughtStep(s.template, c, key, pc, ans); }
  }

  /** A worker that drops the finalizer has no live pod left. */
  lemma DropNeedsNoLive(s: Sys, a: Action)
    requires SysGuarded(s) && Enabled(s, a) && a.Work? && Drops(s, a, a.key)
    ensures !HasLive(s.cluster, s.workers[a.key].inst.uid)
  {
    assert CleanupCaught(s.cluster, s.workers[a.key]) && ReadInv(s.cluster, a.key, s.workers[a.key]);
  }

  lemma GuardStep(s: Sys, a: Action)
    requires SysGuarded(s) && Enabled(s, a) && HoldAll(GUARD_RULES, s, a)
    ensures SysGuarded(Apply(s, a))
  {
    GuardRulesHold(s, a);
    SoundStep(s, a);
    PinStep(s, a);
    GuardBreaksIff(s, a);
    if a.Work? && Drops(s, a, a.key) { DropNeedsNoLive(s, a); }
    var s' := Apply(s, a);
    forall key | key in s'.workers ensures CleanupCaught(s'.cluster, s'.workers[key]) {
      if a.Work? && a.key == key {
        OwnCleanupCaught(s, key, a.ans);
      } else if key in s.workers && s'.workers[key] == s.workers[key] {
        assert CleanupCaught(s.cluster, s.workers[key]);
        if Busy(s.workers[key]) && !WantsPod(s.workers[key].inst) {
          OthersRely(s, a, key);
          CaughtStable(s.cluster, s'.cluster, s.workers[key]);
        }
      }
    }
  }

  lemma {:induction false} GuardedRun(s: Sys, run: seq<Action>)
    requires SysGuarded(s) && Runs(s, run) && Obeys(s, run, GUARD_RULES)
    ensures SysGuarded(After(s, run))
    decreases |run|
  {
    if run != [] {
      GuardStep(s, run[0]);
      GuardedRun(Apply(s, run[0]), run[1..]);
    }
  }

  /** In every state of every run that obeys the three rules, a Service with a live pod is stored and
      carries the finalizer. */
  lemma FinalizerGuardsLivePods(s: Sys, run: seq<Action>)
    requires Init(s) && Runs(s, run) && Obeys(s, run, GUARD_RULES)
    ensures Guarded(After(s, run).cluster)
  {
    GuardedRun(s, run);
  }
}
