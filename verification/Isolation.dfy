/** What a Reconcile never touches: undisturbed for every pattern of failures, and step by step
    in every interleaved run. */
module Isolation {
  import opened Objects
  import opened ApiServer
  import opened Reconcile
  import opened Outcome
  import opened Reads
  import opened Safety
  import Claim

  // ----- undisturbed, whatever fails -----

  /** In the Service's namespace, with both its labels, and either inactive or not somebody else's. */
  predicate Touchable(inst: Service, p: Pod) {
    Selected(p, inst) && (!IsPodActive(p) || ControllerUid(p) == None || ControllerUid(p) == Some(inst.uid))
  }

  ghost predicate Apart(c0: Cluster, key: Key, inst: Service, c: Cluster) {
    && (forall k | k in c0.pods && !Touchable(inst, c0.pods[k]) :: At(c, k) == Some(c0.pods[k]))
    && (forall k | k in c.pods && k !in c0.pods :: Owned(inst, c.pods[k]))
    && (forall k | k != key ::
          (k in c.services <==> k in c0.services) && (k in c.services ==> c.services[k] == c0.services[k]))
  }

  lemma WriteApart(c0: Cluster, key: Key, inst: Service, c: Cluster, k: Key, d: Cluster)
    requires Apart(c0, key, inst, c) && k in c0.pods && Touchable(inst, c0.pods[k])
    requires d.services == c.services && forall l | l != k :: At(d, l) == At(c, l)
    ensures Apart(c0, key, inst, d)
  {
    forall l | l in c0.pods && !Touchable(inst, c0.pods[l]) ensures At(d, l) == Some(c0.pods[l]) {
      assert At(d, l) == At(c, l);
    }
    forall l | l in d.pods && l !in c0.pods ensures Owned(inst, d.pods[l]) {
      assert At(d, l) == At(c, l);
    }
  }

  lemma CreateApart(t: Template, c0: Cluster, key: Key, inst: Service, c: Cluster, ans: Answer)
    requires Apart(c0, key, inst, c)
    ensures Apart(c0, key, inst, Step(t, c, AtCreate(inst), ans).0)
  {
    GeneratedPod(t, inst, ans.suffix);
    var made := GeneratePod(t, inst, ans.suffix);
    if made.Some? {
      var d := CreatePod(c, made.value, ans.uid, ans.fault).cluster;
      if d != c {
        assert ControllerUid(d.pods[made.value.key]) == ControllerUid(made.value);
      }
    }
  }

  lemma UpdateServiceApart(c0: Cluster, key: Key, inst: Service, c: Cluster, w: Service, fault: Fault)
    requires Apart(c0, key, inst, c) && w.key == key
    ensures Apart(c0, key, inst, UpdateService(c, w, fault).cluster)
  {
    var d := UpdateService(c, w, fault).cluster;
    assert d.pods == c.pods;
    assert forall k :: At(d, k) == At(c, k);
  }

  lemma UpdateTouchesOne(c: Cluster, q: Pod, fault: Fault)
    ensures var d := UpdatePod(c, q, fault).cluster;
      d.services == c.services && forall l | l != q.key :: At(d, l) == At(c, l)
  {
  }

  lemma ClaimApart(c0: Cluster, key: Key, inst: Service, c: Cluster, claim: Claim.State, ans: Answer)
    requires Apart(c0, key, inst, c) && ActiveAre(c0, inst, claim.objs) && claim.mgr == ManagerFor(inst)
    requires !Claim.Finished(claim)
    ensures Apart(c0, key, inst, Claim.Step(c, claim, ans).0)
  {
    var p := claim.objs[claim.next];
    DecideSelected(inst, p);
    if Claim.NextCall(claim).Write? {
      var d := Claim.Step(c, claim, ans).0;
      UpdateTouchesOne(c, Claim.NextCall(claim).written, ans.fault);
      WriteApart(c0, key, inst, c, p.key, d);
    }
  }

  lemma DeletesApart(t: Template, c0: Cluster, key: Key, inst: Service, c: Cluster, pc: PC, ans: Answer)
    requires WellFormed(c0) && Found(c0, key, inst) && Progress(c0, key, c, pc) && Apart(c0, key, inst, c)
    requires pc.AtDeleteInactive? || pc.AtDeleteClaimed?
    ensures Apart(c0, key, inst, Step(t, c, pc, ans).0)
  {
    var pods := if pc.AtDeleteInactive? then pc.inactive else pc.claimed;
    if pc.next < |pods| {
      DeleteEnds(c0, c, pods[pc.next].key, ans);
      WriteApart(c0, key, inst, c, pods[pc.next].key, Step(t, c, pc, ans).0);
    }
  }

  lemma ApartStep(t: Template, c0: Cluster, key: Key, inst: Service, c: Cluster, pc: PC, ans: Answer)
    requires WellFormed(c0) && Found(c0, key, inst) && Progress(c0, key, c, pc) && Apart(c0, key, inst, c)
    requires InFlight(pc) && Admissible(c, pc, ans)
    ensures Apart(c0, key, inst, Step(t, c, pc, ans).0)
  {
    match pc
    case AtClaim(_, inactive, claim) =>
      if !Claim.Finished(claim) { ClaimApart(c0, key, inst, c, claim, ans); }
    case AtDeleteInactive(_, _, _, _, _) => DeletesApart(t, c0, key, inst, c, pc, ans);
    case AtDeleteClaimed(_, _, _, _) => DeletesApart(t, c0, key, inst, c, pc, ans);
    case AtDropFinalizer(_, _) => UpdateServiceApart(c0, key, inst, c, Dropped(inst), ans.fault);
    case AtAddFinalizer(_, _) => UpdateServiceApart(c0, key, inst, c, Added(inst), ans.fault);
    case AtCreate(_) => CreateApart(t, c0, key, inst, c, ans);
    case _ =>
  }

  lemma {:induction false} ApartSolo(t: Template, c0: Cluster, key: Key, inst: Service, c: Cluster, pc: PC,
                                     answers: seq<Answer>)
    requires WellFormed(c0) && Found(c0, key, inst) && Progress(c0, key, c, pc) && Apart(c0, key, inst, c)
    requires Solo(t, c, pc, answers)
    ensures Apart(c0, key, inst, SoloEnd(t, c, pc, answers).0)
    decreases |answers|
  {
    if answers != [] {
      ApartStep(t, c0, key, inst, c, pc, answers[0]);
      StepProgress(t, c0, key, c, pc, answers[0]);
      var r := Step(t, c, pc, answers[0]);
      ApartSolo(t, c0, key, inst, r.0, r.1, answers[1..]);
    }
  }

  /** However a Reconcile ends, and at whatever point it is looked at, every pod it may not touch is
      exactly as it was, every other Service too, and whatever is new belongs to this Service. */
  lemma ReconcileIsolated(t: Template, c0: Cluster, key: Key, answers: seq<Answer>)
    requires WellFormed(c0) && key in c0.services && Solo(t, c0, AtGet(key), answers)
    ensures Apart(c0, key, c0.services[key], SoloEnd(t, c0, AtGet(key), answers).0)
  {
    ApartSolo(t, c0, key, c0.services[key], c0, AtGet(key), answers);
  }

  // ----- in interleaved runs -----

  /** A pod uid stays with its name, its tracking labels and its deletion mark; a uid once used never
      comes back. */
  ghost predicate Persist(c: Cluster, d: Cluster) {
    && c.podUids <= d.podUids
    && (forall k | k in d.pods && d.pods[k].uid in c.podUids ::
          && k in c.pods && c.pods[k].uid == d.pods[k].uid && TrackingLabels(c.pods[k]) == TrackingLabels(d.pods[k])
          && (c.pods[k].deleting ==> d.pods[k].deleting))
  }

  /** A listed pod: wherever its uid is still stored, it is under that name and still selected. */
  ghost predicate Known(c: Cluster, inst: Service, q: Pod) {
    && Selected(q, inst) && q.uid in c.podUids
    && (forall k | k in c.pods && c.pods[k].uid == q.uid ::
          k == q.key && TrackingLabels(c.pods[k]) == TrackingLabels(q))
  }

  ghost predicate KnownAll(c: Cluster, inst: Service, pods: seq<Pod>) {
    forall i | 0 <= i < |pods| :: Known(c, inst, pods[i])
  }

  ghost predicate KnownInv(c: Cluster, pc: PC) {
    match pc
    case AtClaim(inst, inactive, claim) => KnownAll(c, inst, inactive) && KnownAll(c, inst, claim.objs)
    case AtDeleteInactive(inst, inactive, _, claimed, _) => KnownAll(c, inst, inactive) && KnownAll(c, inst, claimed)
    case AtDeleteClaimed(inst, claimed, _, _) => KnownAll(c, inst, claimed)
    case _ => true
  }

  ghost predicate SysKnown(s: Sys) {
    SysRead(s) && forall key | key in s.workers :: KnownInv(s.cluster, s.workers[key])
  }

  lemma PersistWrite(c: Cluster, q: Pod)
    requires WellFormed(c) && q.key in c.pods && q.uid == c.pods[q.key].uid
    requires TrackingLabels(q) == TrackingLabels(c.pods[q.key]) && (c.pods[q.key].deleting ==> q.deleting)
    ensures Persist(c, StorePod(c, q))
  {
  }

  lemma PersistDelete(c: Cluster, k: Key, fault: Fault, gone: bool)
    requires WellFormed(c)
    ensures Persist(c, DeletePod(c, k, fault, gone).cluster)
  {
    if k in c.pods {
      PersistWrite(c, c.pods[k].(key := k, deleting := true));
    }
  }

  lemma PersistClaim(c: Cluster, claim: Claim.State, ans: Answer)
    requires WellFormed(c) && !Claim.Finished(claim) && Genuine(c, claim.objs[claim.next])
    ensures Persist(c, Claim.Step(c, claim, ans).0)
  {
    var p := claim.objs[claim.next];
    var call := Claim.NextCall(claim);
    if call.Write? {
      NoLostUpdate(c, p, call.written, ans.fault);
      if Claim.Step(c, claim, ans).0 != c { PersistWrite(c, call.written); }
    }
  }

  lemma PersistCreate(t: Template, c: Cluster, inst: Service, ans: Answer)
    requires WellFormed(c) && ans.uid !in c.podUids
    ensures Persist(c, Step(t, c, AtCreate(inst), ans).0)
  {
    var p := GeneratePod(t, inst, ans.suffix);
    if p.Some? { PersistNew(c, p.value, ans.uid, ans.fault); }
  }

  lemma PersistNew(c: Cluster, p: Pod, uid: Uid, fault: Fault)
    requires WellFormed(c) && uid !in c.podUids
    ensures Persist(c, CreatePod(c, p, uid, fault).cluster)
  {
  }

  lemma PersistDeletes(t: Template, c: Cluster, pc: PC, ans: Answer)
    requires WellFormed(c) && (pc.AtDeleteInactive? || pc.AtDeleteClaimed?)
    ensures Persist(c, Step(t, c, pc, ans).0)
  {
    var pods := if pc.AtDeleteInactive? then pc.inactive else pc.claimed;
    if pc.next < |pods| { PersistDelete(c, pods[pc.next].key, ans.fault, ans.gone); }
  }

  lemma PersistLocal(t: Template, c: Cluster, pc: PC, ans: Answer)
    requires WellFormed(c) && (pc.AtGet? || pc.AtList? || pc.AtDropFinalizer? || pc.AtAddFinalizer?)
    ensures Persist(c, Step(t, c, pc, ans).0)
  {
    assert Step(t, c, pc, ans).0.pods == c.pods && Step(t, c, pc, ans).0.podUids == c.podUids;
  }

  lemma PersistWork(t: Template, c: Cluster, key: Key, pc: PC, ans: Answer)
    requires WellFormed(c) && ReadInv(c, key, pc) && InFlight(pc) && Admissible(c, pc, ans)
    ensures Persist(c, Step(t, c, pc, ans).0)
  {
    match pc
    case AtClaim(inst, _, claim) =>
      if !Claim.Finished(claim) {
        assert Listed(c, inst, claim.objs[claim.next]);
        PersistClaim(c, claim, ans);
      }
    case AtCreate(inst) => PersistCreate(t, c, inst, ans);
    case AtDeleteInactive(_, _, _, _, _) => PersistDeletes(t, c, pc, ans);
    case AtDeleteClaimed(_, _, _, _) => PersistDeletes(t, c, pc, ans);
    case _ => PersistLocal(t, c, pc, ans);
  }

  lemma PersistStep(s: Sys, a: Action)
    requires SysRead(s) && Enabled(s, a)
    ensures Persist(s.cluster, Apply(s, a).cluster)
  {
    if a.Work? {
      assert ReadInv(s.cluster, a.key, s.workers[a.key]);
      PersistWork(s.template, s.cluster, a.key, s.workers[a.key], a.ans);
    } else if a.EditPod? {
      PersistWrite(s.cluster, a.pod);
    } else if a.DropPod? {
      PersistDelete(s.cluster, a.key, Served, a.gone);
    }
  }

  lemma KnownStable(c: Cluster, d: Cluster, inst: Service, pods: seq<Pod>)
    requires Persist(c, d) && KnownAll(c, inst, pods)
    ensures KnownAll(d, inst, pods)
  {
    forall i | 0 <= i < |pods| ensures Known(d, inst, pods[i]) {
      assert Known(c, inst, pods[i]);
    }
  }

  lemma ListingKnown(c: Cluster, inst: Service, listing: seq<Pod>, active: bool)
    requires WellFormed(c) && IsListing(c, inst, listing)
    ensures KnownAll(c, inst, Split(listing, active))
  {
    var pods := Split(listing, active);
    SplitMembers(listing, active);
    forall i | 0 <= i < |pods| ensures Known(c, inst, pods[i]) {
      assert pods[i] in pods;
      var j :| 0 <= j < |listing| && listing[j] == pods[i];
    }
  }

  lemma OwnKnown(s: Sys, key: Key, ans: Answer)
    requires SysKnown(s) && Enabled(s, Work(key, ans))
    ensures var s' := Apply(s, Work(key, ans)); KnownInv(s'.cluster, s'.workers[key])
  {
    var c, pc := s.cluster, s.workers[key];
    var d := Apply(s, Work(key, ans)).cluster;
    assert KnownInv(c, pc);
    PersistStep(s, Work(key, ans));
    if pc.AtList? {
      ListingKnown(c, pc.inst, ans.listing, true);
      ListingKnown(c, pc.inst, ans.listing, false);
    } else {
      KnownInvStable(c, d, pc);
      NextKnown(s.template, c, d, pc, ans);
    }
  }

  lemma KnownInvStable(c: Cluster, d: Cluster, pc: PC)
    requires Persist(c, d) && KnownInv(c, pc)
    ensures KnownInv(d, pc)
  {
    match pc
    case AtClaim(inst, inactive, claim) =>
      KnownStable(c, d, inst, inactive);
      KnownStable(c, d, inst, claim.objs);
    case AtDeleteInactive(inst, inactive, _, claimed, _) =>
      KnownStable(c, d, inst, inactive);
      KnownStable(c, d, inst, claimed);
    case AtDeleteClaimed(inst, claimed, _, _) => KnownStable(c, d, inst, claimed);
    case _ =>
  }

  /** A step hands its lists on. */
  lemma NextKnown(t: Template, c: Cluster, d: Cluster, pc: PC, ans: Answer)
    requires KnownInv(d, pc) && InFlight(pc) && !pc.AtList?
    ensures KnownInv(d, Step(t, c, pc, ans).1)
  {
    if pc.AtClaim? {
      if Claim.Finished(pc.claim) {
        PickKnown(d, pc.inst, pc.claim.objs, pc.claim.claimed);
      } else {
        assert Claim.Step(c, pc.claim, ans).1.objs == pc.claim.objs;
      }
    }
  }

  lemma {:induction false} PickKnown(c: Cluster, inst: Service, objs: seq<Pod>, indices: seq<nat>)
    requires KnownAll(c, inst, objs)
    ensures KnownAll(c, inst, Pick(objs, indices))
  {
    if indices != [] {
      PickKnown(c, inst, objs, indices[1..]);
      var rest := Pick(objs, indices[1..]);
      if indices[0] < |objs| {
        assert Pick(objs, indices) == [objs[indices[0]]] + rest;
      } else {
        assert Pick(objs, indices) == [] + rest == rest;
      }
    }
  }

  lemma KnownStep(s: Sys, a: Action)
    requires SysKnown(s) && Enabled(s, a)
    ensures SysKnown(Apply(s, a))
  {
    ReadStep(s, a);
    PersistStep(s, a);
    var s' := Apply(s, a);
    forall key | key in s'.workers ensures KnownInv(s'.cluster, s'.workers[key]) {
      if a.Work? && a.key == key {
        OwnKnown(s, key, a.ans);
      } else if key in s.workers && s'.workers[key] == s.workers[key] {
        KnownInvStable(s.cluster, s'.cluster, s.workers[key]);
      }
    }
  }

  lemma {:induction false} KnownAlways(s: Sys, run: seq<Action>)
    requires SysKnown(s) && Runs(s, run)
    ensures SysKnown(After(s, run))
    decreases |run|
  {
    if run != [] {
      KnownStep(s, run[0]);
      KnownAlways(Apply(s, run[0]), run[1..]);
    }
  }

  /** The pod the next step writes to or deletes, as it was listed. */
  function Target(pc: PC): Option<Pod> {
    match pc
    case AtClaim(_, _, claim) => if claim.next < |claim.objs| then Some(claim.objs[claim.next]) else None
    case AtDeleteInactive(_, inactive, next, _, _) => if next < |inactive| then Some(inactive[next]) else None
    case AtDeleteClaimed(_, claimed, next, _) => if next < |claimed| then Some(claimed[next]) else None
    case _ => None
  }

  /** The step's one target no longer goes by that name: another pod has taken it. */
  ghost predicate NameReused(c: Cluster, pc: PC) {
    && Target(pc).Some? && Target(pc).value.key in c.pods
    && c.pods[Target(pc).value.key].uid != Target(pc).value.uid
  }

  /** Selected by the Service, and an orphan or the Service's own. */
  predicate OursToTouch(inst: Service, p: Pod) {
    Selected(p, inst) && (ControllerUid(p) == None || ControllerUid(p) == Some(inst.uid))
  }

  /** A Delete of the pod stored at `k` is next. */
  predicate Deletes(pc: PC, k: Key) {
    (pc.AtDeleteInactive? || pc.AtDeleteClaimed?) && Target(pc).Some? && Target(pc).value.key == k
  }

  lemma DeleteHits(c: Cluster, target: Key, fault: Fault, gone: bool, k: Key)
    requires WellFormed(c) && k in c.pods
    ensures At(DeletePod(c, target, fault, gone).cluster, k) != At(c, k) <==>
      k == target && !fault.Refused? && !c.pods[k].deleting
  {
  }

  /** A claim step changes only the pod it looks at, and only one that is ours to touch. */
  lemma ClaimHits(c: Cluster, inst: Service, claim: Claim.State, ans: Answer, k: Key)
    requires !Claim.Finished(claim) && claim.mgr == ManagerFor(inst) && k in c.pods
    requires Genuine(c, claim.objs[claim.next]) && Selected(claim.objs[claim.next], inst)
    requires At(Claim.Step(c, claim, ans).0, k) != At(c, k)
    ensures claim.objs[claim.next].key == k && OursToTouch(inst, c.pods[k])
  {
    var p := claim.objs[claim.next];
    MatchesOwnSelector(inst, p);
    var call := Claim.NextCall(claim);
    if call.Write? { NoLostUpdate(c, p, call.written, ans.fault); }
  }

  /** A stored pod changes in a worker's step exactly when it is deleted by name, or when it is the one
      being claimed and is ours to touch. */
  lemma StepHits(t: Template, c: Cluster, key: Key, pc: PC, ans: Answer, k: Key)
    requires WellFormed(c) && ReadInv(c, key, pc) && InFlight(pc) && k in c.pods
    ensures !pc.AtClaim? ==>
      (At(Step(t, c, pc, ans).0, k) != At(c, k) <==> Deletes(pc, k) && !ans.fault.Refused? && !c.pods[k].deleting)
    ensures pc.AtClaim? && At(Step(t, c, pc, ans).0, k) != At(c, k) ==>
      Target(pc).Some? && Target(pc).value.key == k && OursToTouch(pc.inst, c.pods[k])
  {
    match pc
    case AtClaim(inst, _, claim) =>
      if !Claim.Finished(claim) && At(Claim.Step(c, claim, ans).0, k) != At(c, k) {
        assert Listed(c, inst, claim.objs[claim.next]);
        ClaimHits(c, inst, claim, ans, k);
      }
    case AtDeleteInactive(_, inactive, next, _, _) =>
      if next < |inactive| { DeleteHits(c, inactive[next].key, ans.fault, ans.gone, k); }
    case AtDeleteClaimed(_, claimed, next, _) =>
      if next < |claimed| { DeleteHits(c, claimed[next].key, ans.fault, ans.gone, k); }
    case AtCreate(inst) => CreateHits(t, c, inst, ans, k);
    case _ =>
  }

  lemma CreateHits(t: Template, c: Cluster, inst: Service, ans: Answer, k: Key)
    requires k in c.pods
    ensures At(Step(t, c, AtCreate(inst), ans).0, k) == At(c, k)
  {
  }

  /** In every run, whoever else meddles with the pods: a step changes a stored pod that is not the
      Service's to touch exactly when it is a Delete that is carried out under that pod's name and the
      pod is not terminating yet.  The claim phase never does. */
  lemma StrangerHitIff(s: Sys, run: seq<Action>, key: Key, ans: Answer, k: Key)
    requires Init(s) && Runs(s, run) && Enabled(After(s, run), Work(key, ans)) && !After(s, run).workers[key].AtGet?
    requires k in After(s, run).cluster.pods
    requires !OursToTouch(After(s, run).workers[key].inst, After(s, run).cluster.pods[k])
    ensures var c, pc := After(s, run).cluster, After(s, run).workers[key];
      At(Apply(After(s, run), Work(key, ans)).cluster, k) != At(c, k) <==>
        Deletes(pc, k) && !ans.fault.Refused? && !c.pods[k].deleting
  {
    KnownAlways(s, run);
    var now := After(s, run);
    assert ReadInv(now.cluster, key, now.workers[key]) && KnownInv(now.cluster, now.workers[key]);
    StepHits(now.template, now.cluster, key, now.workers[key], ans, k);
  }

  /** In every run, each step of a worker changes at most pods in its own namespace: one it makes, which
      belongs to its Service; one that is the Service's to touch; or by a Delete, which asks for neither
      controller nor uid, a selected pod under a foreign controller or one that has taken the listed name. */
  lemma StepsIsolated(s: Sys, run: seq<Action>, key: Key, ans: Answer, k: Key)
    requires Init(s) && Runs(s, run) && Enabled(After(s, run), Work(key, ans))
    requires At(Apply(After(s, run), Work(key, ans)).cluster, k) != At(After(s, run).cluster, k)
    ensures var c := After(s, run).cluster;
      var d := Apply(After(s, run), Work(key, ans)).cluster;
      var pc := After(s, run).workers[key];
      && Busy(pc) && k.namespace == key.namespace
      && (if k !in c.pods then Owned(pc.inst, d.pods[k])
          else (OursToTouch(pc.inst, c.pods[k]) ||
                (Deletes(pc, k) && (NameReused(c, pc) || Selected(c.pods[k], pc.inst)))))
  {
    KnownAlways(s, run);
    var now := After(s, run);
    var c, pc := now.cluster, now.workers[key];
    assert ReadInv(c, key, pc) && KnownInv(c, pc);
    if k in c.pods {
      StepHits(now.template, c, key, pc, ans, k);
      if Deletes(pc, k) {
        var q := Target(pc).value;
        assert Known(c, pc.inst, q);
        if c.pods[k].uid == q.uid { KnownIsSelected(c, pc.inst, q, k); }
      }
    } else {
      MadeIsOwned(now.template, c, pc, ans, k);
    }
  }

  /** A listed pod that is still stored is still selected. */
  lemma KnownIsSelected(c: Cluster, inst: Service, q: Pod, k: Key)
    requires WellFormed(c) && Known(c, inst, q) && k in c.pods && c.pods[k].uid == q.uid
    ensures Selected(c.pods[k], inst)
  {
    TrackingLabelsMeans(c.pods[k], q);
    LabelledMeans(q, inst.key.name, inst.uid);
    LabelledMeans(c.pods[k], inst.key.name, inst.uid);
  }

  lemma MadeIsOwned(t: Template, c: Cluster, pc: PC, ans: Answer, k: Key)
    requires InFlight(pc) && k !in c.pods && k in Step(t, c, pc, ans).0.pods
    ensures pc.AtCreate? && k.namespace == pc.inst.key.namespace && Owned(pc.inst, Step(t, c, pc, ans).0.pods[k])
  {
    if pc.AtCreate? {
      GeneratedPod(t, pc.inst, ans.suffix);
      var made := GeneratePod(t, pc.inst, ans.suffix);
      if made.Some? {
        assert ControllerUid(Step(t, c, pc, ans).0.pods[k]) == ControllerUid(made.value);
      }
    }
  }
}
