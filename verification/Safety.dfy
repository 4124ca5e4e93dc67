/** At most one frp-client pod per Service: in which runs, and exactly when a second one is made. */
module Safety {
  import opened Objects
  import opened ApiServer
  import opened Reconcile
  import opened Reads
  import Claim

  // ----- labels and controllers, whatever others do -----

  /** The tracking label names a Service uid together with that Service's name and namespace, and a pod
      controlled by a Service carries its label. */
  ghost predicate PodDisciplined(serviceUids: map<Uid, Key>, p: Pod) {
    && (LABEL_CONTROLLER_UID in p.labels ==>
          var uid := p.labels[LABEL_CONTROLLER_UID];
          && uid in serviceUids && LABEL_SERVICE_NAME in p.labels
          && serviceUids[uid] == Key(p.key.namespace, p.labels[LABEL_SERVICE_NAME]))
    && (ControllerUid(p).Some? && ControllerUid(p).value in serviceUids ==>
          LABEL_CONTROLLER_UID in p.labels && p.labels[LABEL_CONTROLLER_UID] == ControllerUid(p).value)
  }

  ghost predicate Disciplined(c: Cluster) {
    forall k | k in c.pods :: PodDisciplined(c.serviceUids, c.pods[k])
  }

  ghost predicate SysSound(s: Sys) {
    SysRead(s) && Disciplined(s.cluster)
  }

  lemma TrackingLabelsMeans(p: Pod, q: Pod)
    requires TrackingLabels(p) == TrackingLabels(q)
    ensures LABEL_CONTROLLER_UID in p.labels <==> LABEL_CONTROLLER_UID in q.labels
    ensures LABEL_CONTROLLER_UID in p.labels ==> p.labels[LABEL_CONTROLLER_UID] == q.labels[LABEL_CONTROLLER_UID]
    ensures LABEL_SERVICE_NAME in p.labels <==> LABEL_SERVICE_NAME in q.labels
    ensures LABEL_SERVICE_NAME in p.labels ==> p.labels[LABEL_SERVICE_NAME] == q.labels[LABEL_SERVICE_NAME]
  {
  }

  /** A rewrite of a stored pod: same place and labels, no revival, a controller that fits. */
  ghost predicate Tame(c: Cluster, p: Pod, q: Pod) {
    && q.key == p.key && TrackingLabels(q) == TrackingLabels(p) && (IsPodActive(q) ==> IsPodActive(p))
    && (ControllerUid(q) == ControllerUid(p) || ControllerUid(q) == None || ControllerUid(q).value !in c.serviceUids
        || (LABEL_CONTROLLER_UID in p.labels && ControllerUid(q) == Some(p.labels[LABEL_CONTROLLER_UID])))
  }

  /** No pod is live that was not live before. */
  ghost predicate NoNewLive(c: Cluster, d: Cluster) {
    forall uid, k | k in d.pods && LiveFor(d.pods[k], uid) :: k in c.pods && LiveFor(c.pods[k], uid)
  }

  /** What every change but a Create keeps. */
  ghost predicate Quiet(c: Cluster, d: Cluster) {
    NoNewLive(c, d) && (Disciplined(c) ==> Disciplined(d))
  }

  lemma TameQuiet(c: Cluster, q: Pod)
    requires q.key in c.pods && Tame(c, c.pods[q.key], q)
    ensures Quiet(c, StorePod(c, q))
  {
    var d := StorePod(c, q);
    TrackingLabelsMeans(c.pods[q.key], q);
    assert ControllerUid(d.pods[q.key]) == ControllerUid(q);
    forall uid, k | k in d.pods && LiveFor(d.pods[k], uid) ensures k in c.pods && LiveFor(c.pods[k], uid) {
      assert k != q.key ==> d.pods[k] == c.pods[k];
    }
    if Disciplined(c) {
      assert PodDisciplined(c.serviceUids, c.pods[q.key]);
      assert PodDisciplined(d.serviceUids, d.pods[q.key]);
    }
  }

  lemma SameQuiet(c: Cluster, d: Cluster)
    requires d.pods == c.pods && d.serviceUids == c.serviceUids
    ensures Quiet(c, d)
  {
  }

  lemma MarkQuiet(c: Cluster, k: Key, gone: bool)
    requires WellFormed(c) && k in c.pods
    ensures Quiet(c, MarkPod(c, k, gone))
  {
    var q := c.pods[k].(key := k, deleting := true);
    assert ControllerUid(q) == ControllerUid(c.pods[k]);
    TameQuiet(c, q);
  }

  lemma DeleteQuiet(c: Cluster, k: Key, fault: Fault, gone: bool)
    requires WellFormed(c)
    ensures Quiet(c, DeletePod(c, k, fault, gone).cluster)
  {
    if k in c.pods { MarkQuiet(c, k, gone); }
  }

  lemma MatchesOwnSelector(inst: Service, p: Pod)
    requires Selected(p, inst)
    ensures Claim.Match(ManagerFor(inst), p)
  {
  }

  /** A pod from the Service's own listing is kept if it is the Service's own, adopted if it is an orphan
      and the Service is not dying, and passed over otherwise; it is never released. */
  lemma DecisionOnListed(inst: Service, p: Pod)
    requires Selected(p, inst) && IsPodActive(p)
    ensures Claim.Decide(ManagerFor(inst), p) ==
      if ControllerUid(p) == Some(inst.uid) then Claim.Keep
      else if ControllerUid(p) == None && !inst.deleting then Claim.Adopt
      else Claim.Ignore
  {
    MatchesOwnSelector(inst, p);
  }

  /** Adopting a listed orphan writes back what was read, plus the reference: it lands only on the version
      that was read. */
  lemma AdoptWriteKeeps(c: Cluster, inst: Service, p: Pod, q: Pod, fault: Fault)
    requires Listed(c, inst, p) && SetControllerReference(OwnerOf(inst), p) == Some(q)
    ensures Quiet(c, UpdatePod(c, q, fault).cluster)
  {
    AdoptControls(OwnerOf(inst), p);
    NoLostUpdate(c, p, q, fault);
    if UpdatePod(c, q, fault).cluster != c {
      LabelledMeans(p, inst.key.name, inst.uid);
      TameQuiet(c, q);
    }
  }

  lemma ClaimQuiet(c: Cluster, inst: Service, claim: Claim.State, ans: Answer)
    requires !Claim.Finished(claim) && claim.mgr == ManagerFor(inst) && Listed(c, inst, claim.objs[claim.next])
    ensures Quiet(c, Claim.Step(c, claim, ans).0)
  {
    var p := claim.objs[claim.next];
    MatchesOwnSelector(inst, p);
    var call := Claim.NextCall(claim);
    if call.Write? { AdoptWriteKeeps(c, inst, p, call.written, ans.fault); }
  }

  lemma DeletesQuiet(t: Template, c: Cluster, pc: PC, ans: Answer)
    requires WellFormed(c) && (pc.AtDeleteInactive? || pc.AtDeleteClaimed?)
    ensures Quiet(c, Step(t, c, pc, ans).0)
  {
    var pods := if pc.AtDeleteInactive? then pc.inactive else pc.claimed;
    if pc.next < |pods| { DeleteQuiet(c, pods[pc.next].key, ans.fault, ans.gone); }
  }

  lemma ClaimStepQuiet(t: Template, c: Cluster, key: Key, pc: PC, ans: Answer)
    requires ReadInv(c, key, pc) && pc.AtClaim?
    ensures Quiet(c, Step(t, c, pc, ans).0)
  {
    if !Claim.Finished(pc.claim) {
      assert Listed(c, pc.inst, pc.claim.objs[pc.claim.next]);
      ClaimQuiet(c, pc.inst, pc.claim, ans);
    }
  }

  lemma PodsUntouched(t: Template, c: Cluster, pc: PC, ans: Answer)
    requires pc.AtGet? || pc.AtList? || pc.AtDropFinalizer? || pc.AtAddFinalizer?
    ensures var d := Step(t, c, pc, ans).0; d.pods == c.pods && d.serviceUids == c.serviceUids
  {
  }

  lemma StepQuiet(t: Template, c: Cluster, key: Key, pc: PC, ans: Answer)
    requires WellFormed(c) && ReadInv(c, key, pc) && InFlight(pc) && !pc.AtCreate?
    ensures Quiet(c, Step(t, c, pc, ans).0)
  {
    if pc.AtClaim? {
      ClaimStepQuiet(t, c, key, pc, ans);
    } else if pc.AtDeleteInactive? || pc.AtDeleteClaimed? {
      DeletesQuiet(t, c, pc, ans);
    } else {
      PodsUntouched(t, c, pc, ans);
      SameQuiet(c, Step(t, c, pc, ans).0);
    }
  }

  lemma EditTame(c: Cluster, p: Pod, q: Pod)
    requires LegalPodEdit(c, p, q)
    ensures Tame(c, p, q)
  {
  }

  lemma NewOutsideQuiet(c: Cluster, p: Pod)
    requires p.key !in c.pods && Outside(c, p)
    ensures Quiet(c, StorePod(c, p).(podUids := c.podUids + {p.uid}))
  {
    var d := StorePod(c, p).(podUids := c.podUids + {p.uid});
    assert ControllerUid(d.pods[p.key]) == ControllerUid(p);
    assert forall uid :: !LiveFor(d.pods[p.key], uid);
    assert PodDisciplined(d.serviceUids, d.pods[p.key]);
  }

  lemma NewServiceQuiet(c: Cluster, s: Service)
    requires s.uid !in c.serviceUids && forall k | k in c.pods :: !Tracks(c.pods[k], s.uid)
    ensures Quiet(c, StoreService(c, s).(serviceUids := c.serviceUids[s.uid := s.key]))
  {
  }

  lemma OthersQuiet(s: Sys, a: Action)
    requires WellFormed(s.cluster) && Enabled(s, a) && !a.Work?
    ensures Quiet(s.cluster, Apply(s, a).cluster)
  {
    var c := s.cluster;
    if a.NewService? {
      NewServiceQuiet(c, a.svc);
    } else if a.NewPod? {
      NewOutsideQuiet(c, a.pod);
    } else if a.EditPod? {
      EditTame(c, c.pods[a.pod.key], a.pod);
      TameQuiet(c, a.pod);
    } else if a.DropPod? {
      MarkQuiet(c, a.key, a.gone);
    } else if !a.Vanish? {
      SameQuiet(c, Apply(s, a).cluster);
    }
  }

  // ----- a Create -----

  /** The Create is carried out: there is a pod to make, its name is free and the call is not refused. */
  ghost predicate CreateLands(t: Template, c: Cluster, inst: Service, ans: Answer) {
    var made := GeneratePod(t, inst, ans.suffix);
    made.Some? && made.value.key !in c.pods && !ans.fault.Refused?
  }

  ghost predicate Creates(s: Sys, a: Action) {
    && a.Work? && a.key in s.workers && s.workers[a.key].AtCreate?
    && CreateLands(s.template, s.cluster, s.workers[a.key].inst, a.ans)
  }

  /** What it adds: one live pod of this Service under a new name. */
  lemma CreateAdds(t: Template, c: Cluster, inst: Service, ans: Answer)
    requires CreateLands(t, c, inst, ans)
    ensures var d := Step(t, c, AtCreate(inst), ans).0;
      var k := GeneratePod(t, inst, ans.suffix).value.key;
      && d.serviceUids == c.serviceUids && d.pods.Keys == c.pods.Keys + {k} && k !in c.pods
      && (forall l | l in c.pods :: d.pods[l] == c.pods[l])
      && LiveFor(d.pods[k], inst.uid) && Labelled(d.pods[k], inst.key.name, inst.uid)
      && ControllerUid(d.pods[k]) == Some(inst.uid) && k.namespace == inst.key.namespace && d.pods[k].key == k
  {
    GeneratedPod(t, inst, ans.suffix);
    var p := GeneratePod(t, inst, ans.suffix).value;
    var d := Step(t, c, AtCreate(inst), ans).0;
    LabelledMeans(p, inst.key.name, inst.uid);
    assert ControllerUid(d.pods[p.key]) == ControllerUid(p) && d.pods[p.key].labels == p.labels;
  }

  lemma CreateDisciplined(t: Template, c: Cluster, key: Key, inst: Service, ans: Answer)
    requires Disciplined(c) && Read(c, key, inst)
    ensures Disciplined(Step(t, c, AtCreate(inst), ans).0)
  {
    if CreateLands(t, c, inst, ans) {
      CreateAdds(t, c, inst, ans);
      var k := GeneratePod(t, inst, ans.suffix).value.key;
      var d := Step(t, c, AtCreate(inst), ans).0;
      LabelledMeans(d.pods[k], inst.key.name, inst.uid);
      assert PodDisciplined(d.serviceUids, d.pods[k]);
    }
  }

  lemma SoundStep(s: Sys, a: Action)
    requires SysSound(s) && Enabled(s, a)
    ensures SysSound(Apply(s, a))
  {
    ReadStep(s, a);
    if !a.Work? {
      OthersQuiet(s, a);
    } else {
      var pc := s.workers[a.key];
      assert ReadInv(s.cluster, a.key, pc);
      if pc.AtCreate? {
        CreateDisciplined(s.template, s.cluster, a.key, pc.inst, a.ans);
      } else {
        StepQuiet(s.template, s.cluster, a.key, pc, a.ans);
      }
    }
  }

  /** Only a Create that is carried out makes a live pod. */
  lemma NoCreateNoNewLive(s: Sys, a: Action)
    requires SysRead(s) && Enabled(s, a) && !Creates(s, a)
    ensures NoNewLive(s.cluster, Apply(s, a).cluster)
  {
    if !a.Work? {
      OthersQuiet(s, a);
    } else {
      var pc := s.workers[a.key];
      assert ReadInv(s.cluster, a.key, pc);
      if !pc.AtCreate? { StepQuiet(s.template, s.cluster, a.key, pc, a.ans); }
    }
  }

  // ----- the property, and what breaks it -----

  /** No Service uid has two active pods, whether they belong to it by label or by controller reference. */
  ghost predicate AtMostOnePod(c: Cluster) {
    forall uid, k, l | uid in c.serviceUids && k in c.pods && l in c.pods
      && IsPodActive(c.pods[k]) && IsPodActive(c.pods[l]) && Tracks(c.pods[k], uid) && Tracks(c.pods[l], uid) :: k == l
  }

  ghost predicate OneLive(c: Cluster) {
    forall uid, k, l | k in c.pods && l in c.pods && LiveFor(c.pods[k], uid) && LiveFor(c.pods[l], uid) :: k == l
  }

  ghost predicate HasLive(c: Cluster, uid: Uid) {
    exists k :: k in c.pods && LiveFor(c.pods[k], uid)
  }

  /** Among disciplined pods the label is all that counts. */
  lemma OneLiveIsOnePod(c: Cluster)
    requires Disciplined(c)
    ensures OneLive(c) <==> AtMostOnePod(c)
  {
    if OneLive(c) {
      forall uid, k, l | uid in c.serviceUids && k in c.pods && l in c.pods
        && IsPodActive(c.pods[k]) && IsPodActive(c.pods[l]) && Tracks(c.pods[k], uid) && Tracks(c.pods[l], uid)
        ensures k == l
      {
        assert LiveFor(c.pods[k], uid) && LiveFor(c.pods[l], uid);
      }
    } else {
      var uid, k, l :| k in c.pods && l in c.pods && LiveFor(c.pods[k], uid) && LiveFor(c.pods[l], uid) && k != l;
      assert Tracks(c.pods[k], uid) && Tracks(c.pods[l], uid);
      assert PodDisciplined(c.serviceUids, c.pods[k]);
    }
  }

  lemma CreateSecond(t: Template, c: Cluster, inst: Service, ans: Answer)
    requires OneLive(c) && CreateLands(t, c, inst, ans)
    ensures OneLive(Step(t, c, AtCreate(inst), ans).0) <==> !HasLive(c, inst.uid)
  {
    CreateAdds(t, c, inst, ans);
    var d := Step(t, c, AtCreate(inst), ans).0;
    var made := GeneratePod(t, inst, ans.suffix).value.key;
    if HasLive(c, inst.uid) {
      var k :| k in c.pods && LiveFor(c.pods[k], inst.uid);
      assert LiveFor(d.pods[k], inst.uid) && LiveFor(d.pods[made], inst.uid);
    } else {
      forall uid, k, l | k in d.pods && l in d.pods && LiveFor(d.pods[k], uid) && LiveFor(d.pods[l], uid)
        ensures k == l
      {
        assert k != made ==> k in c.pods && d.pods[k] == c.pods[k];
        assert l != made ==> l in c.pods && d.pods[l] == c.pods[l];
      }
    }
  }

  /** The one way to two pods: in every state of every run, whatever the others do, an action gives a Service
      a second active pod exactly when it is a Create that is carried out while the Service has a live one. */
  lemma SecondPodIff(s: Sys, a: Action)
    requires SysSound(s) && AtMostOnePod(s.cluster) && Enabled(s, a)
    ensures !AtMostOnePod(Apply(s, a).cluster) <==> Creates(s, a) && HasLive(s.cluster, s.workers[a.key].inst.uid)
  {
    var c, d := s.cluster, Apply(s, a).cluster;
    SoundStep(s, a);
    OneLiveIsOnePod(c);
    OneLiveIsOnePod(d);
    if Creates(s, a) {
      CreateSecond(s.template, c, s.workers[a.key].inst, a.ans);
    } else {
      NoCreateNoNewLive(s, a);
    }
  }

  // ----- what a worker knows about the live pods -----

  /** What the rest of the system may do behind the back of a worker that is busy with `uid`. */
  ghost predicate Rely(c: Cluster, d: Cluster, uid: Uid) {
    Onwards(c, d) && forall k | k in d.pods && LiveFor(d.pods[k], uid) :: k in c.pods && LiveFor(c.pods[k], uid)
  }

  /** Every live pod of `uid` is among `pods`. */
  ghost predicate Covered(c: Cluster, uid: Uid, pods: seq<Pod>) {
    forall k | k in c.pods && LiveFor(c.pods[k], uid) :: exists i :: 0 <= i < |pods| && pods[i].key == k
  }

  /** The claim will not pass over this one. */
  predicate Counted(inst: Service, p: Pod) {
    IsPodActive(p) && (ControllerUid(p) == Some(inst.uid) || (ControllerUid(p) == None && !inst.deleting))
  }

  ghost predicate ClaimCaught(c: Cluster, inst: Service, claim: Claim.State) {
    && claim.next <= |claim.objs| && Covered(c, inst.uid, claim.objs)
    && (forall i | 0 <= i < |claim.objs| :: Counted(inst, claim.objs[i]))
    && (claim.errs == 0 ==> |claim.claimed| == claim.next && forall i | 0 <= i < claim.next :: claim.claimed[i] == i)
  }

  /** No live pod has escaped the worker: each is among those it still has to claim, to count or to delete. */
  ghost predicate Caught(c: Cluster, pc: PC) {
    match pc
    case AtClaim(inst, _, claim) => ClaimCaught(c, inst, claim)
    case AtDeleteInactive(inst, _, _, claimed, _) => Covered(c, inst.uid, claimed)
    case AtDeleteClaimed(inst, claimed, next, _) => next <= |claimed| && Covered(c, inst.uid, claimed[next..])
    case AtDropFinalizer(inst, _) => Covered(c, inst.uid, [])
    case AtAddFinalizer(inst, claimed) => Covered(c, inst.uid, claimed)
    case AtCreate(inst) => Covered(c, inst.uid, [])
    case _ => true
  }

  predicate Busy(pc: PC) { !pc.AtGet? && !pc.Done? }

  /** A worker's knowledge survives whatever the others do. */
  lemma CaughtStable(c: Cluster, d: Cluster, pc: PC)
    requires Caught(c, pc) && (Busy(pc) ==> Rely(c, d, pc.inst.uid))
    ensures Caught(d, pc)
  {
  }

  /** Every action but a Create for `uid` itself is harmless to `uid`. */
  lemma HarmlessStep(s: Sys, a: Action, uid: Uid)
    requires SysRead(s) && Enabled(s, a) && !(Creates(s, a) && s.workers[a.key].inst.uid == uid)
    ensures Rely(s.cluster, Apply(s, a).cluster, uid)
  {
    ReadStep(s, a);
    if Creates(s, a) {
      var inst := s.workers[a.key].inst;
      CreateAdds(s.template, s.cluster, inst, a.ans);
    } else {
      NoCreateNoNewLive(s, a);
    }
  }

  /** Workers of different keys are busy with different uids. */
  lemma OthersRely(s: Sys, a: Action, key: Key)
    requires SysRead(s) && Enabled(s, a) && (a.Work? ==> a.key != key) && key in s.workers && Busy(s.workers[key])
    ensures Rely(s.cluster, Apply(s, a).cluster, s.workers[key].inst.uid)
  {
    assert ReadInv(s.cluster, key, s.workers[key]);
    if a.Work? { assert ReadInv(s.cluster, a.key, s.workers[a.key]); }
    HarmlessStep(s, a, s.workers[key].inst.uid);
  }

  // ----- a worker's own steps -----

  lemma ListCaught(c: Cluster, inst: Service, listing: seq<Pod>)
    requires WellFormed(c) && Disciplined(c) && IsListing(c, inst, listing) && Read(c, inst.key, inst)
    requires !exists k :: PassedOver(c, inst, k)
    ensures ClaimCaught(c, inst, Claim.Start(ManagerFor(inst), Split(listing, true)))
  {
    var objs := Split(listing, true);
    SplitMembers(listing, true);
    forall i | 0 <= i < |objs| ensures Counted(inst, objs[i]) {
      assert objs[i] in objs;
      var j :| 0 <= j < |listing| && listing[j] == objs[i];
      LabelledMeans(objs[i], inst.key.name, inst.uid);
      assert !PassedOver(c, inst, objs[i].key);
    }
    forall k | k in c.pods && LiveFor(c.pods[k], inst.uid)
      ensures exists i :: 0 <= i < |objs| && objs[i].key == k
    {
      LiveIsSelected(c, inst, k);
      var j :| 0 <= j < |listing| && listing[j] == c.pods[k];
      assert c.pods[k] in objs;
    }
  }

  lemma LiveIsSelected(c: Cluster, inst: Service, k: Key)
    requires Disciplined(c) && Read(c, inst.key, inst) && k in c.pods && LiveFor(c.pods[k], inst.uid)
    ensures Selected(c.pods[k], inst)
  {
    assert PodDisciplined(c.serviceUids, c.pods[k]);
    LabelledMeans(c.pods[k], inst.key.name, inst.uid);
  }

  lemma CoveredQuiet(c: Cluster, d: Cluster, uid: Uid, pods: seq<Pod>)
    requires Covered(c, uid, pods) && NoNewLive(c, d)
    ensures Covered(d, uid, pods)
  {
  }

  /** Counted pods are claimed one after the other, or the claim fails. */
  lemma ClaimStepCaught(c: Cluster, inst: Service, claim: Claim.State, ans: Answer)
    requires ClaimCaught(c, inst, claim) && !Claim.Finished(claim) && claim.mgr == ManagerFor(inst)
    requires Listed(c, inst, claim.objs[claim.next])
    ensures var r := Claim.Step(c, claim, ans); ClaimCaught(r.0, inst, r.1)
  {
    DecisionOnListed(inst, claim.objs[claim.next]);
    ClaimQuiet(c, inst, claim, ans);
    ClaimCarriesOn(c, claim, ans);
    CoveredQuiet(c, Claim.Step(c, claim, ans).0, inst.uid, claim.objs);
  }

  lemma ClaimDone(c: Cluster, inst: Service, claim: Claim.State)
    requires ClaimCaught(c, inst, claim) && Claim.Finished(claim) && claim.errs == 0
    ensures Covered(c, inst.uid, Pick(claim.objs, claim.claimed))
  {
    assert Pick(claim.objs, claim.claimed) == claim.objs;
  }

  /** A cleanup Delete leaves nothing live under its name, unless it is refused. */
  lemma DeleteUncovers(c: Cluster, inst: Service, claimed: seq<Pod>, next: nat, ans: Answer)
    requires WellFormed(c) && next < |claimed| && Covered(c, inst.uid, claimed[next..])
    requires claimed[next].key in c.pods && LiveFor(c.pods[claimed[next].key], inst.uid) ==> !ans.fault.Refused?
    ensures Covered(DeletePod(c, claimed[next].key, ans.fault, ans.gone).cluster, inst.uid, claimed[next + 1..])
  {
    var k := claimed[next].key;
    var d := DeletePod(c, k, ans.fault, ans.gone).cluster;
    DeleteQuiet(c, k, ans.fault, ans.gone);
    var left := claimed[next + 1..];
    forall l | l in d.pods && LiveFor(d.pods[l], inst.uid)
      ensures exists i :: 0 <= i < |left| && left[i].key == l
    {
      var i :| 0 <= i < |claimed[next..]| && claimed[next..][i].key == l;
      assert l != k;
      assert left[i - 1] == claimed[next..][i];
    }
  }

  lemma DeletesCaught(t: Template, c: Cluster, pc: PC, ans: Answer)
    requires WellFormed(c) && Caught(c, pc) && (pc.AtDeleteInactive? || pc.AtDeleteClaimed?)
    requires DeletesLive(c, pc) ==> !ans.fault.Refused?
    ensures var r := Step(t, c, pc, ans); Caught(r.0, r.1)
  {
    if pc.AtDeleteInactive? {
      DeletesQuiet(t, c, pc, ans);
      CoveredQuiet(c, Step(t, c, pc, ans).0, pc.inst.uid, pc.claimed);
      assert pc.claimed[0..] == pc.claimed;
    } else if pc.next < |pc.claimed| {
      DeleteUncovers(c, pc.inst, pc.claimed, pc.next, ans);
    } else {
      assert pc.claimed[pc.next..] == [];
    }
  }

  /** No live pod escapes as long as none is passed over at the listing and no Delete of one is refused. */
  lemma ClaimPhaseCaught(t: Template, c: Cluster, key: Key, pc: PC, ans: Answer)
    requires WellFormed(c) && Disciplined(c) && ReadInv(c, key, pc) && pc.AtClaim? && Caught(c, pc)
    ensures var r := Step(t, c, pc, ans); Caught(r.0, r.1)
  {
    var inst, claim := pc.inst, pc.claim;
    if !Claim.Finished(claim) {
      assert Listed(c, inst, claim.objs[claim.next]);
      ClaimStepCaught(c, inst, claim, ans);
    } else if claim.errs == 0 {
      ClaimDone(c, inst, claim);
    }
  }

  lemma AddPhaseCaught(t: Template, c: Cluster, key: Key, pc: PC, ans: Answer)
    requires WellFormed(c) && ReadInv(c, key, pc) && pc.AtAddFinalizer? && Caught(c, pc)
    ensures var r := Step(t, c, pc, ans); Caught(r.0, r.1)
  {
    StepQuiet(t, c, key, pc, ans);
    CoveredQuiet(c, Step(t, c, pc, ans).0, pc.inst.uid, pc.claimed);
  }

  lemma CaughtStep(t: Template, c: Cluster, key: Key, pc: PC, ans: Answer)
    requires WellFormed(c) && Disciplined(c) && ReadInv(c, key, pc) && InFlight(pc) && Admissible(c, pc, ans)
    requires Caught(c, pc) && (DeletesLive(c, pc) ==> !ans.fault.Refused?)
    requires pc.AtList? && ans.fault.Served? ==> !exists k :: PassedOver(c, pc.inst, k)
    ensures var r := Step(t, c, pc, ans); Caught(r.0, r.1)
  {
    match pc
    case AtList(inst) =>
      if ans.fault.Served? { ListCaught(c, inst, ans.listing); }
    case AtClaim(_, _, _) => ClaimPhaseCaught(t, c, key, pc, ans);
    case AtDeleteInactive(_, _, _, _, _) => DeletesCaught(t, c, pc, ans);
    case AtDeleteClaimed(_, _, _, _) => DeletesCaught(t, c, pc, ans);
    case AtAddFinalizer(_, _) => AddPhaseCaught(t, c, key, pc, ans);
    case _ =>
  }

  // ----- the system -----

  /** Whoever works for a Service that wants a pod has all its live pods in view. */
  ghost predicate WantedCaught(c: Cluster, pc: PC) {
    Busy(pc) && WantsPod(pc.inst) ==> Caught(c, pc)
  }

  ghost predicate SysInv(s: Sys) {
    && SysSound(s) && AtMostOnePod(s.cluster)
    && (forall key | key in s.workers :: WantedCaught(s.cluster, s.workers[key]))
  }

  lemma OwnWantedCaught(s: Sys, key: Key, ans: Answer)
    requires SysInv(s) && Enabled(s, Work(key, ans)) && Holds(ProvisionSeesLive, s, Work(key, ans))
    ensures var s' := Apply(s, Work(key, ans)); WantedCaught(s'.cluster, s'.workers[key])
  {
    var c, pc := s.cluster, s.workers[key];
    assert ReadInv(c, key, pc) && WantedCaught(c, pc);
    if Busy(pc) && WantsPod(pc.inst) { CaughtStep(s.template, c, key, pc, ans); }
  }

  lemma SysStep(s: Sys, a: Action)
    requires SysInv(s) && Enabled(s, a) && Holds(ProvisionSeesLive, s, a)
    ensures SysInv(Apply(s, a))
  {
    SoundStep(s, a);
    SecondPodIff(s, a);
    if Creates(s, a) {
      assert WantedCaught(s.cluster, s.workers[a.key]) && ReadInv(s.cluster, a.key, s.workers[a.key]);
    }
    var s' := Apply(s, a);
    forall key | key in s'.workers ensures WantedCaught(s'.cluster, s'.workers[key]) {
      if a.Work? && a.key == key {
        OwnWantedCaught(s, key, a.ans);
      } else if key in s.workers && s'.workers[key] == s.workers[key] {
        assert WantedCaught(s.cluster, s.workers[key]);
        if Busy(s.workers[key]) && WantsPod(s.workers[key].inst) {
          OthersRely(s, a, key);
          CaughtStable(s.cluster, s'.cluster, s.workers[key]);
        }
      }
    }
  }

  lemma {:induction false} SysInvAlways(s: Sys, run: seq<Action>, rules: set<Rule>)
    requires SysInv(s) && Runs(s, run) && ProvisionSeesLive in rules && Obeys(s, run, rules)
    ensures SysInv(After(s, run))
    decreases |run|
  {
    if run != [] {
      assert Holds(ProvisionSeesLive, s, run[0]);
      SysStep(s, run[0]);
      SysInvAlways(Apply(s, run[0]), run[1..], rules);
    }
  }

  lemma {:induction false} SoundAlways(s: Sys, run: seq<Action>)
    requires SysSound(s) && Runs(s, run)
    ensures SysSound(After(s, run))
    decreases |run|
  {
    if run != [] {
      SoundStep(s, run[0]);
      SoundAlways(Apply(s, run[0]), run[1..]);
    }
  }

  lemma InitInv(s: Sys)
    requires Init(s)
    ensures SysInv(s)
  {
    OneLiveIsOnePod(s.cluster);
  }

  /** Whatever users, the kubelet and other controllers do between the API calls, taking pods over and
      giving them back included, and whichever calls fail or lose their reply, no Service uid ever has two
      active pods, provided that no live pod is under a foreign controller when a worker lists the pods of a
      Service that wants one. */
  lemma AtMostOnePodAlways(s: Sys, run: seq<Action>)
    requires Init(s) && Runs(s, run) && Obeys(s, run, {ProvisionSeesLive})
    ensures AtMostOnePod(After(s, run).cluster)
  {
    InitInv(s);
    SysInvAlways(s, run, {ProvisionSeesLive});
  }
}
