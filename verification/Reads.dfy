/** What a worker may count on whatever the others do: the Service it has read is genuine, and so are the
    pods it has listed, which carry its labels. */
module Reads {
  import opened Objects
  import opened ApiServer
  import opened Reconcile
  import Claim

  ghost predicate Read(c: Cluster, key: Key, inst: Service) {
    inst.key == key && inst.uid in c.serviceUids && c.serviceUids[inst.uid] == key && GenuineService(c, inst)
  }

  ghost predicate Listed(c: Cluster, inst: Service, p: Pod) {
    Genuine(c, p) && Selected(p, inst)
  }

  ghost predicate ReadInv(c: Cluster, key: Key, pc: PC) {
    match pc
    case AtGet(k) => k == key
    case Done(_) => true
    case AtClaim(inst, _, claim) =>
      && Read(c, key, inst) && claim.mgr == ManagerFor(inst)
      && (forall i | 0 <= i < |claim.objs| :: Listed(c, inst, claim.objs[i]))
    case AtList(inst) => Read(c, key, inst)
    case AtDeleteInactive(inst, _, _, _, _) => Read(c, key, inst)
    case AtDeleteClaimed(inst, _, _, _) => Read(c, key, inst) && !WantsPod(inst)
    case AtDropFinalizer(inst, _) => Read(c, key, inst) && !WantsPod(inst)
    case AtAddFinalizer(inst, _) => Read(c, key, inst) && WantsPod(inst)
    case AtCreate(inst) => Read(c, key, inst) && WantsPod(inst)
  }

  ghost predicate SysRead(s: Sys) {
    WellFormed(s.cluster) && forall key | key in s.workers :: ReadInv(s.cluster, key, s.workers[key])
  }

  lemma ReadStable(c: Cluster, d: Cluster, key: Key, pc: PC)
    requires ReadInv(c, key, pc) && Onwards(c, d)
    ensures ReadInv(d, key, pc)
  {
    if pc.AtClaim? {
      forall i | 0 <= i < |pc.claim.objs| ensures Listed(d, pc.inst, pc.claim.objs[i]) {
        assert Listed(c, pc.inst, pc.claim.objs[i]);
        GenuineLater(c, d, pc.claim.objs[i]);
      }
    }
  }

  // ----- a worker's own steps -----

  /** The store after a step, as far as reads are concerned. */
  ghost predicate Sound(c: Cluster, d: Cluster) {
    WellFormed(d) && Onwards(c, d)
  }

  lemma DeleteSound(c: Cluster, k: Key, fault: Fault, gone: bool)
    requires WellFormed(c)
    ensures Sound(c, DeletePod(c, k, fault, gone).cluster)
  {
    DeletePodWellFormed(c, k, fault, gone);
  }

  /** A write from a genuine read of a pod. */
  lemma WriteSound(c: Cluster, p: Pod, q: Pod, fault: Fault)
    requires WellFormed(c) && Genuine(c, p) && q.key == p.key && q.version == p.version && q.uid == p.uid
    ensures Sound(c, UpdatePod(c, q, fault).cluster)
  {
    NoLostUpdate(c, p, q, fault);
    if UpdatePod(c, q, fault).cluster != c {
      StorePodWellFormed(c, q);
    }
  }

  lemma UpdateServiceSound(c: Cluster, inst: Service, w: Service, fault: Fault)
    requires WellFormed(c) && GenuineService(c, inst) && w.key == inst.key && w.version == inst.version
    requires w.uid == inst.uid
    ensures Sound(c, UpdateService(c, w, fault).cluster)
  {
    UpdateServiceWellFormed(c, w, fault);
  }

  lemma CreateSound(c: Cluster, p: Pod, uid: Uid, fault: Fault)
    requires WellFormed(c) && uid !in c.podUids
    ensures Sound(c, CreatePod(c, p, uid, fault).cluster)
  {
    CreateWellFormed(c, p, uid, fault);
  }

  /** A claim writes back what was read, but for the owner references. */
  lemma ClaimSound(c: Cluster, claim: Claim.State, ans: Answer)
    requires WellFormed(c) && !Claim.Finished(claim) && Genuine(c, claim.objs[claim.next])
    ensures Sound(c, Claim.Step(c, claim, ans).0)
  {
    var call := Claim.NextCall(claim);
    if call.Write? {
      WriteSound(c, claim.objs[claim.next], call.written, ans.fault);
    } else {
      assert Claim.Step(c, claim, ans).0 == c;
    }
  }

  lemma StepSound(t: Template, c: Cluster, key: Key, pc: PC, ans: Answer)
    requires WellFormed(c) && ReadInv(c, key, pc) && InFlight(pc) && Admissible(c, pc, ans)
    ensures Sound(c, Step(t, c, pc, ans).0)
  {
    match pc
    case AtClaim(inst, _, claim) =>
      if !Claim.Finished(claim) {
        assert Listed(c, inst, claim.objs[claim.next]);
        ClaimSound(c, claim, ans);
      }
    case AtDeleteInactive(_, inactive, next, _, _) =>
      if next < |inactive| { DeleteSound(c, inactive[next].key, ans.fault, ans.gone); }
    case AtDeleteClaimed(_, claimed, next, _) =>
      if next < |claimed| { DeleteSound(c, claimed[next].key, ans.fault, ans.gone); }
    case AtDropFinalizer(inst, _) => UpdateServiceSound(c, inst, Dropped(inst), ans.fault);
    case AtAddFinalizer(inst, _) => UpdateServiceSound(c, inst, Added(inst), ans.fault);
    case AtCreate(inst) =>
      var p := GeneratePod(t, inst, ans.suffix);
      if p.Some? { CreateSound(c, p.value, ans.uid, ans.fault); }
    case _ =>
  }

  lemma ListReads(c: Cluster, inst: Service, listing: seq<Pod>)
    requires WellFormed(c) && IsListing(c, inst, listing)
    ensures forall i | 0 <= i < |Split(listing, true)| :: Listed(c, inst, Split(listing, true)[i])
  {
    var objs := Split(listing, true);
    SplitMembers(listing, true);
    forall i | 0 <= i < |objs| ensures Listed(c, inst, objs[i]) {
      assert objs[i] in objs;
      var j :| 0 <= j < |listing| && listing[j] == objs[i];
    }
  }

  lemma ClaimCarriesOn(c: Cluster, claim: Claim.State, ans: Answer)
    requires !Claim.Finished(claim)
    ensures var next := Claim.Step(c, claim, ans).1; next.objs == claim.objs && next.mgr == claim.mgr
  {
  }

  /** The step's next position is as well informed, seen from the store before it. */
  lemma NextReads(t: Template, c: Cluster, key: Key, pc: PC, ans: Answer)
    requires WellFormed(c) && ReadInv(c, key, pc) && InFlight(pc) && Admissible(c, pc, ans)
    ensures ReadInv(c, key, Step(t, c, pc, ans).1)
  {
    match pc
    case AtList(inst) =>
      if ans.fault.Served? { ListReads(c, inst, ans.listing); }
    case AtClaim(_, _, claim) =>
      if !Claim.Finished(claim) { ClaimCarriesOn(c, claim, ans); }
    case _ =>
  }

  lemma OwnRead(t: Template, c: Cluster, key: Key, pc: PC, ans: Answer)
    requires WellFormed(c) && ReadInv(c, key, pc) && InFlight(pc) && Admissible(c, pc, ans)
    ensures var r := Step(t, c, pc, ans); Sound(c, r.0) && ReadInv(r.0, key, r.1)
  {
    StepSound(t, c, key, pc, ans);
    NextReads(t, c, key, pc, ans);
    var r := Step(t, c, pc, ans);
    ReadStable(c, r.0, key, r.1);
  }

  // ----- everybody else's -----

  lemma NewPodSound(c: Cluster, p: Pod)
    requires WellFormed(c) && p.key !in c.pods && p.uid !in c.podUids
    ensures Sound(c, StorePod(c, p).(podUids := c.podUids + {p.uid}))
  {
  }

  lemma StoreServiceSound(c: Cluster, s: Service)
    requires WellFormed(c) && s.uid in c.serviceUids && c.serviceUids[s.uid] == s.key
    ensures Sound(c, StoreService(c, s))
  {
  }

  lemma NewServiceSound(c: Cluster, s: Service)
    requires WellFormed(c) && s.key !in c.services && s.uid !in c.serviceUids && !s.deleting
    ensures Sound(c, StoreService(c, s).(serviceUids := c.serviceUids[s.uid := s.key]))
  {
  }

  lemma OthersSound(s: Sys, a: Action)
    requires WellFormed(s.cluster) && Enabled(s, a) && !a.Work?
    ensures Sound(s.cluster, Apply(s, a).cluster)
  {
    var c := s.cluster;
    match a
    case Begin(_) =>
    case NewService(svc) => NewServiceSound(c, svc);
    case EditService(svc) => StoreServiceSound(c, svc);
    case DropService(key) =>
      if !c.services[key].deleting { StoreServiceSound(c, c.services[key].(key := key, deleting := true)); }
    case NewPod(pod) => NewPodSound(c, pod);
    case EditPod(pod) => StorePodWellFormed(c, pod);
    case DropPod(key, gone) => DeleteSound(c, key, Served, gone);
    case Vanish(key) =>
  }

  lemma ReadStep(s: Sys, a: Action)
    requires SysRead(s) && Enabled(s, a)
    ensures SysRead(Apply(s, a)) && Onwards(s.cluster, Apply(s, a).cluster)
  {
    var s' := Apply(s, a);
    if a.Work? {
      OwnRead(s.template, s.cluster, a.key, s.workers[a.key], a.ans);
    } else {
      OthersSound(s, a);
    }
    forall key | key in s'.workers ensures ReadInv(s'.cluster, key, s'.workers[key]) {
      if key in s.workers && s'.workers[key] == s.workers[key] && (a.Work? ==> a.key != key) {
        ReadStable(s.cluster, s'.cluster, key, s.workers[key]);
      }
    }
  }
}
