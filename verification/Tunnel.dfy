/** What a user of a Service gets to see: when a Service has a tunnel, and what the pod that runs it is made
    of.  Everything here is stated on the fields of the stored objects. */
module Tunnel {
  import opened Objects
  import opened ApiServer
  import opened Reconcile
  import opened Outcome
  import opened Reads
  import opened Convergence
  import opened Safety
  import opened Events

  // ----- who has a tunnel -----

  /** A load balancer that names its frp server and is not on its way out. */
  predicate AsksForTunnel(s: Service) {
    && s.serviceType == "LoadBalancer" && !s.deleting
    && "service.beta.kubernetes.io/frp-server-name" in s.annotations
    && s.annotations["service.beta.kubernetes.io/frp-server-name"] != ""
  }

  /** A running pod of the Service: in its namespace, labelled for it and controlled by it. */
  ghost predicate RunsFor(p: Pod, s: Service) {
    && p.key.namespace == s.key.namespace
    && "gofrp.io/service-name" in p.labels && p.labels["gofrp.io/service-name"] == s.key.name
    && "gofrp.io/controller-uid" in p.labels && p.labels["gofrp.io/controller-uid"] == s.uid
    && p.phase != Succeeded && p.phase != Failed && !p.deleting
    && ControlledBy(p.ownerRefs, s.uid)
  }

  lemma AsksIsWants(s: Service)
    ensures AsksForTunnel(s) <==> WantsPod(s)
  {
  }

  lemma RunsIsOwned(p: Pod, s: Service)
    ensures RunsFor(p, s) <==> Owned(s, p)
  {
    LabelledMeans(p, s.key.name, s.uid);
    ControlledMeans(p.ownerRefs, s.uid);
  }

  /** The stored Service carries the finalizer and a pod runs for it, or it does not and none does. */
  ghost predicate HasTunnel(c: Cluster, s: Service) {
    && s.key in c.services && c.services[s.key].uid == s.uid
    && "finalizer.gofrp.io/tracking" in c.services[s.key].finalizers
    && exists k :: k in c.pods && RunsFor(c.pods[k], s)
  }

  ghost predicate HasNoTunnel(c: Cluster, s: Service) {
    && (s.key in c.services ==> "finalizer.gofrp.io/tracking" !in c.services[s.key].finalizers)
    && forall k | k in c.pods :: !RunsFor(c.pods[k], s)
  }

  /** The Service is as it was but for the version and for our finalizer, which is appended, or taken out, or
      where it was. */
  predicate OnlyFinalizerMoved(s: Service, r: Service) {
    && r == s.(version := r.version, finalizers := r.finalizers)
    && (r.finalizers == s.finalizers || r.finalizers == s.finalizers + ["finalizer.gofrp.io/tracking"]
        || r.finalizers == Without(s.finalizers, "finalizer.gofrp.io/tracking"))
  }

  /** For every pattern of failures: an undisturbed Reconcile that returns nil leaves a Service that asks for
      a tunnel with one, and any other Service without, and changes nothing else about it. */
  lemma SuccessDecidesTunnel(t: Template, c: Cluster, key: Key, answers: seq<Answer>)
    requires WellFormed(c) && key in c.services && Solo(t, c, AtGet(key), answers)
    requires SoloEnd(t, c, AtGet(key), answers).1 == Done(false)
    ensures var s, d := c.services[key], SoloEnd(t, c, AtGet(key), answers).0;
      && (if AsksForTunnel(s) then HasTunnel(d, s) else HasNoTunnel(d, s))
      && (key in d.services ==> OnlyFinalizerMoved(s, d.services[key]))
  {
    var s, d := c.services[key], SoloEnd(t, c, AtGet(key), answers).0;
    AsksIsWants(s);
    HonestSuccess(t, c, key, answers);
    if WantsPod(s) {
      GoalOwns(c, s, d);
      var k :| k in d.pods && Owned(s, d.pods[k]);
      RunsIsOwned(d.pods[k], s);
    } else {
      forall k | k in d.pods ensures !RunsFor(d.pods[k], s) {
        GoalPods(c, s, d, k);
        RunsIsOwned(d.pods[k], s);
      }
    }
  }

  /** And so does every one that has come to its end without a failing call. */
  lemma TunnelIffAsked(t: Template, c: Cluster, key: Key, answers: seq<Answer>)
    requires WellFormed(c) && key in c.services
    requires Solo(t, c, AtGet(key), answers) && AllLucky(t, c, AtGet(key), answers)
    requires SoloEnd(t, c, AtGet(key), answers).1.Done?
    ensures var s, d := c.services[key], SoloEnd(t, c, AtGet(key), answers).0;
      && (AsksForTunnel(s) <==> HasTunnel(d, s))
      && (!AsksForTunnel(s) <==> HasNoTunnel(d, s))
  {
    Converges(t, c, key, answers);
    SuccessDecidesTunnel(t, c, key, answers);
  }

  lemma {:induction false} SoloUids(t: Template, c: Cluster, pc: PC, answers: seq<Answer>)
    requires Solo(t, c, pc, answers)
    ensures SoloEnd(t, c, pc, answers).0.serviceUids == c.serviceUids
    decreases |answers|
  {
    if answers != [] {
      var r := Step(t, c, pc, answers[0]);
      SoloUids(t, r.0, r.1, answers[1..]);
    }
  }

  lemma SoloDisciplined(t: Template, c: Cluster, key: Key, answers: seq<Answer>)
    requires WellFormed(c) && Disciplined(c) && Solo(t, c, AtGet(key), answers)
    ensures Disciplined(SoloEnd(t, c, AtGet(key), answers).0)
  {
    var s := Alone(t, c, key, AtGet(key));
    AloneSound(t, c, key, AtGet(key));
    SoloRuns(s, key, answers);
    SoundAlways(s, Works(key, answers));
  }

  /** From any state that a run can reach, a Service that does not ask for a tunnel is left without any active
      pod that it controls, whatever its labels. */
  lemma UnaskedControlsNothing(t: Template, c: Cluster, key: Key, answers: seq<Answer>, k: Key)
    requires WellFormed(c) && Disciplined(c) && key in c.services && !AsksForTunnel(c.services[key])
    requires Solo(t, c, AtGet(key), answers) && SoloEnd(t, c, AtGet(key), answers).1 == Done(false)
    ensures var d := SoloEnd(t, c, AtGet(key), answers).0;
      k in d.pods && ControlledBy(d.pods[k].ownerRefs, c.services[key].uid) ==>
        d.pods[k].phase == Succeeded || d.pods[k].phase == Failed || d.pods[k].deleting
  {
    var s, d := c.services[key], SoloEnd(t, c, AtGet(key), answers).0;
    if k in d.pods && ControlledBy(d.pods[k].ownerRefs, s.uid) {
      SuccessDecidesTunnel(t, c, key, answers);
      SoloUids(t, c, AtGet(key), answers);
      SoloDisciplined(t, c, key, answers);
      SoloWellFormed(t, key, c, AtGet(key), answers);
      ControlledMeans(d.pods[k].ownerRefs, s.uid);
      assert PodDisciplined(d.serviceUids, d.pods[k]);
      assert !RunsFor(d.pods[k], s);
    }
  }

  // ----- what the pod is made of -----

  /** The name: template or default, a dash and the Service, cut to 58 characters, and the random suffix. */
  function MadeName(t: Template, s: Service, suffix: string): string
    requires t.Template?
  {
    var base := (if t.name == "" then "frp-client" else t.name) + "-" + s.key.name;
    (if |base| <= 58 then base else base[..58]) + suffix
  }

  function MadeKey(t: Template, s: Service, suffix: string): Key
    requires t.Template?
  {
    Key(s.key.namespace, MadeName(t, s, suffix))
  }

  ghost predicate SameLabelsBut(a: map<string, string>, b: map<string, string>, k: string, l: string) {
    forall x | x != k && x != l :: (x in a <==> x in b) && (x in a ==> a[x] == b[x])
  }

  /** What a pod owes to the template and to the Service. */
  ghost predicate MadeFrom(t: Template, s: Service, suffix: string, p: Pod) {
    && t.Template? && p.key == MadeKey(t, s, suffix) && p.content == t.content && p.finalizers == t.finalizers
    && "gofrp.io/service-name" in p.labels && p.labels["gofrp.io/service-name"] == s.key.name
    && "gofrp.io/controller-uid" in p.labels && p.labels["gofrp.io/controller-uid"] == s.uid
    && SameLabelsBut(p.labels, t.labels, "gofrp.io/service-name", "gofrp.io/controller-uid")
    && Placed(t.ownerRefs, OwnerRef("Service", s.key.name, s.uid, true), p.ownerRefs)
    && p.phase.Pending? && !p.deleting
  }

  /** The template parses, and a controller that it names is this very Service. */
  predicate FreeTemplate(t: Template, s: Service) {
    t.Template? && forall i | 0 <= i < |t.ownerRefs| && FirstController(t.ownerRefs, i) ::
      RefersTo(t.ownerRefs[i], "Service", s.key.name)
  }

  lemma FreeIsUsable(t: Template, s: Service)
    ensures FreeTemplate(t, s) <==> UsableTemplate(t, s)
  {
    if t.Template? {
      if ControllerOf(t.ownerRefs).Some? {
        var i := ControllerIsFirst(t.ownerRefs);
        FirstIsController(t.ownerRefs, i);
      }
      forall i | 0 <= i < |t.ownerRefs| && FirstController(t.ownerRefs, i)
        ensures ControllerOf(t.ownerRefs) == Some(t.ownerRefs[i])
      {
        FirstIsController(t.ownerRefs, i);
      }
    }
  }

  lemma GeneratedIsMade(t: Template, s: Service, suffix: string, version: nat, uid: Uid)
    requires GeneratePod(t, s, suffix).Some?
    ensures MadeFrom(t, s, suffix, GeneratePod(t, s, suffix).value.(version := version, uid := uid))
  {
    var p := GeneratePod(t, s, suffix).value;
    var i := UpsertPlaces(t.ownerRefs, ControllerRef(OwnerOf(s)));
    assert |LABEL_SERVICE_NAME| == 21 && |LABEL_CONTROLLER_UID| == 23;
    assert p.ownerRefs == PutAt(t.ownerRefs, i, ControllerRef(OwnerOf(s)));
  }

  /** A Create adds a pod exactly when the template is usable, the name is free and the call is not refused.
      It is then all that changes, and it is made of the template, the Service and the random suffix. */
  lemma CreateMakes(t: Template, c: Cluster, inst: Service, ans: Answer)
    ensures var d := Step(t, c, AtCreate(inst), ans).0;
      if FreeTemplate(t, inst) && MadeKey(t, inst, ans.suffix) !in c.pods && !ans.fault.Refused? then
        var k := MadeKey(t, inst, ans.suffix);
        && k in d.pods && MadeFrom(t, inst, ans.suffix, d.pods[k]) && d.pods[k].uid == ans.uid
        && d.pods == c.pods[k := d.pods[k]] && d.services == c.services
      else d == c
  {
    FreeIsUsable(t, inst);
    GeneratedPod(t, inst, ans.suffix);
    if UsableTemplate(t, inst) {
      GeneratedIsMade(t, inst, ans.suffix, c.revision + 1, ans.uid);
    }
  }

  /** Nothing but a Create gives out a pod uid. */
  lemma OthersMakeNone(t: Template, c: Cluster, pc: PC, ans: Answer)
    requires InFlight(pc) && !pc.AtCreate?
    ensures Step(t, c, pc, ans).0.podUids == c.podUids
  {
  }

  lemma MadeLast(t: Template, c: Cluster, pc: PC, answers: seq<Answer>, k: Key)
    requires WellFormed(c) && pc.AtCreate? && answers != [] && Solo(t, c, pc, answers)
    requires var d := SoloEnd(t, c, pc, answers).0; k in d.pods && d.pods[k].uid !in c.podUids
    ensures MadeFrom(t, pc.inst, answers[0].suffix, SoloEnd(t, c, pc, answers).0.pods[k])
  {
    CreateMakes(t, c, pc.inst, answers[0]);
    assert answers[1..] == [];
  }

  lemma {:induction false} MadeOnTheWay(t: Template, c0: Cluster, key: Key, c: Cluster, pc: PC, answers: seq<Answer>,
                                        k: Key)
    returns (suffix: string)
    requires WellFormed(c0) && key in c0.services && WellFormed(c) && ReadInv(c, key, pc)
    requires Progress(c0, key, c, pc) && Solo(t, c, pc, answers)
    requires var d := SoloEnd(t, c, pc, answers).0; k in d.pods && d.pods[k].uid !in c.podUids
    ensures MadeFrom(t, c0.services[key], suffix, SoloEnd(t, c, pc, answers).0.pods[k])
    decreases |answers|
  {
    var r := Step(t, c, pc, answers[0]);
    if pc.AtCreate? {
      suffix := answers[0].suffix;
      MadeLast(t, c, pc, answers, k);
    } else {
      OthersMakeNone(t, c, pc, answers[0]);
      OwnRead(t, c, key, pc, answers[0]);
      StepProgress(t, c0, key, c, pc, answers[0]);
      suffix := MadeOnTheWay(t, c0, key, r.0, r.1, answers[1..], k);
    }
  }

  /** Every pod that an undisturbed Reconcile has made, at any point and whichever calls failed, is made of the
      template and of the Service as it was stored at the start, for some random suffix. */
  lemma NewPodsMadeFromTemplate(t: Template, c: Cluster, key: Key, answers: seq<Answer>, k: Key)
    returns (suffix: string)
    requires WellFormed(c) && key in c.services && Solo(t, c, AtGet(key), answers)
    requires var d := SoloEnd(t, c, AtGet(key), answers).0; k in d.pods && d.pods[k].uid !in c.podUids
    ensures MadeFrom(t, c.services[key], suffix, SoloEnd(t, c, AtGet(key), answers).0.pods[k])
  {
    suffix := MadeOnTheWay(t, c, key, c, AtGet(key), answers, k);
  }

  /** In every run, whatever else goes on in it: a worker's step stores a pod with a new uid only by a Create,
      and then one that is made of the template and of the Service it has read. */
  lemma WorkersMakeFromTemplate(s: Sys, run: seq<Action>, key: Key, ans: Answer, k: Key)
    requires Init(s) && Runs(s, run) && Enabled(After(s, run), Work(key, ans))
    requires k in Apply(After(s, run), Work(key, ans)).cluster.pods
    requires Apply(After(s, run), Work(key, ans)).cluster.pods[k].uid !in After(s, run).cluster.podUids
    ensures After(s, run).workers[key].AtCreate?
    ensures MadeFrom(s.template, After(s, run).workers[key].inst, ans.suffix,
                     Apply(After(s, run), Work(key, ans)).cluster.pods[k])
  {
    InitInv(s);
    SoundAlways(s, run);
    TemplateStays(s, run);
    var now := After(s, run);
    var c, pc := now.cluster, now.workers[key];
    assert ReadInv(c, key, pc);
    OwnRead(now.template, c, key, pc, ans);
    if pc.AtCreate? {
      CreateMakes(now.template, c, pc.inst, ans);
    } else {
      OthersMakeNone(now.template, c, pc, ans);
    }
  }

  lemma {:induction false} TemplateStays(s: Sys, run: seq<Action>)
    requires Runs(s, run)
    ensures After(s, run).template == s.template
    decreases |run|
  {
    if run != [] {
      TemplateStays(Apply(s, run[0]), run[1..]);
    }
  }
}
