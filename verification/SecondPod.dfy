/** Exactly when a Reconcile that nobody disturbs gives its Service a second pod. */
module SecondPod {
  import opened Objects
  import opened ApiServer
  import opened Reconcile
  import opened Reads
  import opened Safety
  import opened Outcome
  import opened Events

  lemma LiveStays(c0: Cluster, inst: Service, c: Cluster, k: Key)
    requires PodsSettled(c0, inst, c) && NeedsPod(c0, inst) && k in c0.pods && LiveFor(c0.pods[k], inst.uid)
    ensures k in c.pods && c.pods[k] == c0.pods[k]
  {
    assert !Claimable(inst, c0.pods[k]) && !Doomed(inst, c0.pods[k]);
    assert At(c, k) == Some(c0.pods[k]);
  }

  lemma LiveWasLive(c0: Cluster, inst: Service, c: Cluster, k: Key)
    requires PodsSettled(c0, inst, c) && SamePods(c0, c) && k in c.pods && LiveFor(c.pods[k], inst.uid)
    requires WellFormed(c0) && Disciplined(c0) && Read(c0, inst.key, inst)
    ensures LiveFor(c0.pods[k], inst.uid)
  {
    var p := c0.pods[k];
    assert At(c, k) == Some(c.pods[k]);
    assert PodDisciplined(c0.serviceUids, p);
    LabelledMeans(p, inst.key.name, inst.uid);
    assert !IsPodActive(p) ==> Doomed(inst, p);
  }

  /** When a Reconcile has decided to make a pod, the live pods it has overlooked are those it passed over. */
  lemma LiveAtCreate(c0: Cluster, key: Key, c: Cluster, inst: Service)
    requires WellFormed(c0) && Disciplined(c0) && Progress(c0, key, c, AtCreate(inst))
    ensures HasLive(c, inst.uid) <==> exists k :: PassedOver(c0, inst, k)
  {
    if HasLive(c, inst.uid) {
      var k :| k in c.pods && LiveFor(c.pods[k], inst.uid);
      LiveWasLive(c0, inst, c, k);
      LiveIsSelected(c0, inst, k);
      assert !Claimable(inst, c0.pods[k]);
      assert PassedOver(c0, inst, k);
    }
    if k :| PassedOver(c0, inst, k) {
      LiveStays(c0, inst, c, k);
      assert LiveFor(c.pods[k], inst.uid);
    }
  }

  lemma CreateStepIff(t: Template, c0: Cluster, key: Key, c: Cluster, inst: Service, ans: Answer)
    requires WellFormed(c0) && Disciplined(c0) && Progress(c0, key, c, AtCreate(inst))
    requires SysSound(Alone(t, c, key, AtCreate(inst))) && AtMostOnePod(c) && Admissible(c, AtCreate(inst), ans)
    ensures !AtMostOnePod(Step(t, c, AtCreate(inst), ans).0) <==>
      CreateLands(t, c, inst, ans) && exists k :: PassedOver(c0, inst, k)
  {
    AloneStep(t, c, key, AtCreate(inst), ans);
    LiveAtCreate(c0, key, c, inst);
    SecondPodIff(Alone(t, c, key, AtCreate(inst)), Work(key, ans));
  }

  /** The last step of an execution that ends in a Create. */
  lemma AtCreateIff(t: Template, c0: Cluster, key: Key, c: Cluster, pc: PC, answers: seq<Answer>)
    requires pc.AtCreate? && WellFormed(c0) && Disciplined(c0) && Progress(c0, key, c, pc)
    requires SysSound(Alone(t, c, key, pc)) && AtMostOnePod(c) && Solo(t, c, pc, answers)
    ensures !AtMostOnePod(SoloEnd(t, c, pc, answers).0) <==>
      Happens(t, c, pc, answers, CreateCarriedOut) && exists k :: PassedOver(c0, pc.inst, k)
  {
    if answers != [] {
      CreateStepIff(t, c0, key, c, pc.inst, answers[0]);
      assert answers[1..] == [];
    }
  }

  /** Every other step keeps what is assumed of the execution. */
  lemma SecondStep(t: Template, c0: Cluster, key: Key, c: Cluster, pc: PC, ans: Answer)
    requires WellFormed(c0) && Progress(c0, key, c, pc) && InFlight(pc) && !pc.AtCreate?
    requires SysSound(Alone(t, c, key, pc)) && AtMostOnePod(c) && Admissible(c, pc, ans)
    ensures var r := Step(t, c, pc, ans);
      Progress(c0, key, r.0, r.1) && SysSound(Alone(t, r.0, key, r.1)) && AtMostOnePod(r.0)
  {
    var s, a := Alone(t, c, key, pc), Work(key, ans);
    AloneStep(t, c, key, pc, ans);
    SoundStep(s, a);
    SecondPodIff(s, a);
    StepProgress(t, c0, key, c, pc, ans);
  }

  lemma {:induction false} SecondFrom(t: Template, c0: Cluster, key: Key, c: Cluster, pc: PC, answers: seq<Answer>)
    requires WellFormed(c0) && Disciplined(c0) && key in c0.services && Progress(c0, key, c, pc)
    requires SysSound(Alone(t, c, key, pc)) && AtMostOnePod(c) && Solo(t, c, pc, answers)
    ensures !AtMostOnePod(SoloEnd(t, c, pc, answers).0) <==>
      Happens(t, c, pc, answers, CreateCarriedOut) && exists k :: PassedOver(c0, c0.services[key], k)
    decreases |answers|
  {
    if pc.AtCreate? {
      AtCreateIff(t, c0, key, c, pc, answers);
    } else if answers != [] {
      var r := Step(t, c, pc, answers[0]);
      SecondStep(t, c0, key, c, pc, answers[0]);
      SecondFrom(t, c0, key, r.0, r.1, answers[1..]);
    }
  }

  /** From a state with at most one pod per Service, a Reconcile that nobody disturbs ends, or stands at any
      point, with two active pods for one Service exactly when its Create was carried out although a live pod
      of the Service was under a foreign controller at the start. */
  lemma SecondPodMadeIff(t: Template, c0: Cluster, key: Key, answers: seq<Answer>)
    requires WellFormed(c0) && Disciplined(c0) && AtMostOnePod(c0) && key in c0.services
    requires Solo(t, c0, AtGet(key), answers)
    ensures !AtMostOnePod(SoloEnd(t, c0, AtGet(key), answers).0) <==>
      && Happens(t, c0, AtGet(key), answers, CreateCarriedOut)
      && exists k :: PassedOver(c0, c0.services[key], k)
  {
    AloneSound(t, c0, key, AtGet(key));
    SecondFrom(t, c0, key, c0, AtGet(key), answers);
  }
}
