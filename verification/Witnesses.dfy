/** Runs from an empty cluster that show what goes wrong without each rule. */
module Witnesses {
  import opened Objects
  import opened ApiServer
  import opened Reconcile
  import opened Reads
  import opened Safety
  import opened Finalizer
  import opened Scenario
  import Claim

  // ----- the finalizer guard -----

  /** The Service is gone and its pod lives on. */
  ghost predicate PodWithoutService(c: Cluster) {
    !Guarded(c) && c.services == map[] && exists k :: k in c.pods && LiveFor(c.pods[k], SVC.uid)
  }

  const DYING := STORED.(deleting := true)

  /** The Service is asked to go, and the worker has read it. */
  lemma AskedToGo(run: seq<Action>, c: Cluster, rules: set<Rule>)
    returns (longer: seq<Action>, d: Cluster, inst: Service)
    requires Reached(run, c, Done(false), rules) && c.services == map[KEY := STORED]
    ensures inst == DYING.(version := c.revision + 1)
    ensures d == c.(services := map[KEY := inst], revision := c.revision + 1)
    ensures Reached(longer, d, AtList(inst), rules)
  {
    longer := Intervene(run, c, Done(false), rules, DropService(KEY));
    inst := DYING.(version := c.revision + 1);
    d := c.(services := map[KEY := inst], revision := c.revision + 1);
    assert Apply(With(c, Done(false)), DropService(KEY)).cluster.services == d.services;
    longer := Restart(longer, d, false, rules);
  }

  /** The finalizer is dropped and the Service goes with it. */
  lemma LetGo(run: seq<Action>, d: Cluster, inst: Service, errs: nat, k: Key, rules: set<Rule>)
    returns (longer: seq<Action>)
    requires Reached(run, d, AtDropFinalizer(inst, errs), rules) && d.services == map[KEY := inst]
    requires inst.key == KEY && inst.uid == SVC.uid && inst.deleting && inst.finalizers == [FINALIZER_NAME]
    requires k in d.pods && LiveFor(d.pods[k], SVC.uid)
    ensures Runs(START, longer) && Obeys(START, longer, rules) && PodWithoutService(After(START, longer).cluster)
  {
    longer := AdvancePlain(run, d, AtDropFinalizer(inst, errs), rules, Told(Served));
    assert Dropped(inst).finalizers == [];
    var end := UpdateService(d, Dropped(inst), Served).cluster;
    assert end.services == map[];
    assert LiveFor(end.pods[k], SVC.uid) && !Carries(end, SVC.uid);
  }

  lemma ClaimOwn(run: seq<Action>, d: Cluster, inst: Service, pod: Pod, rules: set<Rule>) returns (longer: seq<Action>)
    requires Reached(run, d, AtClaim(inst, [], Claim.Start(ManagerFor(inst), [pod])), rules)
    requires Selected(pod, inst) && IsPodActive(pod) && ControllerUid(pod) == Some(inst.uid) && inst.deleting
    ensures Reached(longer, d, AtDeleteClaimed(inst, [pod], 0, 0), rules)
  {
    var claim := Claim.Start(ManagerFor(inst), [pod]);
    DecisionOnListed(inst, pod);
    longer := AdvancePlain(run, d, AtClaim(inst, [], claim), rules, Told(Served));
    var claim' := Claim.Take(claim);
    assert claim'.claimed == [0];
    longer := AdvancePlain(longer, d, AtClaim(inst, [], claim'), rules, Told(Served));
    assert Pick([pod], [0]) == [pod];
    longer := AdvancePlain(longer, d, AtDeleteInactive(inst, [], 0, [pod], 0), rules, Told(Served));
  }

  lemma DeleteRefusedOnce(run: seq<Action>, d: Cluster, inst: Service, pod: Pod, rules: set<Rule>)
    returns (longer: seq<Action>)
    requires Reached(run, d, AtDeleteClaimed(inst, [pod], 0, 0), rules) && CleanupDeletesLand !in rules
    ensures Reached(longer, d, AtDropFinalizer(inst, 1), rules)
  {
    longer := Advance(run, d, AtDeleteClaimed(inst, [pod], 0, 0), rules, Told(Refused));
    longer := Advance(longer, d, AtDeleteClaimed(inst, [pod], 1, 1), rules, Told(Served));
  }

  /** Every rule but the one about Deletes is kept: with nobody but the API server misbehaving, a Service
      can be gone while its pod lives on. */
  lemma ServiceGonePodAlive() returns (run: seq<Action>)
    ensures Init(START) && Runs(START, run)
    ensures Obeys(START, run, {FinalizerIsOurs, ProvisionSeesLive, CleanupSeesLive})
    ensures PodWithoutService(After(START, run).cluster)
  {
    var rules := {FinalizerIsOurs, ProvisionSeesLive, CleanupSeesLive};
    var c, d, pod, inst;
    run, c, pod := Provisioned(rules);
    run, d, inst := AskedToGo(run, c, rules);
    run := ListOne(run, d, inst, pod, rules);
    SplitOne(pod);
    run := ClaimOwn(run, d, inst, pod, rules);
    run := DeleteRefusedOnce(run, d, inst, pod, rules);
    LabelledMeans(pod, KEY.name, SVC.uid);
    run := LetGo(run, d, inst, 1, pod.key, rules);
  }

  /** Somebody strips the pod of its owner references. */
  lemma Stripped(run: seq<Action>, c: Cluster, pod: Pod, rules: set<Rule>)
    returns (longer: seq<Action>, d: Cluster, orphan: Pod)
    requires Reached(run, c, Done(false), rules) && c.pods == map[pod.key := pod]
    ensures orphan == pod.(ownerRefs := [], version := c.revision + 1)
    ensures d == c.(pods := map[pod.key := orphan], revision := c.revision + 1)
    ensures Reached(longer, d, Done(false), rules)
  {
    var bare := pod.(ownerRefs := []);
    assert ControllerUid(bare) == None;
    longer := Intervene(run, c, Done(false), rules, EditPod(bare));
    orphan := bare.(version := c.revision + 1);
    d := c.(pods := map[pod.key := orphan], revision := c.revision + 1);
    assert StorePod(c, bare).pods == d.pods;
  }

  lemma PassOver(run: seq<Action>, d: Cluster, inst: Service, pod: Pod, rules: set<Rule>) returns (longer: seq<Action>)
    requires Reached(run, d, AtClaim(inst, [], Claim.Start(ManagerFor(inst), [pod])), rules)
    requires Claim.Decide(ManagerFor(inst), pod).Ignore? && inst.deleting
    ensures Reached(longer, d, AtDropFinalizer(inst, 0), rules)
  {
    var claim := Claim.Start(ManagerFor(inst), [pod]);
    longer := AdvancePlain(run, d, AtClaim(inst, [], claim), rules, Told(Served));
    longer := AdvancePlain(longer, d, AtClaim(inst, [], Claim.Skip(claim)), rules, Told(Served));
    longer := AdvancePlain(longer, d, AtDeleteInactive(inst, [], 0, [], 0), rules, Told(Served));
    longer := Advance(longer, d, AtDeleteClaimed(inst, [], 0, 0), rules, Told(Served));
  }

  /** Every rule but `CleanupSeesLive` is kept, and no call fails: a Service that is asked to go after
      its pod has lost its controller leaves that pod behind. */
  lemma OrphanOutlivesService() returns (run: seq<Action>)
    ensures Init(START) && Runs(START, run)
    ensures Obeys(START, run, {FinalizerIsOurs, ProvisionSeesLive, CleanupDeletesLand})
    ensures PodWithoutService(After(START, run).cluster)
  {
    var rules := {FinalizerIsOurs, ProvisionSeesLive, CleanupDeletesLand};
    var c, d, pod, orphan, inst;
    run, c, pod := Provisioned(rules);
    run, c, orphan := Stripped(run, c, pod, rules);
    run, d, inst := AskedToGo(run, c, rules);
    assert Selected(orphan, inst) && ControllerUid(orphan) == None;
    run := ListOne(run, d, inst, orphan, rules);
    SplitOne(orphan);
    DecisionOnListed(inst, orphan);
    run := PassOver(run, d, inst, orphan, rules);
    LabelledMeans(orphan, KEY.name, SVC.uid);
    run := LetGo(run, d, inst, 0, orphan.key, rules);
  }

  /** Every rule but the one about outsiders and the finalizer is kept: taking it off is enough. */
  lemma FinalizerTakenOff() returns (run: seq<Action>)
    ensures Init(START) && Runs(START, run)
    ensures Obeys(START, run, {ProvisionSeesLive, CleanupSeesLive, CleanupDeletesLand})
    ensures !Guarded(After(START, run).cluster)
  {
    var rules := {ProvisionSeesLive, CleanupSeesLive, CleanupDeletesLand};
    var c, pod;
    run, c, pod := Provisioned(rules);
    var bare := STORED.(finalizers := []);
    run := Intervene(run, c, Done(false), rules, EditService(bare));
    var d := StoreService(c, bare);
    LabelledMeans(pod, KEY.name, SVC.uid);
    assert LiveFor(d.pods[pod.key], SVC.uid) && !Carries(d, SVC.uid);
  }

  // ----- isolation -----

  /** The pod fails, and a Reconcile has listed it. */
  lemma FailedAndListed(rules: set<Rule>) returns (run: seq<Action>, c: Cluster, pod: Pod)
    ensures Reached(run, c, AtClaim(STORED, [pod], Claim.Start(ManagerFor(STORED), [])), rules)
    ensures c.pods == map[pod.key := pod] && c.podUids == {"p1"} && pod.finalizers == []
  {
    run, c, pod := Provisioned(rules);
    var failed := pod.(phase := Failed);
    assert ControllerUid(failed) == ControllerUid(pod);
    run := Intervene(run, c, Done(false), rules, EditPod(failed));
    var d := StorePod(c, failed);
    pod := failed.(version := c.revision + 1);
    assert d.pods == map[pod.key := pod];
    c := d;
    run := Restart(run, c, false, rules);
    assert Selected(pod, STORED);
    run := ListOne(run, c, STORED, pod, rules);
    SplitOne(pod);
  }

  const STRANGER_UID := "x1"

  /** The listed pod vanishes and an outsider's pod takes its name, before the Delete. */
  lemma NameTaken(rules: set<Rule>) returns (run: seq<Action>, c: Cluster, pod: Pod, stranger: Pod)
    ensures Reached(run, c, AtDeleteInactive(STORED, [pod], 0, [], 0), rules)
    ensures c.pods == map[pod.key := stranger] && stranger.key == pod.key && stranger.labels == map[]
    ensures stranger.ownerRefs == []
    ensures stranger.uid == STRANGER_UID && IsPodActive(stranger) && stranger.finalizers == []
  {
    run, c, pod := FailedAndListed(rules);
    var claim := Claim.Start(ManagerFor(STORED), []);
    var pc := AtClaim(STORED, [pod], claim);
    run := Intervene(run, c, pc, rules, Vanish(pod.key));
    c := RemovePod(c, pod.key);
    assert c.pods == map[];
    stranger := Pod(pod.key, STRANGER_UID, 0, map[], [], [], false, Running, "");
    assert STRANGER_UID[0] == 'x';
    run := Intervene(run, c, pc, rules, NewPod(stranger));
    var d := StorePod(c, stranger).(podUids := c.podUids + {stranger.uid});
    stranger := stranger.(version := c.revision + 1);
    assert d.pods == map[pod.key := stranger];
    c := d;
    run := AdvancePlain(run, c, pc, rules, Told(Served));
  }

  /** Every rule is kept and no call fails: a worker's Delete ends a running pod that has nothing to do
      with its Service. */
  lemma StrangerDeleted() returns (run: seq<Action>, a: Action, k: Key)
    ensures Init(START) && Runs(START, run) && Obeys(START, run, ALL_RULES)
    ensures var s := After(START, run);
      && Enabled(s, a) && a.Work? && a.ans.fault.Served? && k in s.cluster.pods
      && Outside(s.cluster, s.cluster.pods[k]) && IsPodActive(s.cluster.pods[k])
      && k in Apply(s, a).cluster.pods
      && Apply(s, a).cluster.pods[k] == s.cluster.pods[k].(deleting := true, version := s.cluster.revision + 1)
  {
    var c, pod, stranger;
    run, c, pod, stranger := NameTaken(ALL_RULES);
    a, k := Work(KEY, Told(Served)), pod.key;
    assert ControllerUid(stranger) == None;
  }

  // ----- foreign controllers -----

  const FOREIGN := OwnerRef("Other", "x", "x1", true)

  /** Another controller takes the pod over. */
  lemma TakenOver(rules: set<Rule>) returns (run: seq<Action>, c: Cluster, pod: Pod)
    ensures Reached(run, c, Done(false), rules)
    ensures c == C2.(pods := map[pod.key := pod], revision := 4, podUids := {"p1"})
    ensures pod.ownerRefs == [FOREIGN] && Selected(pod, SVC) && IsPodActive(pod) && pod.key == GeneratedKey("abcde")
  {
    run, c, pod := Provisioned(rules);
    var taken := pod.(ownerRefs := [FOREIGN]);
    assert ControllerUid(taken) == Some("x1") && "x1" !in c.serviceUids by { assert "x1"[0] == 'x' && "u1"[0] == 'u'; }
    run := Intervene(run, c, Done(false), rules, EditPod(taken));
    var d := StorePod(c, taken);
    pod := taken.(version := c.revision + 1);
    assert d.pods == map[pod.key := pod];
    c := d;
  }

  /** Every other rule is kept and no call fails: a Service that is asked to go while another controller
      holds its pod leaves that pod behind. */
  lemma ForeignPodOutlivesService() returns (run: seq<Action>)
    ensures Init(START) && Runs(START, run)
    ensures Obeys(START, run, {FinalizerIsOurs, ProvisionSeesLive, CleanupDeletesLand})
    ensures PodWithoutService(After(START, run).cluster)
  {
    var rules := {FinalizerIsOurs, ProvisionSeesLive, CleanupDeletesLand};
    var c, d, pod, inst;
    run, c, pod := TakenOver(rules);
    run, d, inst := AskedToGo(run, c, rules);
    assert Selected(pod, inst) && ControllerUid(pod) == Some("x1");
    run := ListOne(run, d, inst, pod, rules);
    SplitOne(pod);
    assert Claim.Decide(ManagerFor(inst), pod).Ignore? by { assert "x1"[0] == 'x' && "u1"[0] == 'u'; }
    run := PassOver(run, d, inst, pod, rules);
    LabelledMeans(pod, KEY.name, SVC.uid);
    run := LetGo(run, d, inst, 0, pod.key, rules);
  }

  /** The pod fails in other hands. */
  lemma FailedElsewhere(rules: set<Rule>) returns (run: seq<Action>, c: Cluster, pod: Pod)
    ensures Reached(run, c, Done(false), rules) && c.services == C2.services && c.pods == map[pod.key := pod]
    ensures pod.ownerRefs == [FOREIGN] && Selected(pod, SVC) && pod.phase == Failed && !pod.deleting
  {
    run, c, pod := TakenOver(rules);
    var failed := pod.(phase := Failed);
    assert ControllerUid(failed) == ControllerUid(pod);
    run := Intervene(run, c, Done(false), rules, EditPod(failed));
    var d := StorePod(c, failed);
    pod := failed.(version := c.revision + 1);
    assert d.pods == map[pod.key := pod];
    c := d;
  }

  lemma ListFailed(run: seq<Action>, c: Cluster, pod: Pod, rules: set<Rule>) returns (longer: seq<Action>)
    requires Reached(run, c, Done(false), rules) && c.services == C2.services && c.pods == map[pod.key := pod]
    requires Selected(pod, SVC) && pod.phase == Failed
    ensures Reached(longer, c, AtDeleteInactive(STORED, [pod], 0, [], 0), rules)
  {
    longer := Restart(run, c, false, rules);
    assert Selected(pod, STORED);
    longer := ListOne(longer, c, STORED, pod, rules);
    SplitOne(pod);
    longer := AdvancePlain(longer, c, AtClaim(STORED, [pod], Claim.Start(ManagerFor(STORED), [])), rules, Told(Served));
  }

  /** Every rule is kept and no call fails: a failed pod is deleted although another controller holds it. */
  lemma ForeignPodDeleted() returns (run: seq<Action>, a: Action, k: Key)
    ensures Init(START) && Runs(START, run) && Obeys(START, run, ALL_RULES)
    ensures var s := After(START, run);
      && Enabled(s, a) && a.Work? && a.ans.fault.Served? && k in s.cluster.pods
      && ControllerUid(s.cluster.pods[k]) == Some(FOREIGN.uid) && !s.cluster.pods[k].deleting
      && k in Apply(s, a).cluster.pods && Apply(s, a).cluster.pods[k].deleting
  {
    var c, pod;
    run, c, pod := FailedElsewhere(ALL_RULES);
    run := ListFailed(run, c, pod, ALL_RULES);
    a, k := Work(KEY, Told(Served)), pod.key;
  }

  /** The next Reconcile does not count it, and is about to make another one. */
  lemma NotClaimed(rules: set<Rule>) returns (run: seq<Action>, c: Cluster, pod: Pod)
    requires ProvisionSeesLive !in rules
    ensures Reached(run, c, AtDeleteInactive(STORED, [], 0, [], 0), rules)
    ensures c == C2.(pods := map[pod.key := pod], revision := 4, podUids := {"p1"})
    ensures pod.ownerRefs == [FOREIGN] && Selected(pod, SVC) && IsPodActive(pod) && pod.key == GeneratedKey("abcde")
  {
    run, c, pod := TakenOver(rules);
    run := Restart(run, c, false, rules);
    assert Selected(pod, STORED);
    run := ListOne(run, c, STORED, pod, rules);
    SplitOne(pod);
    var claim := Claim.Start(ManagerFor(STORED), [pod]);
    assert Claim.Decide(claim.mgr, pod) == Claim.Ignore by { assert "x1"[0] == 'x' && "u1"[0] == 'u'; }
    run := AdvancePlain(run, c, AtClaim(STORED, [], claim), rules, Told(Served));
    run := AdvancePlain(run, c, AtClaim(STORED, [], Claim.Skip(claim)), rules, Told(Served));
  }

  lemma NotCounted(rules: set<Rule>) returns (run: seq<Action>, c: Cluster, pod: Pod)
    requires ProvisionSeesLive !in rules
    ensures Reached(run, c, AtCreate(STORED), rules)
    ensures c == C2.(pods := map[pod.key := pod], revision := 4, podUids := {"p1"})
    ensures pod.ownerRefs == [FOREIGN] && Selected(pod, SVC) && IsPodActive(pod) && pod.key == GeneratedKey("abcde")
  {
    run, c, pod := NotClaimed(rules);
    assert WantsPod(STORED);
    run := AdvancePlain(run, c, AtDeleteInactive(STORED, [], 0, [], 0), rules, Told(Served));
    run := AdvancePlain(run, c, AtAddFinalizer(STORED, []), rules, Told(Served));
  }

  lemma NamesDiffer()
    ensures GeneratedKey("abcde") != GeneratedKey("fghij")
  {
    var one, two := GeneratedKey("abcde").name, GeneratedKey("fghij").name;
    assert one[|one| - 1] == 'e' && two[|two| - 1] == 'j';
  }

  /** Now there are two. */
  lemma SecondMade(rules: set<Rule>) returns (run: seq<Action>, c: Cluster, pod: Pod, second: Pod)
    requires ProvisionSeesLive !in rules
    ensures Reached(run, c, Done(false), rules)
    ensures c.services == C2.services && c.serviceUids == C2.serviceUids
    ensures c.pods == map[pod.key := pod, second.key := second] && pod.key != second.key
    ensures Selected(pod, SVC) && IsPodActive(pod) && OwnPod(second)
  {
    run, c, pod := NotCounted(rules);
    NamesDiffer();
    GeneratedPod(TEMPLATE, STORED, "fghij");
    var made := GeneratePod(TEMPLATE, STORED, "fghij").value;
    assert "p2" !in c.podUids by { assert "p1"[1] == '1' && "p2"[1] == '2'; }
    run := AdvancePlain(run, c, AtCreate(STORED), rules, Answer(Served, [], false, "fghij", "p2"));
    c := CreatePod(c, made, "p2", Served).cluster;
    second := c.pods[made.key];
    assert ControllerUid(second) == ControllerUid(made) && second.labels == made.labels;
    assert c.pods == map[pod.key := pod, second.key := second];
  }

  /** The first one is given back as an orphan. */
  lemma GivenBack(run: seq<Action>, c: Cluster, pod: Pod, second: Pod, rules: set<Rule>)
    returns (longer: seq<Action>, d: Cluster, orphan: Pod)
    requires Reached(run, c, Done(false), rules) && c.pods == map[pod.key := pod, second.key := second]
    requires pod.key != second.key
    ensures orphan == pod.(ownerRefs := [], version := c.revision + 1)
    ensures d == c.(pods := map[pod.key := orphan, second.key := second], revision := c.revision + 1)
    ensures Reached(longer, d, Done(false), rules)
  {
    var bare := pod.(ownerRefs := []);
    MayGiveBack(c, pod, rules);
    longer := Intervene(run, c, Done(false), rules, EditPod(bare));
    orphan := bare.(version := c.revision + 1);
    d := c.(pods := map[pod.key := orphan, second.key := second], revision := c.revision + 1);
    StoredOver(c, pod, second, bare);
  }

  lemma MayGiveBack(c: Cluster, pod: Pod, rules: set<Rule>)
    requires pod.key in c.pods && c.pods[pod.key] == pod
    ensures Enabled(With(c, Done(false)), EditPod(pod.(ownerRefs := [])))
    ensures HoldAll(rules, With(c, Done(false)), EditPod(pod.(ownerRefs := [])))
  {
    assert ControllerUid(pod.(ownerRefs := [])) == None;
  }

  lemma StoredOver(c: Cluster, pod: Pod, second: Pod, bare: Pod)
    requires c.pods == map[pod.key := pod, second.key := second] && pod.key != second.key && bare.key == pod.key
    ensures StorePod(c, bare) == c.(
      pods := map[pod.key := bare.(version := c.revision + 1), second.key := second], revision := c.revision + 1)
  {
    assert StorePod(c, bare).pods == map[pod.key := bare.(version := c.revision + 1), second.key := second];
  }

  lemma TwoByLabel(c: Cluster, k: Key, l: Key)
    requires k in c.pods && l in c.pods && k != l && SVC.uid in c.serviceUids
    requires IsPodActive(c.pods[k]) && IsPodActive(c.pods[l]) && Selected(c.pods[k], SVC) && Selected(c.pods[l], SVC)
    ensures !AtMostOnePod(c)
  {
    LabelledMeans(c.pods[k], KEY.name, SVC.uid);
    LabelledMeans(c.pods[l], KEY.name, SVC.uid);
    assert Tracks(c.pods[k], SVC.uid) && Tracks(c.pods[l], SVC.uid);
  }

  lemma ListTwo(run: seq<Action>, c: Cluster, one: Pod, two: Pod, rules: set<Rule>) returns (longer: seq<Action>)
    requires Reached(run, c, AtList(STORED), rules) && c.pods == map[one.key := one, two.key := two]
    requires one.key != two.key
    requires Selected(one, STORED) && Selected(two, STORED) && IsPodActive(one) && IsPodActive(two)
    requires ProvisionSeesLive !in rules
    ensures Reached(longer, c, AtClaim(STORED, [], Claim.Start(ManagerFor(STORED), [one, two])), rules)
  {
    var listing := [one, two];
    assert listing[0] == one && listing[1] == two;
    assert IsListing(c, STORED, listing);
    assert WantsPod(STORED);
    longer := Advance(run, c, AtList(STORED), rules, Answer(Served, listing, false, "", ""));
    assert listing[1..] == [two];
    SplitOne(two);
    assert Split(listing, false) == [] + Split(listing[1..], false) == [];
    assert Split(listing, true) == [one] + Split(listing[1..], true) == [one, two];
  }

  /** Two active pods that carry the Service's labels and are controlled by it. */
  ghost predicate TwoOwned(c: Cluster) {
    exists k, l :: k in c.pods && l in c.pods && k != l && OwnPod(c.pods[k]) && OwnPod(c.pods[l])
  }

  /** The first one is adopted again. */
  lemma AdoptAgain(run: seq<Action>, c: Cluster, orphan: Pod, second: Pod, rules: set<Rule>)
    returns (longer: seq<Action>)
    requires Reached(run, c, AtClaim(STORED, [], Claim.Start(ManagerFor(STORED), [orphan, second])), rules)
    requires c.services == C2.services && c.pods == map[orphan.key := orphan, second.key := second]
    requires orphan.key != second.key
    requires Selected(orphan, SVC) && IsPodActive(orphan) && orphan.ownerRefs == [] && OwnPod(second)
    requires SVC.uid in c.serviceUids
    ensures Runs(START, longer) && Obeys(START, longer, rules)
    ensures TwoOwned(After(START, longer).cluster) && !AtMostOnePod(After(START, longer).cluster)
  {
    var claim := Claim.Start(ManagerFor(STORED), [orphan, second]);
    assert Selected(orphan, STORED) && ControllerUid(orphan) == None;
    DecisionOnListed(STORED, orphan);
    longer := AdvancePlain(run, c, AtClaim(STORED, [], claim), rules, Told(Served));
    var q := SetControllerReference(OwnerOf(STORED), orphan).value;
    AdoptControls(OwnerOf(STORED), orphan);
    longer := AdvancePlain(longer, c, AtClaim(STORED, [], claim.(verdict := Some(true))), rules, Told(Served));
    var d := UpdatePod(c, q, Served).cluster;
    assert ControllerUid(d.pods[orphan.key]) == ControllerUid(q);
    assert OwnPod(d.pods[orphan.key]) && OwnPod(d.pods[second.key]);
    TwoByLabel(d, orphan.key, second.key);
  }

  /** Every other rule is kept and no call fails: when another controller takes the pod over and gives it
      back, the Service ends up with two active pods that it owns. */
  lemma ForeignControlMakesTwo() returns (run: seq<Action>)
    ensures Init(START) && Runs(START, run)
    ensures Obeys(START, run, {FinalizerIsOurs, CleanupSeesLive, CleanupDeletesLand})
    ensures TwoOwned(After(START, run).cluster) && !AtMostOnePod(After(START, run).cluster)
  {
    var rules := {FinalizerIsOurs, CleanupSeesLive, CleanupDeletesLand};
    var c, d, pod, orphan, second;
    run, c, pod, second := SecondMade(rules);
    run, d, orphan := GivenBack(run, c, pod, second, rules);
    c := d;
    run := Restart(run, c, false, rules);
    assert Selected(orphan, STORED) && Selected(second, STORED);
    run := ListTwo(run, c, orphan, second, rules);
    run := AdoptAgain(run, c, orphan, second, rules);
  }
}
