/** Concrete runs from an empty cluster, built one action at a time. */
module Scenario {
  import opened Objects
  import opened ApiServer
  import opened Reconcile
  import opened Reads
  import opened Safety
  import Claim

  /** The run leads from `s` to `t` and obeys the rules. */
  ghost predicate Leads(s: Sys, run: seq<Action>, t: Sys, rules: set<Rule>) {
    Runs(s, run) && After(s, run) == t && Obeys(s, run, rules)
  }

  lemma {:induction false} Extend(s: Sys, run: seq<Action>, t: Sys, rules: set<Rule>, a: Action)
    requires Leads(s, run, t, rules) && Enabled(t, a) && HoldAll(rules, t, a)
    ensures Leads(s, run + [a], Apply(t, a), rules)
    decreases |run|
  {
    var longer := run + [a];
    if run == [] {
      assert longer[1..] == [];
    } else {
      assert longer[0] == run[0] && longer[1..] == run[1..] + [a];
      Extend(Apply(s, run[0]), run[1..], t, rules, a);
    }
  }

  // ----- one Service, one worker -----

  const KEY := Key("ns", "web")
  const TEMPLATE := Template("", map[], [], [], "")
  const SVC := Service(KEY, "u1", 0, TYPE_LOAD_BALANCER, map[ANNOTATION_FRP_SERVER := "frps"], [], false, "")
  const NOTHING := Cluster(map[], map[], 0, map[], {})
  const START := Sys(TEMPLATE, NOTHING, map[])

  function With(c: Cluster, pc: PC): Sys { Sys(TEMPLATE, c, map[KEY := pc]) }

  ghost predicate Reached(run: seq<Action>, c: Cluster, pc: PC, rules: set<Rule>) {
    Leads(START, run, With(c, pc), rules)
  }

  function Told(fault: Fault): Answer { Answer(fault, [], false, "", "") }

  /** The worker makes a step. */
  lemma Advance(run: seq<Action>, c: Cluster, pc: PC, rules: set<Rule>, ans: Answer) returns (longer: seq<Action>)
    requires Reached(run, c, pc, rules) && InFlight(pc) && Admissible(c, pc, ans)
    requires HoldAll(rules, With(c, pc), Work(KEY, ans))
    ensures longer == run + [Work(KEY, ans)]
    ensures var r := Step(TEMPLATE, c, pc, ans); Reached(longer, r.0, r.1, rules)
  {
    var t := With(c, pc);
    var a := Work(KEY, ans);
    Extend(START, run, t, rules, a);
    longer := run + [a];
    var r := Step(TEMPLATE, c, pc, ans);
    assert Apply(t, a).workers == map[KEY := r.1];
  }

  /** A step no rule has anything to say about. */
  predicate Plain(pc: PC) { InFlight(pc) && !pc.AtList? && !pc.AtDeleteClaimed? }

  lemma AdvancePlain(run: seq<Action>, c: Cluster, pc: PC, rules: set<Rule>, ans: Answer) returns (longer: seq<Action>)
    requires Reached(run, c, pc, rules) && Plain(pc) && Admissible(c, pc, ans)
    ensures longer == run + [Work(KEY, ans)]
    ensures var r := Step(TEMPLATE, c, pc, ans); Reached(longer, r.0, r.1, rules)
  {
    longer := Advance(run, c, pc, rules, ans);
  }

  /** Somebody else acts on the cluster. */
  lemma Intervene(run: seq<Action>, c: Cluster, pc: PC, rules: set<Rule>, a: Action) returns (longer: seq<Action>)
    requires Reached(run, c, pc, rules) && !a.Work? && !a.Begin?
    requires Enabled(With(c, pc), a) && HoldAll(rules, With(c, pc), a)
    ensures Reached(longer, Apply(With(c, pc), a).cluster, pc, rules)
  {
    Extend(START, run, With(c, pc), rules, a);
    longer := run + [a];
  }

  /** A new Reconcile starts and reads the Service. */
  lemma Restart(run: seq<Action>, c: Cluster, failed: bool, rules: set<Rule>) returns (longer: seq<Action>)
    requires Reached(run, c, Done(failed), rules) && KEY in c.services
    ensures Reached(longer, c, AtList(c.services[KEY]), rules)
  {
    var t := With(c, Done(failed));
    Extend(START, run, t, rules, Begin(KEY));
    longer := run + [Begin(KEY)];
    assert Apply(t, Begin(KEY)) == With(c, AtGet(KEY));
    longer := AdvancePlain(longer, c, AtGet(KEY), rules, Told(Served));
  }

  /** The listing of a cluster with a single pod, which is selected. */
  lemma ListOne(run: seq<Action>, c: Cluster, inst: Service, pod: Pod, rules: set<Rule>) returns (longer: seq<Action>)
    requires Reached(run, c, AtList(inst), rules) && c.pods == map[pod.key := pod] && Selected(pod, inst)
    requires PassedOver(c, inst, pod.key) ==> (if WantsPod(inst) then ProvisionSeesLive else CleanupSeesLive) !in rules
    ensures Reached(longer, c, AfterList(inst, [pod]), rules)
  {
    var ans := Answer(Served, [pod], false, "", "");
    assert ans.listing[0] == pod;
    assert IsListing(c, inst, ans.listing);
    longer := Advance(run, c, AtList(inst), rules, ans);
  }

  function AfterList(inst: Service, listing: seq<Pod>): PC {
    AtClaim(inst, Split(listing, false), Claim.Start(ManagerFor(inst), Split(listing, true)))
  }

  lemma SplitOne(pod: Pod)
    ensures Split([pod], true) == if IsPodActive(pod) then [pod] else []
    ensures Split([pod], false) == if IsPodActive(pod) then [] else [pod]
  {
    assert [pod][1..] == [];
    assert Split([pod], true) == (if IsPodActive(pod) then [pod] else []) + Split([pod][1..], true);
    assert Split([pod], false) == (if IsPodActive(pod) then [] else [pod]) + Split([pod][1..], false);
  }

  // ----- a Service that has been provisioned -----

  const READ := SVC.(version := 1)
  const C1 := NOTHING.(services := map[KEY := READ], revision := 1, serviceUids := map["u1" := KEY])

  lemma ServiceMade(rules: set<Rule>) returns (run: seq<Action>)
    ensures Reached(run, C1, AtGet(KEY), rules)
  {
    assert Leads(START, [], START, rules);
    Extend(START, [], START, rules, NewService(SVC));
    var s1 := Apply(START, NewService(SVC));
    assert s1.cluster.services == C1.services;
    assert s1 == Sys(TEMPLATE, C1, map[]);
    run := [] + [NewService(SVC)];
    Extend(START, run, s1, rules, Begin(KEY));
    run := run + [Begin(KEY)];
    assert Apply(s1, Begin(KEY)) == With(C1, AtGet(KEY));
  }

  lemma NothingListed(rules: set<Rule>) returns (run: seq<Action>)
    ensures Reached(run, C1, AtDeleteInactive(READ, [], 0, [], 0), rules)
  {
    run := ServiceMade(rules);
    run := AdvancePlain(run, C1, AtGet(KEY), rules, Told(Served));
    assert !exists k :: PassedOver(C1, READ, k);
    run := Advance(run, C1, AtList(READ), rules, Told(Served));
    run := AdvancePlain(run, C1, AtClaim(READ, [], Claim.Start(ManagerFor(READ), [])), rules, Told(Served));
  }

  const C2 := C1.(services := map[KEY := SVC.(version := 2, finalizers := [FINALIZER_NAME])], revision := 2)

  lemma FinalizerAdded(rules: set<Rule>) returns (run: seq<Action>)
    ensures Reached(run, C2, AtCreate(READ), rules)
  {
    run := NothingListed(rules);
    assert WantsPod(READ);
    run := AdvancePlain(run, C1, AtDeleteInactive(READ, [], 0, [], 0), rules, Told(Served));
    run := AdvancePlain(run, C1, AtAddFinalizer(READ, []), rules, Told(Served));
    assert Added(READ).finalizers == [FINALIZER_NAME];
    var d := UpdateService(C1, Added(READ), Served).cluster;
    assert d.services == C2.services;
    assert d == C2;
  }

  /** The Service's own active pod. */
  predicate OwnPod(pod: Pod) {
    Selected(pod, SVC) && IsPodActive(pod) && ControllerUid(pod) == Some(SVC.uid)
  }

  /** A Service is created and provisioned: finalizer first, then the pod. */
  lemma Provisioned(rules: set<Rule>) returns (run: seq<Action>, c: Cluster, pod: Pod)
    ensures Reached(run, c, Done(false), rules)
    ensures c == C2.(pods := map[pod.key := pod], revision := 3, podUids := {"p1"})
    ensures pod.uid == "p1" && pod.finalizers == [] && OwnPod(pod) && pod.key == GeneratedKey("abcde")
  {
    run := FinalizerAdded(rules);
    var ans := Answer(Served, [], false, "abcde", "p1");
    GeneratedPod(TEMPLATE, READ, "abcde");
    var made := GeneratePod(TEMPLATE, READ, "abcde").value;
    run := AdvancePlain(run, C2, AtCreate(READ), rules, ans);
    c := CreatePod(C2, made, "p1", Served).cluster;
    pod := c.pods[made.key];
    assert ControllerUid(pod) == ControllerUid(made);
    assert pod.labels == made.labels;
    assert c.pods == map[pod.key := pod];
  }

  function GeneratedKey(suffix: string): Key {
    Key(KEY.namespace, GenerateName(BaseName(TEMPLATE, SVC), suffix))
  }

  /** The Service as stored from then on. */
  const STORED := SVC.(version := 2, finalizers := [FINALIZER_NAME])
}
