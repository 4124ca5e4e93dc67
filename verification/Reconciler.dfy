/** ServiceReconciler as the code runs it: loops, lists and API calls, with the rest of the world at
    work before every call.  Proved to follow the step machine, and thereby the interleaved system. */
module Reconciler {
  import opened Objects
  import opened ApiServer
  import opened Reconcile
  import opened ClaimLoop
  import opened Client
  import Claim
  import Finalizer
  import RefManager
  import Safety

  // ----- following the machine -----

  ghost predicate Follows(t: Template, pc: PC, turns: seq<Turn>)
    decreases |turns|, 0
  {
    turns == [] ||
    (var n := |turns| - 1;
     && Follows(t, pc, turns[..n])
     && InFlight(Reached(t, pc, turns[..n]))
     && Admissible(turns[n].pre, Reached(t, pc, turns[..n]), turns[n].ans)
     && turns[n].post == Step(t, turns[n].pre, Reached(t, pc, turns[..n]), turns[n].ans).0)
  }

  /** Where the machine stands after these turns. */
  ghost function Reached(t: Template, pc: PC, turns: seq<Turn>): PC
    requires Follows(t, pc, turns)
    decreases |turns|, 1
  {
    if turns == [] then pc
    else
      var n := |turns| - 1;
      Step(t, turns[n].pre, Reached(t, pc, turns[..n]), turns[n].ans).1
  }

  /** The turns lead from `pc` to `pc'`. */
  ghost predicate Leads(t: Template, pc: PC, turns: seq<Turn>, pc': PC) {
    Follows(t, pc, turns) && Reached(t, pc, turns) == pc'
  }

  /** The last turn left the cluster as it is now. */
  ghost predicate Current(turns: seq<Turn>, c: Cluster) {
    turns != [] && turns[|turns| - 1].post == c
  }

  lemma Onward(t: Template, pc: PC, turns: seq<Turn>, pc': PC, turn: Turn)
    requires Leads(t, pc, turns, pc') && InFlight(pc') && Admissible(turn.pre, pc', turn.ans)
    requires turn.post == Step(t, turn.pre, pc', turn.ans).0
    ensures Leads(t, pc, turns + [turn], Step(t, turn.pre, pc', turn.ans).1)
  {
    assert (turns + [turn])[..|turns|] == turns;
  }

  lemma {:induction false} ClaimFollows(t: Template, pc: PC, turns: seq<Turn>, inst: Service, inactive: seq<Pod>,
                                        st: Claim.State, more: seq<Turn>)
    requires Leads(t, pc, turns, AtClaim(inst, inactive, st)) && Plays(st, more)
    ensures Leads(t, pc, turns + more, AtClaim(inst, inactive, Play(st, more)))
    decreases |more|
  {
    if more == [] {
      assert turns + more == turns;
    } else {
      var n := |more| - 1;
      var front, last := more[..n], more[n];
      ClaimFollows(t, pc, turns, inst, inactive, st, front);
      Onward(t, pc, turns + front, AtClaim(inst, inactive, Play(st, front)), last);
      assert turns + front + [last] == turns + more;
    }
  }

  // ----- the controller -----

  /** Fresh references, one for each of the pods, sharing no memory. */
  ghost predicate Handles(hs: seq<RefManager.Handle>, pods: seq<Pod>)
    reads hs, set h | h in hs :: h.refs
  {
    && |hs| == |pods|
    && (forall i | 0 <= i < |hs| :: hs[i].Valid() && hs[i].Value() == pods[i])
    && (forall i, j | 0 <= i < j < |hs| :: hs[i] != hs[j] && hs[i].refs != hs[j].refs)
  }

  lemma HandlesGrow(hs: seq<RefManager.Handle>, pods: seq<Pod>, h: RefManager.Handle)
    requires Handles(hs, pods) && h.Valid() && forall i | 0 <= i < |hs| :: hs[i] != h && hs[i].refs != h.refs
    ensures Handles(hs + [h], pods + [h.Value()])
  {
  }

  class ServiceReconciler {
    const api: Api
    const template: Template

    constructor (api: Api, template: Template)
      ensures this.api == api && this.template == template
    {
      this.api, this.template := api, template;
    }

    /** Lists by the two labels and splits by activity, keeping the order. */
    method GetOwnedPods(inst: Service) returns (failed: bool, active: seq<Pod>, inactive: seq<Pod>, ghost turn: Turn)
      requires api.Valid()
      modifies api
      ensures api.Valid() && api.cluster == turn.post == turn.pre && IsListing(turn.pre, inst, turn.ans.listing)
      ensures failed == !turn.ans.fault.Served?
      ensures !failed ==> active == Split(turn.ans.listing, true) && inactive == Split(turn.ans.listing, false)
    {
      var e, pods;
      e, pods, turn := api.ListPods(inst);
      active, inactive := [], [];
      if e != NoError {
        return true, active, inactive, turn;
      }
      failed := false;
      active, inactive := SplitPods(pods);
    }

    method SplitPods(pods: seq<Pod>) returns (active: seq<Pod>, inactive: seq<Pod>)
      ensures active == Split(pods, true) && inactive == Split(pods, false)
    {
      active, inactive := [], [];
      var i := 0;
      while i < |pods|
        invariant 0 <= i <= |pods|
        invariant active == Split(pods[..i], true) && inactive == Split(pods[..i], false)
      {
        SplitSnoc(pods[..i], pods[i], true);
        SplitSnoc(pods[..i], pods[i], false);
        assert pods[..i] + [pods[i]] == pods[..i + 1];
        if IsPodActive(pods[i]) {
          active := active + [pods[i]];
        } else {
          inactive := inactive + [pods[i]];
        }
        i := i + 1;
      }
      assert pods[..|pods|] == pods;
    }

    method PointTo(pods: seq<Pod>) returns (hs: seq<RefManager.Handle>)
      ensures Handles(hs, pods) && fresh(hs) && forall h | h in hs :: fresh(h.refs)
    {
      hs := [];
      var i := 0;
      while i < |pods|
        invariant 0 <= i <= |pods|
        invariant Handles(hs, pods[..i]) && fresh(hs) && forall h | h in hs :: fresh(h.refs)
      {
        var h := new RefManager.Handle(pods[i]);
        HandlesGrow(hs, pods[..i], h);
        assert pods[..i] + [pods[i]] == pods[..i + 1];
        hs, i := hs + [h], i + 1;
      }
      assert pods[..|pods|] == pods;
    }

    /** Claims the active pods through a new reference manager. */
    method ClaimPods(inst: Service, active: seq<Pod>) returns (errs: nat, claimed: seq<Pod>, ghost turns: seq<Turn>)
      requires api.Valid()
      modifies api
      ensures api.Valid()
      ensures var st := Claim.Start(ManagerFor(inst), active);
        && Plays(st, turns) && Claim.Finished(Play(st, turns)) && errs == Play(st, turns).errs
        && claimed == Pick(active, Play(st, turns).claimed)
    {
      var mgr := new RefManager.Manager(api, OwnerOf(inst), SelectorFor(inst.key.name, inst.uid));
      var hs := PointTo(active);
      assert RefManager.Values(hs) == active;
      var got;
      ghost var end;
      got, errs, turns, end := mgr.ClaimOwnedObjects(hs, []);
      claimed := ReadBack(hs, got, active, Play(Claim.Start(ManagerFor(inst), active), turns).claimed);
    }

    /** The pods behind the claimed references, as they were listed. */
    method ReadBack(hs: seq<RefManager.Handle>, got: seq<RefManager.Handle>, pods: seq<Pod>, ghost indices: seq<nat>)
      returns (claimed: seq<Pod>)
      requires |hs| == |pods| && RefManager.Selection(hs, indices, got)
      requires forall i, j | 0 <= i < j < |hs| :: hs[i] != hs[j]
      ensures claimed == Pick(pods, indices)
    {
      claimed := [];
      var i := 0;
      while i < |got|
        invariant 0 <= i <= |got| && |claimed| == i
        invariant forall j | 0 <= j < i :: claimed[j] == pods[indices[j]]
      {
        var n := Position(hs, got[i]);
        claimed := claimed + [pods[n]];
        i := i + 1;
      }
    }

    /** Which of the references this is. */
    method Position(hs: seq<RefManager.Handle>, h: RefManager.Handle) returns (n: nat)
      requires h in hs && forall i, j | 0 <= i < j < |hs| :: hs[i] != hs[j]
      ensures n < |hs| && hs[n] == h
    {
      n := 0;
      while hs[n] != h
        invariant n < |hs| && h in hs[n..]
        decreases |hs| - n
      {
        n := n + 1;
      }
    }

    /** Builds the pod from the template under a random name. */
    method MakePod(inst: Service) returns (pod: Option<Pod>, suffix: string)
      ensures pod == GeneratePod(template, inst, suffix)
    {
      suffix := *;
      if template.Malformed? {
        return None, suffix;
      }
      var baseName := DEFAULT_BASE_NAME;
      if template.name != "" {
        baseName := template.name;
      }
      var made := Pod(Key(inst.key.namespace, GenerateName(baseName + "-" + inst.key.name, suffix)), "", 0,
                      template.labels, template.ownerRefs, template.finalizers, false, Pending, template.content);
      var owned := SetControllerReference(OwnerOf(inst), made);
      if owned.None? {
        return None, suffix;
      }
      made := owned.value;
      made := made.(labels := made.labels[LABEL_SERVICE_NAME := inst.key.name]);
      made := made.(labels := made.labels[LABEL_CONTROLLER_UID := inst.uid]);
      return Some(made), suffix;
    }

    /** One Reconcile.  Whatever happens between and during its calls, those calls are turns of the step
        machine, and it reports failure exactly when the machine ends in failure. */
    method Reconcile(key: Key) returns (failed: bool, ghost turns: seq<Turn>)
      requires api.Valid()
      modifies api
      ensures api.Valid() && Leads(template, AtGet(key), turns, Done(failed)) && Current(turns, api.cluster)
    {
      var e, inst;
      ghost var turn;
      e, inst, turn := api.GetService(key);
      Onward(template, AtGet(key), [], AtGet(key), turn);
      turns := [] + [turn];
      if e == NotFound {
        return false, turns;
      }
      if e != NoError {
        return true, turns;
      }
      var active, inactive;
      failed, active, inactive, turn := GetOwnedPods(inst);
      Onward(template, AtGet(key), turns, AtList(inst), turn);
      turns := turns + [turn];
      if failed {
        return true, turns;
      }
      var errs, claimed;
      ghost var more;
      errs, claimed, more := ClaimPods(inst, active);
      ghost var st := Claim.Start(ManagerFor(inst), active);
      ClaimFollows(template, AtGet(key), turns, inst, inactive, st, more);
      turns := turns + more;
      turn := Turn(api.cluster, Answer(Served, [], false, "", ""), api.cluster);
      PlayKeeps(st, more);
      Onward(template, AtGet(key), turns, AtClaim(inst, inactive, Play(st, more)), turn);
      turns := turns + [turn];
      if errs > 0 {
        return true, turns;
      }
      failed, turns := Settle(key, inst, inactive, claimed, turns);
    }

    /** Everything after the claim: kill the inactive pods, then clean up or provision. */
    method Settle(key: Key, inst: Service, inactive: seq<Pod>, claimed: seq<Pod>, ghost turns: seq<Turn>)
      returns (failed: bool, ghost turns': seq<Turn>)
      requires api.Valid() && Leads(template, AtGet(key), turns, AtDeleteInactive(inst, inactive, 0, claimed, 0))
      modifies api
      ensures api.Valid() && Leads(template, AtGet(key), turns', Done(failed)) && Current(turns', api.cluster)
    {
      turns' := turns;
      var errsList := 0;
      ghost var turn;
      var i := 0;
      while i < |inactive|
        invariant 0 <= i <= |inactive| && api.Valid()
        invariant Leads(template, AtGet(key), turns', AtDeleteInactive(inst, inactive, i, claimed, errsList))
      {
        var e;
        e, turn := api.DeletePod(inactive[i].key);
        Onward(template, AtGet(key), turns', AtDeleteInactive(inst, inactive, i, claimed, errsList), turn);
        turns' := turns' + [turn];
        if e != NoError && e != NotFound {
          errsList := errsList + 1;
        }
        i := i + 1;
      }
      turn := Turn(api.cluster, Answer(Served, [], false, "", ""), api.cluster);
      Onward(template, AtGet(key), turns', AtDeleteInactive(inst, inactive, i, claimed, errsList), turn);
      turns' := turns' + [turn];
      if errsList != 0 {
        return true, turns';
      }
      if inst.serviceType != TYPE_LOAD_BALANCER || |inst.annotations| == 0 ||
         Lookup(inst.annotations, ANNOTATION_FRP_SERVER) == "" || inst.deleting {
        failed, turns' := CleanUp(key, inst, claimed, turns');
      } else {
        failed, turns' := Provision(key, inst, claimed, turns');
      }
    }

    /** Deletes the claimed pods and takes the finalizer off, even when a Delete failed. */
    method CleanUp(key: Key, inst: Service, claimed: seq<Pod>, ghost turns: seq<Turn>)
      returns (failed: bool, ghost turns': seq<Turn>)
      requires api.Valid() && Leads(template, AtGet(key), turns, AtDeleteClaimed(inst, claimed, 0, 0))
      modifies api
      ensures api.Valid() && Leads(template, AtGet(key), turns', Done(failed)) && Current(turns', api.cluster)
    {
      turns' := turns;
      var errsList := 0;
      ghost var turn;
      var i := 0;
      while i < |claimed|
        invariant 0 <= i <= |claimed| && api.Valid()
        invariant Leads(template, AtGet(key), turns', AtDeleteClaimed(inst, claimed, i, errsList))
      {
        var e;
        e, turn := api.DeletePod(claimed[i].key);
        Onward(template, AtGet(key), turns', AtDeleteClaimed(inst, claimed, i, errsList), turn);
        turns' := turns' + [turn];
        if e != NoError && e != NotFound {
          errsList := errsList + 1;
        }
        i := i + 1;
      }
      turn := Turn(api.cluster, Answer(Served, [], false, "", ""), api.cluster);
      Onward(template, AtGet(key), turns', AtDeleteClaimed(inst, claimed, i, errsList), turn);
      turns' := turns' + [turn];
      var updated := inst.(finalizers := Without(inst.finalizers, FINALIZER_NAME));
      var e;
      e, turn := api.UpdateService(updated);
      Onward(template, AtGet(key), turns', AtDropFinalizer(inst, errsList), turn);
      turns' := turns' + [turn];
      if e != NoError {
        errsList := errsList + 1;
      }
      failed := errsList != 0;
    }

    /** Puts the finalizer on if it is missing, then creates a pod if none is claimed. */
    method Provision(key: Key, inst: Service, claimed: seq<Pod>, ghost turns: seq<Turn>)
      returns (failed: bool, ghost turns': seq<Turn>)
      requires api.Valid() && Leads(template, AtGet(key), turns, AtAddFinalizer(inst, claimed))
      modifies api
      ensures api.Valid() && Leads(template, AtGet(key), turns', Done(failed)) && Current(turns', api.cluster)
    {
      turns' := turns;
      ghost var turn := Turn(api.cluster, Answer(Served, [], false, "", ""), api.cluster);
      if FINALIZER_NAME !in inst.finalizers {
        var updated := inst.(finalizers := inst.finalizers + [FINALIZER_NAME]);
        var e;
        e, turn := api.UpdateService(updated);
        Onward(template, AtGet(key), turns', AtAddFinalizer(inst, claimed), turn);
        turns' := turns' + [turn];
        if e != NoError {
          return true, turns';
        }
      } else {
        Onward(template, AtGet(key), turns', AtAddFinalizer(inst, claimed), turn);
        turns' := turns' + [turn];
      }
      if |claimed| == 0 {
        failed, turns' := MakeOne(key, inst, turns');
        return;
      }
      return false, turns';
    }

    method MakeOne(key: Key, inst: Service, ghost turns: seq<Turn>) returns (failed: bool, ghost turns': seq<Turn>)
      requires api.Valid() && Leads(template, AtGet(key), turns, AtCreate(inst))
      modifies api
      ensures api.Valid() && Leads(template, AtGet(key), turns', Done(failed)) && Current(turns', api.cluster)
    {
      var pod, suffix := MakePod(inst);
      if pod.None? {
        ghost var uid := NewUid(api.cluster);
        ghost var turn := Turn(api.cluster, Answer(Served, [], false, suffix, uid), api.cluster);
        Onward(template, AtGet(key), turns, AtCreate(inst), turn);
        return true, turns + [turn];
      }
      var e;
      ghost var turn;
      e, turn := api.CreatePod(pod.value, suffix);
      Onward(template, AtGet(key), turns, AtCreate(inst), turn);
      failed, turns' := e != NoError, turns + [turn];
    }
  }

  ghost function NewUid(c: Cluster): (uid: Uid)
    ensures uid !in c.podUids
  {
    FreshText(c.podUids);
    var uid :| uid !in c.podUids;
    uid
  }

  lemma {:induction false} SplitSnoc(pods: seq<Pod>, p: Pod, active: bool)
    ensures Split(pods + [p], active) == Split(pods, active) + (if IsPodActive(p) == active then [p] else [])
  {
    var whole := pods + [p];
    var tail := if IsPodActive(p) == active then [p] else [];
    if pods == [] {
      assert whole == [p] && whole[1..] == [];
      assert Split(whole, active) == tail + Split(whole[1..], active);
    } else {
      var head := if IsPodActive(pods[0]) == active then [pods[0]] else [];
      SplitSnoc(pods[1..], p, active);
      assert whole[1..] == pods[1..] + [p];
      assert Split(whole, active) == head + Split(whole[1..], active);
      assert Split(pods, active) == head + Split(pods[1..], active);
    }
  }

  // ----- from the machine to the system -----

  lemma {:induction false} FollowsFront(t: Template, pc: PC, turns: seq<Turn>)
    requires Follows(t, pc, turns) && turns != []
    ensures InFlight(pc) && Admissible(turns[0].pre, pc, turns[0].ans)
    ensures turns[0].post == Step(t, turns[0].pre, pc, turns[0].ans).0
    ensures Follows(t, Step(t, turns[0].pre, pc, turns[0].ans).1, turns[1..])
    ensures Reached(t, pc, turns) == Reached(t, Step(t, turns[0].pre, pc, turns[0].ans).1, turns[1..])
    decreases |turns|
  {
    var n := |turns| - 1;
    if n == 0 {
      assert turns[..0] == [] && turns[1..] == [];
    } else {
      FollowsFront(t, pc, turns[..n]);
      assert turns[1..][..n - 1] == turns[..n][1..];
    }
  }

  /** Between the turns the others make moves of the system, none of them this worker's, and everybody
      keeps the rules. */
  ghost predicate Interleaved(s: Sys, key: Key, turns: seq<Turn>, others: seq<seq<Action>>, rules: set<Rule>)
    requires |others| == |turns|
    decreases |turns|
  {
    turns == [] ||
    (&& Runs(s, others[0]) && NotOurs(others[0], key) && Obeys(s, others[0], rules)
     && var s1 := After(s, others[0]);
        && s1.cluster == turns[0].pre && Enabled(s1, Work(key, turns[0].ans))
        && HoldAll(rules, s1, Work(key, turns[0].ans))
        && Interleaved(Apply(s1, Work(key, turns[0].ans)), key, turns[1..], others[1..], rules))
  }

  predicate NotOurs(run: seq<Action>, key: Key) {
    forall i | 0 <= i < |run| :: !(run[i].Begin? && run[i].key == key) && !(run[i].Work? && run[i].key == key)
  }

  lemma {:induction false} OthersLeaveWorker(s: Sys, run: seq<Action>, key: Key)
    requires Runs(s, run) && NotOurs(run, key) && key in s.workers
    ensures key in After(s, run).workers && After(s, run).workers[key] == s.workers[key]
    ensures After(s, run).template == s.template
    decreases |run|
  {
    if run != [] {
      OthersLeaveWorker(Apply(s, run[0]), run[1..], key);
    }
  }

  lemma {:induction false} RunsJoin(s: Sys, first: seq<Action>, second: seq<Action>, rules: set<Rule>)
    requires Runs(s, first) && Obeys(s, first, rules) && Runs(After(s, first), second)
    requires Obeys(After(s, first), second, rules)
    ensures Runs(s, first + second) && After(s, first + second) == After(After(s, first), second)
    ensures Obeys(s, first + second, rules)
    decreases |first|
  {
    if first == [] {
      assert first + second == second;
    } else {
      assert (first + second)[0] == first[0] && (first + second)[1..] == first[1..] + second;
      RunsJoin(Apply(s, first[0]), first[1..], second, rules);
    }
  }

  /** After the others' moves and the first turn the code stands before the rest of its turns. */
  lemma Opening(s: Sys, key: Key, pc: PC, turns: seq<Turn>, others: seq<seq<Action>>, rules: set<Rule>)
    returns (s2: Sys, later: seq<Turn>, moves: seq<seq<Action>>)
    requires key in s.workers && s.workers[key] == pc && Follows(s.template, pc, turns) && turns != []
    requires |others| == |turns| && Interleaved(s, key, turns, others, rules)
    ensures s2 == Apply(After(s, others[0]), Work(key, turns[0].ans)) && s2.cluster == turns[0].post
    ensures |later| == |turns| - 1 && forall i | 0 <= i < |later| :: later[i] == turns[i + 1]
    ensures key in s2.workers && Follows(s2.template, s2.workers[key], later)
    ensures |moves| == |later| && Interleaved(s2, key, later, moves, rules)
    ensures Reached(s.template, pc, turns) == Reached(s2.template, s2.workers[key], later)
  {
    OthersLeaveWorker(s, others[0], key);
    FollowsFront(s.template, pc, turns);
    s2, later, moves := Apply(After(s, others[0]), Work(key, turns[0].ans)), turns[1..], others[1..];
  }

  /** One turn after the others' moves, then the rest. */
  lemma Front(s: Sys, key: Key, turns: seq<Turn>, others: seq<seq<Action>>, rules: set<Rule>, rest: seq<Action>)
    returns (run: seq<Action>)
    requires turns != [] && |others| == |turns| && Interleaved(s, key, turns, others, rules)
    requires var s2 := Apply(After(s, others[0]), Work(key, turns[0].ans)); Runs(s2, rest) && Obeys(s2, rest, rules)
    ensures Runs(s, run) && Obeys(s, run, rules)
    ensures After(s, run) == After(Apply(After(s, others[0]), Work(key, turns[0].ans)), rest)
  {
    var a := Work(key, turns[0].ans);
    assert ([a] + rest)[1..] == rest;
    RunsJoin(s, others[0], [a] + rest, rules);
    run := others[0] + ([a] + rest);
  }

  /** The turns of a Reconcile, with the others' moves in between, are a run of the interleaved system that
      keeps the rules and in which its worker ends where the code ended: what is proved of all such runs
      holds of the code. */
  lemma {:induction false} CodeIsARun(s: Sys, key: Key, pc: PC, turns: seq<Turn>, others: seq<seq<Action>>,
                                      rules: set<Rule>)
    returns (run: seq<Action>)
    requires key in s.workers && s.workers[key] == pc && Follows(s.template, pc, turns)
    requires |others| == |turns| && Interleaved(s, key, turns, others, rules)
    ensures Runs(s, run) && Obeys(s, run, rules)
    ensures key in After(s, run).workers && After(s, run).workers[key] == Reached(s.template, pc, turns)
    ensures if turns == [] then run == [] else Current(turns, After(s, run).cluster)
    decreases |turns|
  {
    if turns == [] {
      run := [];
    } else {
      var s2, later, moves := Opening(s, key, pc, turns, others, rules);
      var rest := CodeIsARun(s2, key, s2.workers[key], later, moves, rules);
      run := Front(s, key, turns, others, rules, rest);
    }
  }

  /** The cluster that a call of the code leaves behind is reached by a run that keeps the rules. */
  lemma {:induction false} TurnIsAState(s: Sys, key: Key, pc: PC, turns: seq<Turn>, others: seq<seq<Action>>,
                                        rules: set<Rule>, i: nat)
    returns (run: seq<Action>)
    requires key in s.workers && s.workers[key] == pc && Follows(s.template, pc, turns) && i < |turns|
    requires |others| == |turns| && Interleaved(s, key, turns, others, rules)
    ensures Runs(s, run) && Obeys(s, run, rules) && After(s, run).cluster == turns[i].post
    decreases |turns|, 1
  {
    var rest := LaterTurns(s, key, pc, turns, others, rules, i);
    run := Front(s, key, turns, others, rules, rest);
  }

  /** From the first turn on. */
  lemma {:induction false} LaterTurns(s: Sys, key: Key, pc: PC, turns: seq<Turn>, others: seq<seq<Action>>,
                                      rules: set<Rule>, i: nat)
    returns (run: seq<Action>)
    requires key in s.workers && s.workers[key] == pc && Follows(s.template, pc, turns) && i < |turns|
    requires |others| == |turns| && Interleaved(s, key, turns, others, rules)
    ensures var s2 := Apply(After(s, others[0]), Work(key, turns[0].ans));
      Runs(s2, run) && Obeys(s2, run, rules) && After(s2, run).cluster == turns[i].post
    decreases |turns|, 0
  {
    var s2, later, moves := Opening(s, key, pc, turns, others, rules);
    if i == 0 {
      run := [];
    } else {
      assert later[i - 1] == turns[i];
      run := TurnIsAState(s2, key, s2.workers[key], later, moves, rules, i - 1);
    }
  }

  lemma {:induction false} ObeysFewer(s: Sys, run: seq<Action>, rules: set<Rule>, fewer: set<Rule>)
    requires Runs(s, run) && Obeys(s, run, rules) && fewer <= rules
    ensures Obeys(s, run, fewer)
    decreases |run|
  {
    if run != [] {
      ObeysFewer(Apply(s, run[0]), run[1..], rules, fewer);
    }
  }

  /** The code keeps both promises: whenever it has made a call of a Reconcile, with whatever others do in
      between, no Service has two active pods, and a Service with a live pod carries the finalizer, as long as
      the rules that each of the two needs are kept. */
  lemma CodeKeepsPromises(s: Sys, before: seq<Action>, key: Key, turns: seq<Turn>, others: seq<seq<Action>>,
                          rules: set<Rule>, i: nat)
    requires Init(s) && Runs(s, before) && Obeys(s, before, rules) && i < |turns|
    requires key in After(s, before).workers && After(s, before).workers[key] == AtGet(key)
    requires Follows(After(s, before).template, AtGet(key), turns)
    requires |others| == |turns| && Interleaved(After(s, before), key, turns, others, rules)
    ensures ProvisionSeesLive in rules ==> Safety.AtMostOnePod(turns[i].post)
    ensures Finalizer.GUARD_RULES <= rules ==> Finalizer.Guarded(turns[i].post)
  {
    var more := TurnIsAState(After(s, before), key, AtGet(key), turns, others, rules, i);
    RunsJoin(s, before, more, rules);
    var run := before + more;
    if ProvisionSeesLive in rules {
      ObeysFewer(s, run, rules, {ProvisionSeesLive});
      Safety.AtMostOnePodAlways(s, run);
    }
    if Finalizer.GUARD_RULES <= rules {
      ObeysFewer(s, run, rules, Finalizer.GUARD_RULES);
      Finalizer.FinalizerGuardsLivePods(s, run);
    }
  }
}
