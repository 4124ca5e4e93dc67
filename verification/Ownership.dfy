/** Any number of reference managers at work on the same objects, each from its own stale reads. */
module Ownership {
  import opened Objects
  import opened ApiServer
  import opened Claim
  import opened ClaimLoop

  datatype World = World(cluster: Cluster, claims: map<nat, State>)

  datatype Action =
    | Launch(id: nat, claim: State)
    | Act(id: nat, ans: Answer)
    | Make(pod: Pod)
    | Edit(pod: Pod)
    | Lose(key: Key)
    | Owners(services: map<Key, Service>)

  ghost predicate Enabled(w: World, a: Action) {
    var c := w.cluster;
    match a
    case Launch(id, claim) => claim.next == 0 && forall i | 0 <= i < |claim.objs| :: Genuine(c, claim.objs[i])
    case Act(id, _) => id in w.claims && !Finished(w.claims[id])
    case Make(pod) => pod.key !in c.pods && pod.uid !in c.podUids && ControllerCount(pod.ownerRefs) <= 1
    case Edit(pod) => pod.key in c.pods && pod.uid == c.pods[pod.key].uid && pod.ownerRefs == c.pods[pod.key].ownerRefs
    case Lose(key) => key in c.pods
    case Owners(_) => true
  }

  ghost function Apply(w: World, a: Action): World
    requires Enabled(w, a)
  {
    var c := w.cluster;
    match a
    case Launch(id, claim) => w.(claims := w.claims[id := claim])
    case Act(id, ans) =>
      var r := Step(c, w.claims[id], ans);
      w.(cluster := r.0, claims := w.claims[id := r.1])
    case Make(pod) => w.(cluster := StorePod(c, pod).(podUids := c.podUids + {pod.uid}))
    case Edit(pod) => w.(cluster := StorePod(c, pod))
    case Lose(key) => w.(cluster := RemovePod(c, key))
    case Owners(services) => w.(cluster := c.(services := services))
  }

  ghost predicate Inv(w: World) {
    && (forall k | k in w.cluster.pods ::
          var p := w.cluster.pods[k];
          p.key == k && p.version <= w.cluster.revision && p.uid in w.cluster.podUids &&
            ControllerCount(p.ownerRefs) <= 1)
    && (forall id | id in w.claims :: forall i | 0 <= i < |w.claims[id].objs| ::
          Genuine(w.cluster, w.claims[id].objs[i]))
  }

  /** Every object has at most one controller. */
  ghost predicate Exclusive(c: Cluster) {
    forall k | k in c.pods :: ControllerCount(c.pods[k].ownerRefs) <= 1
  }

  // ----- one step -----

  /** A write changes the stored object only if it is still the one that was read, and then moves the
      controller from nobody to the manager's owner, or from that owner to nobody. */
  ghost predicate Moved(m: Manager, p: Pod, q: Pod) {
    && q.uid == p.uid && q.key == p.key && ControllerCount(q.ownerRefs) <= 1
    && if ControllerUid(p) == None
       then ControllerUid(q) == Some(m.owner.uid) && Match(m, p) && !p.deleting
       else ControllerUid(p) == Some(m.owner.uid) && !Match(m, p) && ControllerUid(q) in {None, ControllerUid(p)}
  }

  lemma WriteMoves(st: State)
    requires !Finished(st) && NextCall(st).Write? && ControllerCount(st.objs[st.next].ownerRefs) <= 1
    ensures Moved(st.mgr, st.objs[st.next], NextCall(st).written)
  {
    var p := st.objs[st.next];
    WritesOwnOrOrphan(st);
    NoControllers(p.ownerRefs);
    if Decide(st.mgr, p).Adopt? {
      UpsertCountsOne(p.ownerRefs, ControllerRef(st.mgr.owner));
    } else {
      ReleaseMoves(st.mgr.owner, p);
    }
  }

  lemma ReleaseMoves(owner: Owner, p: Pod)
    requires ControllerUid(p) == Some(owner.uid) && ControllerCount(p.ownerRefs) <= 1
    ensures ControllerUid(Released(owner, p)) == None || ControllerUid(Released(owner, p)) == Some(owner.uid)
    ensures ControllerCount(Released(owner, p).ownerRefs) <= 1
  {
    var refs := p.ownerRefs;
    var i := FirstWithUid(refs, owner.uid);
    ReleaseFreesIff(owner, p);
    RemoveCounts(refs, i);
    NoControllers(refs);
    if !refs[i].controller {
      RemoveKeepsController(refs, i);
    }
  }

  lemma {:induction false} RemoveKeepsController(refs: seq<OwnerRef>, i: nat)
    requires i < |refs| && !refs[i].controller
    ensures ControllerOf(RemoveAt(refs, i)) == ControllerOf(refs)
  {
    if i == 0 {
      assert RemoveAt(refs, 0) == refs[1..];
    } else {
      RemoveKeepsController(refs[1..], i - 1);
      assert RemoveAt(refs, i) == [refs[0]] + RemoveAt(refs[1..], i - 1);
      assert ([refs[0]] + RemoveAt(refs[1..], i - 1))[1..] == RemoveAt(refs[1..], i - 1);
    }
  }

  /** What one manager's step does to the store. */
  lemma ActEffect(w: World, id: nat, ans: Answer)
    requires Inv(w) && Enabled(w, Act(id, ans))
    ensures var c, d, st := w.cluster, Apply(w, Act(id, ans)).cluster, w.claims[id];
      d == c ||
      (var k := st.objs[st.next].key;
       k in c.pods && NextCall(st).Write? && d == StorePod(c, NextCall(st).written)
       && NextCall(st).written.key == k && Moved(st.mgr, c.pods[k], NextCall(st).written))
  {
    var st := w.claims[id];
    var call := NextCall(st);
    if call.Write? && Apply(w, Act(id, ans)).cluster != w.cluster {
      var p := st.objs[st.next];
      assert Genuine(w.cluster, p);
      WritesOwnOrOrphan(st);
      NoLostUpdate(w.cluster, p, call.written, ans.fault);
      WriteMoves(st);
    }
  }

  lemma StepLater(w: World, a: Action)
    requires Inv(w) && Enabled(w, a)
    ensures var c, d := w.cluster, Apply(w, a).cluster;
      && c.revision <= d.revision && c.podUids <= d.podUids
      && (forall k | k in d.pods :: (k in c.pods && d.pods[k] == c.pods[k]) || d.pods[k].version > c.revision)
  {
    if a.Act? { ActEffect(w, a.id, a.ans); }
  }

  lemma InvStep(w: World, a: Action)
    requires Inv(w) && Enabled(w, a)
    ensures Inv(Apply(w, a))
  {
    var w' := Apply(w, a);
    StepLater(w, a);
    if a.Act? { ActEffect(w, a.id, a.ans); }
    forall id, i | id in w'.claims && 0 <= i < |w'.claims[id].objs| ensures Genuine(w'.cluster, w'.claims[id].objs[i]) {
      if a.Launch? && a.id == id {
      } else {
        assert Genuine(w.cluster, w.claims[id].objs[i]);
      }
    }
  }

  /** The owner a step acts for. */
  function Actor(w: World, a: Action): Option<Uid> {
    if a.Act? && a.id in w.claims then Some(w.claims[a.id].mgr.owner.uid) else None
  }

  /** How the controller of the object at `k` can change in one step: not at all, from nobody to the
      acting manager's owner, or from the acting manager's owner to nobody. */
  ghost predicate LegalMove(w: World, a: Action, k: Key)
    requires Enabled(w, a)
  {
    var c, d := w.cluster, Apply(w, a).cluster;
    k in c.pods && k in d.pods && c.pods[k].uid == d.pods[k].uid ==>
      var before, after := ControllerUid(c.pods[k]), ControllerUid(d.pods[k]);
      before == after ||
      (Actor(w, a).Some? && ((before == None && after == Actor(w, a)) || (before == Actor(w, a) && after == None)))
  }

  lemma StepMoves(w: World, a: Action, k: Key)
    requires Inv(w) && Enabled(w, a)
    ensures LegalMove(w, a, k)
  {
    var c, d := w.cluster, Apply(w, a).cluster;
    if a.Act? {
      ActEffect(w, a.id, a.ans);
      if d != c {
        var q := NextCall(w.claims[a.id]).written;
        assert ControllerUid(d.pods[q.key]) == ControllerUid(q);
      }
    } else if a.Edit? {
      assert ControllerUid(d.pods[a.pod.key]) == ControllerUid(c.pods[a.pod.key]);
    }
  }

  // ----- runs -----

  ghost predicate Runs(w: World, run: seq<Action>)
    decreases |run|
  {
    run == [] || (Enabled(w, run[0]) && Runs(Apply(w, run[0]), run[1..]))
  }

  ghost function After(w: World, run: seq<Action>): World
    requires Runs(w, run)
    decreases |run|
  {
    if run == [] then w else After(Apply(w, run[0]), run[1..])
  }

  lemma {:induction false} InvAlways(w: World, run: seq<Action>)
    requires Inv(w) && Runs(w, run)
    ensures Inv(After(w, run))
    decreases |run|
  {
    if run != [] {
      InvStep(w, run[0]);
      InvAlways(Apply(w, run[0]), run[1..]);
    }
  }

  /** However many managers interleave, from however stale reads, every object always has at most one
      controller, and each step moves it only to or from the owner that step acts for. */
  lemma ExclusiveOwnership(w: World, run: seq<Action>, a: Action, k: Key)
    requires Inv(w) && Runs(w, run) && Enabled(After(w, run), a)
    ensures Exclusive(After(w, run).cluster)
    ensures LegalMove(After(w, run), a, k)
  {
    InvAlways(w, run);
    StepMoves(After(w, run), a, k);
  }

  ghost predicate HeldBy(c: Cluster, k: Key, uid: Uid, owner: Option<Uid>) {
    k in c.pods && c.pods[k].uid == uid && ControllerUid(c.pods[k]) == owner
  }

  /** An object that is gone does not come back. */
  lemma {:induction false} GoneStaysGone(w: World, run: seq<Action>, k: Key, uid: Uid)
    requires Inv(w) && Runs(w, run) && uid in w.cluster.podUids
    requires !(k in w.cluster.pods && w.cluster.pods[k].uid == uid)
    ensures var c := After(w, run).cluster; !(k in c.pods && c.pods[k].uid == uid)
    decreases |run|
  {
    if run != [] {
      if run[0].Act? { ActEffect(w, run[0].id, run[0].ans); }
      StepLater(w, run[0]);
      InvStep(w, run[0]);
      GoneStaysGone(Apply(w, run[0]), run[1..], k, uid);
    }
  }

  /** Ownership is never taken over directly: between two different owners of the same object there is
      a state in which it has none. */
  lemma {:induction false} HandoverThroughOrphan(w: World, run: seq<Action>, k: Key, uid: Uid, first: Uid,
                                                 second: Uid) returns (n: nat)
    requires Inv(w) && Runs(w, run) && first != second
    requires HeldBy(w.cluster, k, uid, Some(first)) && HeldBy(After(w, run).cluster, k, uid, Some(second))
    ensures 0 < n < |run| && Runs(w, run[..n]) && HeldBy(After(w, run[..n]).cluster, k, uid, None)
    decreases |run|
  {
    var w1 := Apply(w, run[0]);
    InvStep(w, run[0]);
    StepMoves(w, run[0], k);
    StepLater(w, run[0]);
    assert run[1..] == [] ==> After(w1, run[1..]) == w1;
    if !(k in w1.cluster.pods && w1.cluster.pods[k].uid == uid) {
      GoneStaysGone(w1, run[1..], k, uid);
      assert false;
    } else if HeldBy(w1.cluster, k, uid, None) {
      n := 1;
      assert run[..1][1..] == [];
    } else {
      var m := HandoverThroughOrphan(w1, run[1..], k, uid, first, second);
      n := m + 1;
      assert run[..n][0] == run[0] && run[..n][1..] == run[1..][..m];
    }
  }
}
