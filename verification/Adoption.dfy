/** What a claim makes of the objects and of the owner it fetches, stated on their fields. */
module Adoption {
  import opened Objects
  import opened ApiServer
  import opened Claim
  import opened ClaimLoop

  /** No reference says that it is the managing controller. */
  predicate Uncontrolled(p: Pod) {
    forall i | 0 <= i < |p.ownerRefs| :: !p.ownerRefs[i].controller
  }

  /** Every label of the selector is there with its value, and every filter agrees. */
  predicate Fits(m: Manager, p: Pod) {
    && (forall k | k in m.selector :: k in p.labels && p.labels[k] == m.selector[k])
    && (forall i | 0 <= i < |m.filters| :: m.filters[i](p))
  }

  predicate Adoptable(m: Manager, p: Pod) {
    Uncontrolled(p) && Fits(m, p) && !p.deleting && !m.owner.deleting
  }

  ghost predicate Misfit(m: Manager, p: Pod) {
    ControlledBy(p.ownerRefs, m.owner.uid) && !Fits(m, p) && !m.owner.deleting
  }

  lemma DecideOnFields(m: Manager, p: Pod)
    ensures Decide(m, p).Adopt? <==> Adoptable(m, p)
    ensures Decide(m, p).Keep? <==> ControlledBy(p.ownerRefs, m.owner.uid) && Fits(m, p)
    ensures Decide(m, p).Release? <==> Misfit(m, p)
    ensures Uncontrolled(p) ==> !Decide(m, p).Keep? && !Decide(m, p).Release?
  {
    UncontrolledMeans(p.ownerRefs);
    ControlledMeans(p.ownerRefs, m.owner.uid);
  }

  // ----- the owner as it was fetched -----

  /** The fetch was answered, and what was stored under the owner's key was the owner itself, not on its way
      out. */
  predicate FoundAlive(owner: Owner, t: Turn) {
    && t.ans.fault.Served? && owner.key in t.pre.services
    && t.pre.services[owner.key].uid == owner.uid && !t.pre.services[owner.key].deleting
  }

  lemma FetchGivesVerdict(at: State, t: Turn, after: State)
    requires Linked(at, t, after) && NextCall(at).GetOwner?
    ensures after.verdict == Some(FoundAlive(at.mgr.owner, t))
  {
  }

  /** The verdict is what the one fetch found. */
  lemma VerdictIsTheFetch(st: State, turns: seq<Turn>, n: nat)
    requires Plays(st, turns) && n < |turns| && AsksOwner(st, turns, n)
    ensures Play(st, turns).verdict == Some(FoundAlive(st.mgr.owner, turns[n]))
  {
    var states := States(st, turns);
    PlaysPrefix(st, turns, n);
    PlayKeeps(st, turns[..n]);
    assert states[n] == Before(st, turns, n);
    FetchGivesVerdict(states[n], turns[n], states[n + 1]);
    StatesKeep(states, turns, n + 1, |turns|);
  }

  lemma {:induction false} VerdictNeedsFetch(states: seq<State>, turns: seq<Turn>, m: nat) returns (n: nat)
    requires Between(states, turns) && m <= |turns| && states[0].verdict == None && states[m].verdict.Some?
    ensures n < m && !Finished(states[n]) && NextCall(states[n]).GetOwner?
  {
    assert Linked(states[m - 1], turns[m - 1], states[m]);
    if states[m - 1].verdict.Some? {
      n := VerdictNeedsFetch(states, turns, m - 1);
    } else {
      n := m - 1;
    }
  }

  /** The object that turn `n` writes, if it writes one. */
  ghost predicate WritesObject(st: State, turns: seq<Turn>, n: nat, p: Pod)
    requires Plays(st, turns) && n < |turns|
  {
    var at := Before(st, turns, n);
    !Finished(at) && NextCall(at).Write? && at.objs[at.next] == p
  }

  /** If the fetch fails, or finds nobody, somebody else under the same name or the owner on its way out, no
      orphan is claimed or written, and in the end every adoptable one has failed, once each. */
  lemma DeadOwnerAdoptsNothing(st: State, turns: seq<Turn>, n: nat)
    requires st.next == 0 && st.claimed == [] && st.errs == 0 && Plays(st, turns)
    requires n < |turns| && AsksOwner(st, turns, n) && !FoundAlive(st.mgr.owner, turns[n])
    ensures forall i: nat | i < |st.objs| && Uncontrolled(st.objs[i]) :: i !in Play(st, turns).claimed
    ensures forall m: nat, p | m < |turns| && WritesObject(st, turns, m, p) :: !Uncontrolled(p)
    ensures Finished(Play(st, turns)) ==> exists errored: seq<nat> ::
      && (forall i: nat | i < |st.objs| && Adoptable(st.mgr, st.objs[i]) :: i in errored)
      && (forall i: nat | i in errored ::
            i < |st.objs| && (Adoptable(st.mgr, st.objs[i]) || Misfit(st.mgr, st.objs[i])))
      && (forall i, j | 0 <= i < j < |errored| :: errored[i] < errored[j])
      && Play(st, turns).errs == |errored|
  {
    VerdictIsTheFetch(st, turns, n);
    forall i: nat | i < |st.objs| && Uncontrolled(st.objs[i]) ensures i !in Play(st, turns).claimed {
      OrphanUnclaimed(st, turns, i);
    }
    forall m: nat, p | m < |turns| && WritesObject(st, turns, m, p) ensures !Uncontrolled(p) {
      RefusedVerdictWritesNoOrphan(st, turns, m);
      DecideOnFields(Before(st, turns, m).mgr, p);
    }
    if Finished(Play(st, turns)) {
      RefusedVerdict(st, turns);
      forall i: nat | i < |st.objs| {
        DecideOnFields(st.mgr, st.objs[i]);
      }
    }
  }

  lemma OrphanUnclaimed(st: State, turns: seq<Turn>, i: nat)
    requires st.next == 0 && st.claimed == [] && st.errs == 0 && Plays(st, turns)
    requires Play(st, turns).verdict == Some(false) && i < |st.objs| && Uncontrolled(st.objs[i])
    ensures i !in Play(st, turns).claimed
  {
    var os, written, when := ClaimLoopSpec(st, turns);
    DecideOnFields(st.mgr, st.objs[i]);
    if i < |os| {
      assert Entry(st, turns, i, Some(false), os[i], written[i], when[i]);
    }
  }

  /** An orphan can be adopted exactly within the owner's namespace, if it has one; then the owner's reference,
      as controller, is put in its place and nothing else is touched. */
  lemma AdoptedObject(o: Owner, p: Pod)
    requires Uncontrolled(p)
    ensures SetControllerReference(o, p).Some? <==> o.key.namespace == "" || o.key.namespace == p.key.namespace
    ensures SetControllerReference(o, p).Some? ==>
      var q := SetControllerReference(o, p).value;
      q == p.(ownerRefs := q.ownerRefs) &&
      Placed(p.ownerRefs, OwnerRef(o.kind, o.key.name, o.uid, true), q.ownerRefs)
  {
    UncontrolledMeans(p.ownerRefs);
    var i := UpsertPlaces(p.ownerRefs, ControllerRef(o));
  }

  /** An orphan is written only after a fetch that was answered with the owner itself, not on its way out, and
      what is written is the orphan with the owner's reference in its place. */
  lemma AdoptionFollowsFetch(st: State, turns: seq<Turn>, m: nat, p: Pod) returns (n: nat)
    requires st.verdict == None && Plays(st, turns) && m < |turns|
    requires WritesObject(st, turns, m, p) && Uncontrolled(p)
    ensures n < m && AsksOwner(st, turns, n) && FoundAlive(st.mgr.owner, turns[n])
    ensures var q, o := NextCall(Before(st, turns, m)).written, st.mgr.owner;
      q == p.(ownerRefs := q.ownerRefs) &&
      Placed(p.ownerRefs, OwnerRef(o.kind, o.key.name, o.uid, true), q.ownerRefs)
  {
    var states := States(st, turns);
    assert turns[..0] == [];
    PlaysPrefix(st, turns, m);
    PlayKeeps(st, turns[..m]);
    AdoptedObject(st.mgr.owner, p);
    DecideOnFields(states[m].mgr, p);
    n := VerdictNeedsFetch(states, turns, m);
    VerdictIsTheFetch(st, turns, n);
    StatesKeep(states, turns, m, |turns|);
  }

  // ----- what is claimed -----

  lemma EntryOnFields(st: State, turns: seq<Turn>, i: nat, verdict: Option<bool>, o: ClaimLoop.Outcome, written: bool,
                      when: int)
    requires i < |st.objs| && Entry(st, turns, i, verdict, o, written, when)
    ensures var p := st.objs[i];
      && (o == Claimed ==> Adoptable(st.mgr, p) || (ControlledBy(p.ownerRefs, st.mgr.owner.uid) && Fits(st.mgr, p)))
      && (o == Skipped ==> !Adoptable(st.mgr, p) && !(ControlledBy(p.ownerRefs, st.mgr.owner.uid) && Fits(st.mgr, p)))
      && (o == Skipped && Misfit(st.mgr, p) ==> WroteAt(st, turns, i, when, true))
  {
    DecideOnFields(st.mgr, st.objs[i]);
  }

  /** What a claim returns: only the owner's own objects that still fit and orphans that fit and are not on
      their way out.  A claim that ends without an error returns all of them, and has written every object of
      the owner that no longer fits. */
  lemma ClaimedIff(st: State, turns: seq<Turn>)
    requires st.next == 0 && st.claimed == [] && st.errs == 0 && Plays(st, turns)
    ensures forall i: nat | i in Play(st, turns).claimed ::
      i < |st.objs| && var p := st.objs[i];
      Adoptable(st.mgr, p) || (ControlledBy(p.ownerRefs, st.mgr.owner.uid) && Fits(st.mgr, p))
    ensures Finished(Play(st, turns)) && Play(st, turns).errs == 0 ==> forall i: nat | i < |st.objs| ::
      var p := st.objs[i];
      && (i in Play(st, turns).claimed <==>
            Adoptable(st.mgr, p) || (ControlledBy(p.ownerRefs, st.mgr.owner.uid) && Fits(st.mgr, p)))
      && (Misfit(st.mgr, p) ==> exists n :: WroteAt(st, turns, i, n, true))
  {
    var os, written, when := ClaimLoopSpec(st, turns);
    PlayKeeps(st, turns);
    var now := Play(st, turns);
    forall i: nat | i < |os| ensures Entry(st, turns, i, now.verdict, os[i], written[i], when[i]) {}
    forall i: nat | i < |os| {
      EntryOnFields(st, turns, i, now.verdict, os[i], written[i], when[i]);
    }
    if Finished(now) && now.errs == 0 {
      forall i: nat | i < |st.objs| ensures os[i] != Errored {
        assert i !in Where(os, Errored, |os|);
      }
    }
  }
}
