/** What a whole claim does, for any answers and any interference between its calls. */
module ClaimLoop {
  import opened Objects
  import opened ApiServer
  import opened Claim

  /** One step as it happened: the cluster the others had left behind, the answer, and the cluster
      afterwards. */
  datatype Turn = Turn(pre: Cluster, ans: Answer, post: Cluster)

  predicate Plays(st: State, turns: seq<Turn>)
    decreases |turns|, 0
  {
    turns == [] ||
    (var n := |turns| - 1;
     && Plays(st, turns[..n]) && !Finished(Play(st, turns[..n]))
     && turns[n].post == Step(turns[n].pre, Play(st, turns[..n]), turns[n].ans).0)
  }

  function Play(st: State, turns: seq<Turn>): State
    requires Plays(st, turns)
    decreases |turns|, 1
  {
    if turns == [] then st
    else
      var last := turns[|turns| - 1];
      Step(last.pre, Play(st, turns[..|turns| - 1]), last.ans).1
  }

  lemma PlayOne(st: State, turns: seq<Turn>, t: Turn)
    requires Plays(st, turns) && !Finished(Play(st, turns)) && t.post == Step(t.pre, Play(st, turns), t.ans).0
    ensures Plays(st, turns + [t]) && Play(st, turns + [t]) == Step(t.pre, Play(st, turns), t.ans).1
  {
    assert (turns + [t])[..|turns|] == turns;
  }

  /** The last turn of a play. */
  lemma PlayLast(st: State, turns: seq<Turn>)
    requires Plays(st, turns) && turns != []
    ensures var n := |turns| - 1;
      && Plays(st, turns[..n]) && !Finished(Play(st, turns[..n]))
      && turns[n].post == Step(turns[n].pre, Play(st, turns[..n]), turns[n].ans).0
      && Play(st, turns) == Step(turns[n].pre, Play(st, turns[..n]), turns[n].ans).1
  {
  }

  /** The turns are a play from `st` that now stands at `now`. */
  ghost predicate Stands(st: State, turns: seq<Turn>, now: State) {
    Plays(st, turns) && Play(st, turns) == now
  }

  ghost predicate Linked(at: State, t: Turn, after: State) {
    !Finished(at) && t.post == Step(t.pre, at, t.ans).0 && after == Step(t.pre, at, t.ans).1
  }

  lemma StandsOne(st: State, turns: seq<Turn>, now: State, t: Turn, after: State)
    requires Stands(st, turns, now) && Linked(now, t, after)
    ensures Stands(st, turns + [t], after)
  {
    PlayOne(st, turns, t);
  }

  lemma StandsLast(st: State, turns: seq<Turn>, now: State) returns (prev: State)
    requires Stands(st, turns, now) && turns != []
    ensures Stands(st, turns[..|turns| - 1], prev) && Linked(prev, turns[|turns| - 1], now)
  {
    PlayLast(st, turns);
    prev := Play(st, turns[..|turns| - 1]);
  }

  lemma JoinSnoc(first: seq<Turn>, second: seq<Turn>)
    requires second != []
    ensures (first + second[..|second| - 1]) + [second[|second| - 1]] == first + second
  {
  }

  lemma {:induction false} StandsJoin(st: State, first: seq<Turn>, mid: State, second: seq<Turn>, now: State)
    requires Stands(st, first, mid) && Stands(mid, second, now)
    ensures Stands(st, first + second, now)
    decreases |second|
  {
    if second == [] {
      assert first + second == first;
    } else {
      var n := |second| - 1;
      var prev := StandsLast(mid, second, now);
      StandsJoin(st, first, mid, second[..n], prev);
      StandsOne(st, first + second[..n], prev, second[n], now);
      JoinSnoc(first, second);
    }
  }

  /** A step that makes no call changes nothing. */
  lemma StandsLocal(st: State, c: Cluster, ans: Answer)
    requires !Finished(st) && NextCall(st).NoCall?
    ensures Stands(st, [Turn(c, ans, c)], Step(c, st, ans).1)
  {
    PlayOne(st, [], Turn(c, ans, c));
    assert [] + [Turn(c, ans, c)] == [Turn(c, ans, c)];
  }

  lemma {:induction false} PlaysPrefix(st: State, turns: seq<Turn>, n: nat)
    requires Plays(st, turns) && n <= |turns|
    ensures Plays(st, turns[..n])
    ensures n < |turns| ==>
      !Finished(Play(st, turns[..n])) && turns[n].post == Step(turns[n].pre, Play(st, turns[..n]), turns[n].ans).0
    decreases |turns|
  {
    if n < |turns| - 1 {
      var shorter := turns[..|turns| - 1];
      PlaysPrefix(st, shorter, n);
      assert shorter[..n] == turns[..n];
    } else if n == |turns| {
      assert turns[..n] == turns;
    }
  }

  /** The state in which turn `n` is taken. */
  function Before(st: State, turns: seq<Turn>, n: nat): State
    requires Plays(st, turns) && n <= |turns|
  {
    PlaysPrefix(st, turns, n);
    Play(st, turns[..n])
  }

  lemma {:induction false} PlayKeeps(st: State, turns: seq<Turn>)
    requires Plays(st, turns)
    ensures Play(st, turns).mgr == st.mgr && Play(st, turns).objs == st.objs
    decreases |turns|
  {
    if turns != [] {
      PlayKeeps(st, turns[..|turns| - 1]);
    }
  }

  // ----- the adoption verdict is taken once -----

  predicate AsksOwner(st: State, turns: seq<Turn>, n: nat)
    requires Plays(st, turns) && n < |turns|
  {
    PlaysPrefix(st, turns, n);
    NextCall(Before(st, turns, n)).GetOwner?
  }

  /** Across any list of objects the owner is fetched at most once, and only for an adoptable orphan. */
  lemma OwnerAskedOnce(st: State, turns: seq<Turn>, m: nat, n: nat)
    requires Plays(st, turns) && m < |turns| && n < |turns| && AsksOwner(st, turns, m) && AsksOwner(st, turns, n)
    ensures m == n
    ensures exists i :: 0 <= i < |st.objs| && Decide(st.mgr, st.objs[i]).Adopt?
  {
    PlaysPrefix(st, turns, m);
    PlaysPrefix(st, turns, n);
    if m < n {
      AskedThenKnown(st, turns, m, n);
    } else if n < m {
      AskedThenKnown(st, turns, n, m);
    }
    PlayKeeps(st, turns[..m]);
    var at := Before(st, turns, m);
    assert Decide(st.mgr, st.objs[at.next]).Adopt?;
  }

  /** What turn `n` does, from the state before it to the state after it. */
  lemma TurnTaken(st: State, turns: seq<Turn>, n: nat)
    requires Plays(st, turns) && n < |turns|
    ensures var at := Before(st, turns, n);
      && !Finished(at) && turns[n].post == Step(turns[n].pre, at, turns[n].ans).0
      && Before(st, turns, n + 1) == Step(turns[n].pre, at, turns[n].ans).1
  {
    PlaysPrefix(st, turns, n + 1);
    PlayLast(st, turns[..n + 1]);
    assert turns[..n + 1][..n] == turns[..n];
  }

  /** The states between the turns. */
  ghost predicate Between(states: seq<State>, turns: seq<Turn>) {
    && |states| == |turns| + 1
    && (forall n {:trigger turns[n]} | 0 <= n < |turns| :: Linked(states[n], turns[n], states[n + 1]))
  }

  lemma States(st: State, turns: seq<Turn>) returns (states: seq<State>)
    requires Plays(st, turns)
    ensures Between(states, turns) && states[|turns|] == Play(st, turns)
    ensures forall n | 0 <= n <= |turns| :: states[n] == Before(st, turns, n)
  {
    states := seq(|turns| + 1, n requires 0 <= n <= |turns| => Before(st, turns, n));
    forall n | 0 <= n < |turns| ensures Linked(states[n], turns[n], states[n + 1]) {
      TurnTaken(st, turns, n);
    }
    assert turns[..|turns|] == turns;
  }

  lemma LinkKeeps(at: State, t: Turn, after: State)
    requires Linked(at, t, after)
    ensures at.verdict.Some? ==> after.verdict == at.verdict
    ensures after.errs >= at.errs
    ensures NextCall(at).GetOwner? ==> at.verdict.None? && after.verdict.Some?
  {
  }

  /** A verdict stays and errors are not forgotten. */
  lemma {:induction false} StatesKeep(states: seq<State>, turns: seq<Turn>, m: nat, n: nat)
    requires Between(states, turns) && m <= n <= |turns|
    ensures states[m].verdict.Some? ==> states[n].verdict == states[m].verdict
    ensures states[n].errs >= states[m].errs
  {
    if m < n {
      StatesKeep(states, turns, m, n - 1);
      LinkKeeps(states[n - 1], turns[n - 1], states[n]);
    }
  }

  lemma AskedThenKnown(st: State, turns: seq<Turn>, m: nat, n: nat)
    requires Plays(st, turns) && m < n < |turns| && AsksOwner(st, turns, m)
    ensures !AsksOwner(st, turns, n)
  {
    var states := States(st, turns);
    LinkKeeps(states[m], turns[m], states[m + 1]);
    StatesKeep(states, turns, m + 1, n);
    LinkKeeps(states[n], turns[n], states[n + 1]);
  }

  // ----- a vanished object is an error -----

  /** The branches that forgive NotFound are never taken, because adopt and release flatten the error: a
      write to an object that has vanished fails that object, and with it the claim. */
  lemma VanishedFails(st: State, turns: seq<Turn>, n: nat)
    requires Plays(st, turns) && n < |turns| && !Finished(Before(st, turns, n))
    requires NextCall(Before(st, turns, n)).Write? && NextCall(Before(st, turns, n)).written.key !in turns[n].pre.pods
    ensures Before(st, turns, n + 1) == Fail(Before(st, turns, n)) && turns[n].post == turns[n].pre
    ensures Play(st, turns).errs > 0
  {
    var states := States(st, turns);
    VanishedLink(states[n], turns[n], states[n + 1]);
    StatesKeep(states, turns, n + 1, |turns|);
  }

  lemma VanishedLink(at: State, t: Turn, after: State)
    requires Linked(at, t, after) && NextCall(at).Write? && NextCall(at).written.key !in t.pre.pods
    ensures after == Fail(at) && t.post == t.pre
  {
  }

  // ----- what the loop returns -----

  datatype Outcome = Skipped | Claimed | Errored

  /** What becomes of one object, given the verdict on adoption and whether its write went through. */
  function Expected(m: Manager, p: Pod, mayAdopt: bool, written: bool): Outcome {
    match Decide(m, p)
    case Ignore => Skipped
    case Keep => Claimed
    case Release => if written then Skipped else Errored
    case Adopt => if mayAdopt && SetControllerReference(m.owner, p).Some? && written then Claimed else Errored
  }

  /** The indices below `n` with the given outcome, in order. */
  function Where(os: seq<Outcome>, o: Outcome, n: nat): (r: seq<nat>)
    requires n <= |os|
    ensures forall i: nat :: i in r <==> i < n && os[i] == o
    ensures forall i, j | 0 <= i < j < |r| :: r[i] < r[j]
    ensures |r| <= n
  {
    if n == 0 then []
    else
      var rest := Where(os, o, n - 1);
      assert forall i | 0 <= i < |rest| :: rest[i] in rest;
      if os[n - 1] == o then rest + [n - 1] else rest
  }

  /** The write for object `i` was made at turn `n`, and `ok` tells whether it was acknowledged. */
  predicate WroteAt(st: State, turns: seq<Turn>, i: nat, n: int, ok: bool) {
    0 <= n < |turns| && Plays(st, turns[..n]) && WritesIn(Play(st, turns[..n]), turns[n], i, ok)
  }

  predicate WritesIn(at: State, t: Turn, i: nat, ok: bool) {
    && !Finished(at) && at.next == i && NextCall(at).Write?
    && ok == (UpdatePod(t.pre, NextCall(at).written, t.ans.fault).error == NoError)
  }

  lemma WroteAtLonger(st: State, turns: seq<Turn>, t: Turn, i: nat, n: int, ok: bool)
    requires WroteAt(st, turns, i, n, ok)
    ensures WroteAt(st, turns + [t], i, n, ok)
  {
    assert (turns + [t])[..n] == turns[..n];
  }

  /** A record of a claim so far: the outcome of every object that is done, and for every write the
      turn it was made in. */
  ghost predicate Explains(st: State, turns: seq<Turn>, os: seq<Outcome>, written: seq<bool>, when: seq<int>)
    requires Plays(st, turns)
  {
    Recorded(st, turns, Play(st, turns), os, written, when)
  }

  ghost predicate Recorded(st: State, turns: seq<Turn>, now: State, os: seq<Outcome>, written: seq<bool>,
                           when: seq<int>) {
    && Entries(st, turns, now.verdict, os, written, when) && |os| == now.next
    && now.claimed == Where(os, Claimed, |os|)
    && now.errs == |Where(os, Errored, |os|)|
  }

  ghost predicate Entry(st: State, turns: seq<Turn>, i: nat, verdict: Option<bool>, o: Outcome, written: bool,
                        when: int)
    requires i < |st.objs|
  {
    && o == Expected(st.mgr, st.objs[i], verdict == Some(true), written)
    && (Decide(st.mgr, st.objs[i]).Adopt? ==> verdict.Some?)
    && (if Writes(st.mgr, st.objs[i], verdict == Some(true)) then WroteAt(st, turns, i, when, written) else !written)
  }

  /** The object is one the manager has to write to. */
  predicate Writes(m: Manager, p: Pod, mayAdopt: bool) {
    Decide(m, p).Release? || (Decide(m, p).Adopt? && mayAdopt && SetControllerReference(m.owner, p).Some?)
  }

  lemma WherePrefix(os: seq<Outcome>, o: Outcome, x: Outcome)
    ensures Where(os + [x], o, |os| + 1) == Where(os, o, |os|) + (if x == o then [|os|] else [])
  {
    WhereSame(os, os + [x], o, |os|);
  }

  lemma {:induction false} WhereSame(os: seq<Outcome>, longer: seq<Outcome>, o: Outcome, n: nat)
    requires n <= |os| <= |longer| && longer[..|os|] == os
    ensures Where(longer, o, n) == Where(os, o, n)
  {
    if n > 0 {
      WhereSame(os, longer, o, n - 1);
      assert longer[n - 1] == longer[..|os|][n - 1];
    }
  }

  /** What one step records about the object it finishes. */
  lemma StepOutcome(now: State, t: Turn) returns (o: Outcome, ok: bool)
    requires !Finished(now)
    ensures ok == (NextCall(now).Write? && UpdatePod(t.pre, NextCall(now).written, t.ans.fault).error == NoError)
    ensures var soon := Step(t.pre, now, t.ans).1;
      soon.next == now.next + 1 ==>
        && soon.verdict == now.verdict
        && o == Expected(now.mgr, now.objs[now.next], now.verdict == Some(true), ok)
        && soon.claimed == now.claimed + (if o == Claimed then [now.next] else [])
        && soon.errs == now.errs + (if o == Errored then 1 else 0)
        && (Decide(now.mgr, now.objs[now.next]).Adopt? ==> now.verdict.Some?)
        && (NextCall(now).Write? <==> Writes(now.mgr, now.objs[now.next], now.verdict == Some(true)))
    ensures var soon := Step(t.pre, now, t.ans).1;
      soon.next != now.next + 1 ==> now.verdict == None && soon == now.(verdict := soon.verdict) && soon.verdict.Some?
  {
    ok := NextCall(now).Write? && UpdatePod(t.pre, NextCall(now).written, t.ans.fault).error == NoError;
    o := Expected(now.mgr, now.objs[now.next], now.verdict == Some(true), ok);
  }

  /** An entry of the record stays true: the verdict is given once. */
  lemma EntryStays(st: State, turns: seq<Turn>, t: Turn, i: nat, before: Option<bool>, after: Option<bool>, o: Outcome,
                   written: bool, when: int)
    requires i < |st.objs| && (before.Some? ==> after == before)
    requires Entry(st, turns, i, before, o, written, when)
    ensures Entry(st, turns + [t], i, after, o, written, when)
  {
    if Writes(st.mgr, st.objs[i], before == Some(true)) {
      WroteAtLonger(st, turns, t, i, when, written);
    }
  }

  /** The record of the objects already done stays true. */
  lemma RecordStays(st: State, turns: seq<Turn>, now: State, t: Turn, soon: State, os: seq<Outcome>,
                    written: seq<bool>, when: seq<int>)
    requires Linked(now, t, soon) && Entries(st, turns, now.verdict, os, written, when)
    ensures Entries(st, turns + [t], soon.verdict, os, written, when)
  {
    LinkKeeps(now, t, soon);
    forall i | 0 <= i < |os| ensures Entry(st, turns + [t], i, soon.verdict, os[i], written[i], when[i]) {
      EntryStays(st, turns, t, i, now.verdict, soon.verdict, os[i], written[i], when[i]);
    }
  }

  /** The entry of the object a step finishes. */
  lemma NewEntry(st: State, turns: seq<Turn>, now: State, t: Turn, o: Outcome, ok: bool)
    requires Stands(st, turns, now)
    requires
      && now.mgr == st.mgr && now.objs == st.objs && now.next < |st.objs|
      && o == Expected(st.mgr, st.objs[now.next], now.verdict == Some(true), ok)
      && (Decide(st.mgr, st.objs[now.next]).Adopt? ==> now.verdict.Some?)
      && (NextCall(now).Write? <==> Writes(st.mgr, st.objs[now.next], now.verdict == Some(true)))
      && ok == (NextCall(now).Write? && UpdatePod(t.pre, NextCall(now).written, t.ans.fault).error == NoError)
    ensures Entry(st, turns + [t], now.next, now.verdict, o, ok, |turns|)
  {
    assert (turns + [t])[..|turns|] == turns;
  }

  /** A record grows by the object a step finishes. */
  lemma RecordGrows(st: State, turns: seq<Turn>, os: seq<Outcome>, written: seq<bool>, when: seq<int>, now: State,
                    soon: State, o: Outcome, ok: bool, n: int)
    requires Entries(st, turns, soon.verdict, os, written, when) && |os| == now.next < |st.objs|
    requires now.claimed == Where(os, Claimed, |os|) && now.errs == |Where(os, Errored, |os|)|
    requires
      && soon.next == now.next + 1
      && soon.claimed == now.claimed + (if o == Claimed then [now.next] else [])
      && soon.errs == now.errs + (if o == Errored then 1 else 0)
      && Entry(st, turns, |os|, soon.verdict, o, ok, n)
    ensures Recorded(st, turns, soon, os + [o], written + [ok], when + [n])
  {
    WherePrefix(os, Claimed, o);
    WherePrefix(os, Errored, o);
    EntriesGrow(st, turns, soon.verdict, os, written, when, o, ok, n);
  }

  ghost predicate Entries(st: State, turns: seq<Turn>, verdict: Option<bool>, os: seq<Outcome>, written: seq<bool>,
                          when: seq<int>)
  {
    && |os| == |written| == |when| <= |st.objs|
    && (forall i | 0 <= i < |os| :: Entry(st, turns, i, verdict, os[i], written[i], when[i]))
  }

  lemma EntriesGrow(st: State, turns: seq<Turn>, verdict: Option<bool>, os: seq<Outcome>, written: seq<bool>,
                    when: seq<int>, o: Outcome, ok: bool, n: int)
    requires Entries(st, turns, verdict, os, written, when) && |os| < |st.objs|
    requires Entry(st, turns, |os|, verdict, o, ok, n)
    ensures Entries(st, turns, verdict, os + [o], written + [ok], when + [n])
  {
  }

  /** One more step keeps a record. */
  lemma RecordStep(st: State, turns: seq<Turn>, now: State, t: Turn, soon: State, os: seq<Outcome>,
                   written: seq<bool>, when: seq<int>)
    returns (os': seq<Outcome>, written': seq<bool>, when': seq<int>)
    requires Stands(st, turns, now) && Linked(now, t, soon) && Recorded(st, turns, now, os, written, when)
    ensures Recorded(st, turns + [t], soon, os', written', when')
  {
    PlayKeeps(st, turns);
    RecordStays(st, turns, now, t, soon, os, written, when);
    var o, ok := StepOutcome(now, t);
    if soon.next == now.next {
      os', written', when' := os, written, when;
    } else {
      os', written', when' := os + [o], written + [ok], when + [|turns|];
      NewEntry(st, turns, now, t, o, ok);
      RecordGrows(st, turns + [t], os, written, when, now, soon, o, ok, |turns|);
    }
  }

  lemma Snoc(turns: seq<Turn>)
    requires turns != []
    ensures turns[..|turns| - 1] + [turns[|turns| - 1]] == turns
  {
  }

  lemma {:induction false} RecordOf(st: State, turns: seq<Turn>, now: State)
    returns (os: seq<Outcome>, written: seq<bool>, when: seq<int>)
    requires st.next == 0 && st.claimed == [] && st.errs == 0 && Stands(st, turns, now)
    ensures Recorded(st, turns, now, os, written, when)
    decreases |turns|
  {
    if turns == [] {
      os, written, when := [], [], [];
    } else {
      var n := |turns| - 1;
      var prev := StandsLast(st, turns, now);
      os, written, when := RecordOf(st, turns[..n], prev);
      os, written, when := RecordStep(st, turns[..n], prev, turns[n], now, os, written, when);
      Snoc(turns);
    }
  }

  /** The specification of the claim loop: there is an outcome for every object, fixed by the object
      itself, by one verdict on adoption and by whether its own write was acknowledged; the loop
      returns exactly the claimed objects, in order, and one error per failed one. */
  lemma ClaimLoopSpec(st: State, turns: seq<Turn>) returns (os: seq<Outcome>, written: seq<bool>, when: seq<int>)
    requires st.next == 0 && st.claimed == [] && st.errs == 0 && Plays(st, turns)
    ensures Explains(st, turns, os, written, when)
  {
    os, written, when := RecordOf(st, turns, Play(st, turns));
  }

  /** When the owner may not adopt, no orphan is claimed or written, and each adoptable orphan has
      exactly one error to show for it. */
  lemma RefusedVerdict(st: State, turns: seq<Turn>)
    requires st.next == 0 && st.claimed == [] && st.errs == 0 && Plays(st, turns)
    requires Finished(Play(st, turns)) && Play(st, turns).verdict == Some(false)
    ensures forall i: nat | i < |st.objs| && Decide(st.mgr, st.objs[i]).Adopt? :: i !in Play(st, turns).claimed
    ensures exists errored: seq<nat> ::
      && (forall i: nat | i < |st.objs| && Decide(st.mgr, st.objs[i]).Adopt? :: i in errored)
      && (forall i: nat | i in errored ::
            i < |st.objs| && (Decide(st.mgr, st.objs[i]).Adopt? || Decide(st.mgr, st.objs[i]).Release?))
      && (forall i, j | 0 <= i < j < |errored| :: errored[i] < errored[j])
      && Play(st, turns).errs == |errored|
  {
    var os, written, when := ClaimLoopSpec(st, turns);
    PlayKeeps(st, turns);
    var errored := Where(os, Errored, |os|);
    forall i: nat | i < |st.objs|
      ensures os[i] == Expected(st.mgr, st.objs[i], false, written[i])
    {
      assert Entry(st, turns, i, Some(false), os[i], written[i], when[i]);
    }
    forall i: nat | i < |st.objs| && Decide(st.mgr, st.objs[i]).Adopt?
      ensures i in errored && i !in Play(st, turns).claimed
    {
      assert os[i] == Errored;
    }
    forall i: nat | i in errored
      ensures i < |st.objs| && (Decide(st.mgr, st.objs[i]).Adopt? || Decide(st.mgr, st.objs[i]).Release?)
    {
      assert os[i] == Errored;
    }
  }

  /** In that case no orphan is ever written either. */
  lemma RefusedVerdictWritesNoOrphan(st: State, turns: seq<Turn>, n: nat)
    requires Plays(st, turns) && n < |turns| && Play(st, turns).verdict == Some(false)
    ensures !Finished(Before(st, turns, n))
    ensures var at := Before(st, turns, n);
      NextCall(at).Write? ==> Decide(at.mgr, at.objs[at.next]).Release?
  {
    var states := States(st, turns);
    StatesKeep(states, turns, n, |turns|);
    assert Linked(states[n], turns[n], states[n + 1]);
  }

  // ----- what a claim writes -----

  /** Only orphans and the owner's own objects are ever written, each under its own key and from the
      version that was read: what somebody else controls is left alone. */
  lemma WritesOwnOrOrphan(st: State)
    requires !Finished(st) && NextCall(st).Write?
    ensures var p, q := st.objs[st.next], NextCall(st).written;
      && q == p.(ownerRefs := q.ownerRefs)
      && (ControllerUid(p) == None || ControllerUid(p) == Some(st.mgr.owner.uid))
      && !st.mgr.owner.deleting
      && (ControllerUid(p) == None ==> Match(st.mgr, p) && !p.deleting && ControllerUid(q) == Some(st.mgr.owner.uid))
      && (ControllerUid(p).Some? ==> !Match(st.mgr, p))
  {
    var p := st.objs[st.next];
    if Decide(st.mgr, p).Adopt? {
      AdoptControls(st.mgr.owner, p);
    }
  }

  // ----- release -----

  ghost predicate DistinctUids(refs: seq<OwnerRef>) {
    forall i, j | 0 <= i < j < |refs| :: refs[i].uid != refs[j].uid
  }

  lemma {:induction false} ControllerIsOne(refs: seq<OwnerRef>) returns (i: nat)
    requires ControllerOf(refs).Some?
    ensures i < |refs| && refs[i].controller && refs[i] == ControllerOf(refs).value
  {
    if refs[0].controller {
      i := 0;
    } else {
      i := ControllerIsOne(refs[1..]);
      i := i + 1;
    }
  }

  /** Releasing leaves the object uncontrolled exactly when the first reference with the owner's uid
      is a controller reference and the only one. */
  lemma ReleaseFreesIff(owner: Owner, p: Pod)
    requires ControllerUid(p) == Some(owner.uid)
    ensures var i := FirstWithUid(p.ownerRefs, owner.uid);
      && i < |p.ownerRefs|
      && (ControllerUid(Released(owner, p)) == None <==> p.ownerRefs[i].controller && ControllerCount(p.ownerRefs) == 1)
  {
    var refs := p.ownerRefs;
    var j := ControllerIsOne(refs);
    var i := FirstWithUid(refs, owner.uid);
    assert i <= j;
    RemoveCounts(refs, i);
    NoControllers(RemoveAt(refs, i));
    NoControllers(refs);
  }

  /** With distinct owner uids and one controller, releasing cuts out exactly the owner's reference,
      keeps the others in order and leaves the object an orphan. */
  lemma ReleaseSurgery(owner: Owner, p: Pod)
    requires ControllerUid(p) == Some(owner.uid) && DistinctUids(p.ownerRefs) && ControllerCount(p.ownerRefs) == 1
    ensures ControllerUid(Released(owner, p)) == None
    ensures exists i ::
      && 0 <= i < |p.ownerRefs| && p.ownerRefs[i].uid == owner.uid
      && Released(owner, p) == p.(ownerRefs := p.ownerRefs[..i] + p.ownerRefs[i + 1..])
    ensures forall ref :: ref in Released(owner, p).ownerRefs <==> ref in p.ownerRefs && ref.uid != owner.uid
  {
    var i := ReleaseCut(owner, p);
    forall ref ensures ref in Released(owner, p).ownerRefs <==> ref in p.ownerRefs && ref.uid != owner.uid {
      CutMembers(p.ownerRefs, i, ref);
    }
  }

  lemma ReleaseCut(owner: Owner, p: Pod) returns (i: nat)
    requires ControllerUid(p) == Some(owner.uid) && DistinctUids(p.ownerRefs) && ControllerCount(p.ownerRefs) == 1
    ensures i < |p.ownerRefs| && p.ownerRefs[i].uid == owner.uid
    ensures Released(owner, p) == p.(ownerRefs := RemoveAt(p.ownerRefs, i))
    ensures ControllerUid(Released(owner, p)) == None
  {
    i := FirstWithUid(p.ownerRefs, owner.uid);
    var j := ControllerIsOne(p.ownerRefs);
    assert i == j;
    ReleaseFreesIff(owner, p);
  }

  /** Among distinct uids cutting one out removes exactly that uid. */
  lemma CutMembers(refs: seq<OwnerRef>, i: nat, ref: OwnerRef)
    requires i < |refs| && DistinctUids(refs)
    ensures ref in RemoveAt(refs, i) <==> ref in refs && ref.uid != refs[i].uid
  {
    var cut := RemoveAt(refs, i);
    if ref in refs && ref.uid != refs[i].uid {
      var n :| 0 <= n < |refs| && refs[n] == ref;
      assert cut[if n < i then n else n - 1] == ref;
    }
    if ref in cut {
      var n :| 0 <= n < |cut| && cut[n] == ref;
      assert refs[if n < i then n else n + 1] == ref;
    }
  }

  /** Without distinct uids a release can leave the object controlled: the first match by uid need not
      be the controller reference. */
  lemma ReleaseMayKeepControl(owner: Owner, p: Pod)
    requires p.ownerRefs == [OwnerRef("Other", "x", owner.uid, false), ControllerRef(owner)]
    ensures ControllerUid(p) == Some(owner.uid) && ControllerUid(Released(owner, p)) == Some(owner.uid)
  {
    var refs := p.ownerRefs;
    assert refs[1..] == [ControllerRef(owner)];
    assert FirstWithUid(refs, owner.uid) == 0;
    assert RemoveAt(refs, 0) == [ControllerRef(owner)];
    assert ControllerOf([ControllerRef(owner)]) == Some(ControllerRef(owner));
    assert ControllerOf(refs) == ControllerOf(refs[1..]);
  }
}
