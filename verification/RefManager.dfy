/** The reference manager: a memoised verdict on adoption, a loop over the caller's objects, and owner
    reference slices edited in place.  Proved to make exactly the moves of the claim protocol. */
module RefManager {
  import opened Objects
  import opened ApiServer
  import opened Claim
  import opened ClaimLoop
  import opened Client

  /** A reference to an object.  Its owner references are a slice: the first `len` elements of a backing
      array that other slices could share.  The `ownerRefs` inside `rest` are not used. */
  class Handle {
    var rest: Pod
    var refs: array<OwnerRef>
    var len: nat

    ghost predicate Valid() reads this { len <= refs.Length }

    ghost function Value(): Pod
      requires Valid()
      reads this, refs
    {
      rest.(ownerRefs := refs[..len])
    }

    constructor (p: Pod)
      ensures Valid() && Value() == p && fresh(refs)
    {
      rest := p;
      refs := new OwnerRef[|p.ownerRefs|](i requires 0 <= i < |p.ownerRefs| => p.ownerRefs[i]);
      len := |p.ownerRefs|;
    }

    method Read() returns (p: Pod)
      requires Valid()
      ensures p == Value()
    {
      p := rest.(ownerRefs := refs[..len]);
    }

    /** Upserts the controller reference: overwrites the element in place, or grows a new array. */
    method SetController(owner: Owner) returns (ok: bool)
      requires Valid()
      modifies this`refs, this`len, refs
      ensures Valid() && (refs == old(refs) || fresh(refs))
      ensures ok == SetControllerReference(owner, old(Value())).Some?
      ensures Value() == if ok then SetControllerReference(owner, old(Value())).value else old(Value())
    {
      var p := Read();
      if !MayOwn(owner.key.namespace, p.key.namespace) || HasForeignController(owner, p.ownerRefs) {
        return false;
      }
      var ref := ControllerRef(owner);
      var i := 0;
      while i < len && !SameReferent(refs[i], ref)
        invariant 0 <= i <= len
        invariant forall j | 0 <= j < i :: !SameReferent(refs[j], ref)
      {
        i := i + 1;
      }
      UpsertAt(p.ownerRefs, ref, i);
      if i < len {
        refs[i] := ref;
        assert refs[..len] == p.ownerRefs[i := ref];
      } else {
        var longer := p.ownerRefs + [ref];
        var grown := new OwnerRef[|longer|](j requires 0 <= j < |longer| => longer[j]);
        assert grown[..] == longer;
        refs := grown;
        len := len + 1;
      }
      return true;
    }
  }

  lemma {:induction false} UpsertAt(refs: seq<OwnerRef>, ref: OwnerRef, i: nat)
    requires i <= |refs| && (forall j | 0 <= j < i :: !SameReferent(refs[j], ref)) &&
      (i < |refs| ==> SameReferent(refs[i], ref))
    ensures UpsertOwnerRef(refs, ref) == if i < |refs| then refs[i := ref] else refs + [ref]
  {
    if i > 0 {
      UpsertAt(refs[1..], ref, i - 1);
      assert refs == [refs[0]] + refs[1..];
    }
  }

  /** The position of the first reference with the uid, or -1. */
  method IndexOf(refs: array<OwnerRef>, len: nat, uid: Uid) returns (idx: int)
    requires len <= refs.Length
    ensures var i := FirstWithUid(refs[..len], uid); idx == if i < len then i else -1
  {
    idx := -1;
    var i := 0;
    while i < len
      invariant 0 <= i <= len && forall j | 0 <= j < i :: refs[j].uid != uid
    {
      if refs[i].uid == uid {
        return i;
      }
      i := i + 1;
    }
  }

  /** Copies the slice, then closes the gap at `i` by moving the tail down in the copy. */
  method CutOut(refs: array<OwnerRef>, len: nat, i: nat) returns (cut: array<OwnerRef>)
    requires i < len <= refs.Length
    ensures fresh(cut) && cut.Length == len && cut[..len - 1] == RemoveAt(refs[..len], i)
  {
    cut := new OwnerRef[len](j requires 0 <= j < len <= refs.Length reads refs => refs[j]);
    var j := i;
    while j < len - 1
      invariant i <= j <= len - 1
      invariant forall n | 0 <= n < i :: cut[n] == refs[n]
      invariant forall n | i <= n < j :: cut[n] == refs[n + 1]
      invariant forall n | j <= n < len :: cut[n] == refs[n]
    {
      cut[j] := cut[j + 1];
      j := j + 1;
    }
  }

  class Manager {
    const api: Api
    const owner: Owner
    const selector: map<string, string>
    var once: bool
    var canAdoptErr: bool

    function Memo(): Option<bool> reads this { if once then Some(!canAdoptErr) else None }

    constructor (api: Api, owner: Owner, selector: map<string, string>)
      ensures this.api == api && this.owner == owner && this.selector == selector && Memo() == None
    {
      this.api, this.owner, this.selector := api, owner, selector;
      once, canAdoptErr := false, false;
    }

    /** Fetches the owner again: same uid, not being deleted. */
    method CanAdopt() returns (failed: bool, ghost turn: Turn)
      requires api.Valid()
      modifies api
      ensures api.Valid() && api.cluster == turn.pre == turn.post
      ensures failed == !(turn.ans.fault.Served? && OwnerLives(turn.pre, owner))
    {
      var e, current;
      e, current, turn := api.GetService(owner.key);
      if e != NoError {
        return true, turn;
      }
      if current.uid != owner.uid {
        return true, turn;
      }
      if current.deleting {
        return true, turn;
      }
      return false, turn;
    }

    method CanAdoptOnce() returns (failed: bool, ghost turns: seq<Turn>)
      requires api.Valid()
      modifies this, api
      ensures api.Valid() && once && failed == canAdoptErr
      ensures old(once) ==> Memo() == old(Memo()) && turns == []
      ensures !old(once) ==>
        |turns| == 1 && turns[0].post == turns[0].pre &&
        Memo() == Some(turns[0].ans.fault.Served? && OwnerLives(turns[0].pre, owner))
    {
      turns := [];
      if !once {
        ghost var turn;
        canAdoptErr, turn := CanAdopt();
        once := true;
        turns := [turn];
      }
      failed := canAdoptErr;
    }

    /** The claim stands at this object, and its abstract state agrees with the manager's fields. */
    ghost predicate Facing(st: State, h: Handle)
      reads this, h, h.refs
    {
      h.Valid() && !Finished(st) && st.objs[st.next] == h.Value() && st.mgr.owner == owner && st.verdict == Memo()
    }

    method Adopt(h: Handle, ghost st: State) returns (failed: bool, ghost turns: seq<Turn>)
      requires api.Valid() && Facing(st, h) && Decide(st.mgr, h.Value()).Adopt?
      modifies this, api, h, h.refs
      ensures api.Valid() && h.Valid() && (h.refs == old(h.refs) || fresh(h.refs))
      ensures Plays(st, turns)
      ensures Play(st, turns) == (if failed then Fail(st.(verdict := Memo())) else Take(st.(verdict := Memo())))
      ensures h.Value() == old(h.Value()) || Adopted(owner, old(h.Value()), h.Value())
      ensures !failed ==> Adopted(owner, old(h.Value()), h.Value())
    {
      failed, turns := CanAdoptOnce();
      ghost var st' := st.(verdict := Memo());
      VerdictPlays(st, turns, st');
      ghost var local := Turn(api.cluster, Answer(Served, [], false, "", ""), api.cluster);
      if failed {
        AdoptFails(st, turns, st', local);
        turns := turns + [local];
        return;
      }
      var ok := h.SetController(owner);
      if !ok {
        AdoptFails(st, turns, st', local);
        turns := turns + [local];
        return true, turns;
      }
      var q := h.Read();
      var e, version;
      ghost var turn;
      e, version, turn := api.UpdatePod(q);
      AdoptPlays(st, turns, st', turn, q, e);
      turns := turns + [turn];
      if e != NoError {
        return true, turns;
      }
      h.rest := h.rest.(version := version);
      return false, turns;
    }

    /** Cuts the first reference to the owner out of a deep copy and writes the copy. */
    method Release(h: Handle, ghost st: State) returns (failed: bool, ghost turns: seq<Turn>)
      requires api.Valid() && Facing(st, h) && Decide(st.mgr, h.Value()).Release?
      modifies api
      ensures api.Valid() && Plays(st, turns) && Play(st, turns) == (if failed then Fail(st) else Skip(st))
    {
      ghost var p := h.Value();
      var idx := IndexOf(h.refs, h.len, owner.uid);
      OwnedHasReference(owner, p);
      if idx > -1 {
        var cut := CutOut(h.refs, h.len, idx);
        var q := h.rest.(ownerRefs := cut[..h.len - 1]);
        assert q == Released(owner, p);
        ghost var turn;
        var e, version;
        e, version, turn := api.UpdatePod(q);
        turns := [turn];
        ReleasePlays(st, turn, q, e);
        if e != NoError {
          return true, turns;
        }
      }
      return false, turns;
    }

    /** The selector and every filter accept the object. */
    method Matching(p: Pod, filters: seq<Pod -> bool>) returns (ok: bool)
      ensures ok == Match(Claim.Manager(owner, selector, filters), p)
    {
      if !Matches(selector, p.labels) {
        return false;
      }
      var i := 0;
      while i < |filters|
        invariant 0 <= i <= |filters| && forall j | 0 <= j < i :: filters[j](p)
      {
        if !filters[i](p) {
          return false;
        }
        i := i + 1;
      }
      return true;
    }

    /** Claims one object: the abstract claim has moved past it. */
    method ClaimObject(h: Handle, filters: seq<Pod -> bool>, ghost st: State)
      returns (ok: bool, failed: bool, ghost turns: seq<Turn>)
      requires api.Valid() && Facing(st, h) && st.mgr == Claim.Manager(owner, selector, filters)
      modifies this, api, h, h.refs
      ensures api.Valid() && h.Valid() && (h.refs == old(h.refs) || fresh(h.refs))
      ensures !(ok && failed)
      ensures Stands(st, turns, Judged(st.(verdict := Memo()), ok, failed))
      ensures h.Value() == old(h.Value()) ||
        (Decide(st.mgr, old(h.Value())).Adopt? && Adopted(owner, old(h.Value()), h.Value()))
      ensures ok && Decide(st.mgr, old(h.Value())).Adopt? ==> Adopted(owner, old(h.Value()), h.Value())
    {
      var p := h.Read();
      ghost var nothing := Answer(Served, [], false, "", "");
      if !Decide(st.mgr, p).Adopt? && !Decide(st.mgr, p).Release? {
        StandsLocal(st, api.cluster, nothing);
      }
      turns := [Turn(api.cluster, nothing, api.cluster)];
      var controllerRef := ControllerOf(p.ownerRefs);
      var matched := Matching(p, filters);
      if controllerRef.Some? {
        if controllerRef.value.uid != owner.uid {
          return false, false, turns;
        }
        if matched {
          return true, false, turns;
        }
        if owner.deleting {
          return false, false, turns;
        }
        failed, turns := Release(h, st);
        return false, failed, turns;
      }
      if owner.deleting || !matched {
        return false, false, turns;
      }
      if p.deleting {
        return false, false, turns;
      }
      failed, turns := Adopt(h, st);
      return !failed, failed, turns;
    }

    /** Claims the `n`th object; the others, which share no memory with it, stay as they are. */
    method ClaimAt(objs: seq<Handle>, n: nat, filters: seq<Pod -> bool>, ghost st: State)
      returns (ok: bool, failed: bool, ghost turns: seq<Turn>)
      requires api.Valid() && n < |objs| && Facing(st, objs[n]) && st.mgr == Claim.Manager(owner, selector, filters)
      requires forall i | 0 <= i < |objs| && i != n ::
        objs[i] != objs[n] && objs[i].refs != objs[n].refs && objs[i].Valid()
      modifies this, api, objs[n], objs[n].refs
      ensures api.Valid() && !(ok && failed)
      ensures Stands(st, turns, Judged(st.(verdict := Memo()), ok, failed))
      ensures forall i | 0 <= i < |objs| && i != n ::
        objs[i].refs == old(objs[i].refs) && objs[i].Valid() && objs[i].Value() == old(objs[i].Value())
      ensures objs[n].Valid() && (objs[n].refs == old(objs[n].refs) || fresh(objs[n].refs))
      ensures Touched(st.mgr, old(objs[n].Value()), objs[n].Value())
    {
      ok, failed, turns := ClaimObject(objs[n], filters, st);
    }

    /** The loop body: object `n` is done, the later ones are still as the caller passed them. */
    method ClaimNext(objs: seq<Handle>, n: nat, filters: seq<Pod -> bool>, ghost values: seq<Pod>,
                     ghost arrays: seq<array<OwnerRef>>,
                     ghost st: State, ghost turns: seq<Turn>, ghost now: State)
      returns (ok: bool, failed: bool, ghost turns': seq<Turn>)
      requires api.Valid() && n < |objs| == |values| == |arrays| && Separate(objs, arrays)
      requires Untouched(objs, values, arrays, n) && Apart(objs, arrays, n) && AllTouched(objs, now.mgr, values, n)
      requires Stands(st, turns, now) && now.next == n && now.objs == values
      requires now.mgr == Claim.Manager(owner, selector, filters) && now.verdict == Memo()
      modifies this, api, objs[n], objs[n].refs
      ensures api.Valid() && !(ok && failed)
      ensures Untouched(objs, values, arrays, n + 1) && Apart(objs, arrays, n + 1)
      ensures AllTouched(objs, now.mgr, values, n + 1)
      ensures Stands(st, turns', Judged(now.(verdict := Memo()), ok, failed))
    {
      assert forall i | 0 <= i < |objs| && i != n ::
        objs[i] != objs[n] && objs[i].refs != objs[n].refs && objs[i].Valid();
      ghost var more;
      ok, failed, more := ClaimAt(objs, n, filters, now);
      ghost var now' := now.(verdict := Memo());
      StandsJoin(st, turns, now, more, Judged(now', ok, failed));
      turns' := turns + more;
    }

    /** Tries to take ownership of the objects.  The calls made are a play of the claim protocol over the
        objects as they were; the claimed ones come back in order and the errors are counted.  Objects
        that were not up for adoption are exactly as the caller passed them, released ones included. */
    method ClaimOwnedObjects(objs: seq<Handle>, filters: seq<Pod -> bool>)
      returns (claimed: seq<Handle>, errs: nat, ghost turns: seq<Turn>, ghost end: State)
      requires api.Valid()
      requires forall i | 0 <= i < |objs| :: objs[i].Valid()
      requires forall i, j | 0 <= i < j < |objs| :: objs[i] != objs[j] && objs[i].refs != objs[j].refs
      modifies this, api, objs, set h | h in objs :: h.refs
      ensures api.Valid()
      ensures var st := State(Claim.Manager(owner, selector, filters), old(Values(objs)), 0, old(Memo()), [], 0);
        && Stands(st, turns, end) && Finished(end)
        && errs == end.errs && Memo() == end.verdict && Selection(objs, end.claimed, claimed)
        && AllTouched(objs, st.mgr, st.objs, |objs|)
    {
      ghost var values := Values(objs);
      ghost var arrays := seq(|objs|, i requires 0 <= i < |objs| reads objs => objs[i].refs);
      claimed, errs, turns, end := ClaimAll(objs, filters, values, arrays);
    }

    /** The loop over the objects. */
    method ClaimAll(objs: seq<Handle>, filters: seq<Pod -> bool>, ghost values: seq<Pod>,
                    ghost arrays: seq<array<OwnerRef>>)
      returns (claimed: seq<Handle>, errs: nat, ghost turns: seq<Turn>, ghost end: State)
      requires api.Valid() && |objs| == |values| == |arrays| && Separate(objs, arrays)
      requires Untouched(objs, values, arrays, 0)
      modifies this, api, objs, set h | h in objs :: h.refs
      ensures api.Valid()
      ensures var st := State(Claim.Manager(owner, selector, filters), values, 0, old(Memo()), [], 0);
        && Stands(st, turns, end) && Finished(end)
        && errs == end.errs && Memo() == end.verdict && Selection(objs, end.claimed, claimed)
        && AllTouched(objs, st.mgr, st.objs, |objs|)
    {
      claimed, errs, turns := [], 0, [];
      ghost var st := State(Claim.Manager(owner, selector, filters), values, 0, Memo(), [], 0);
      ghost var indices: seq<nat> := [];
      var n := 0;
      while n < |objs|
        invariant 0 <= n <= |objs| && api.Valid()
        invariant Untouched(objs, values, arrays, n) && Apart(objs, arrays, n) && AllTouched(objs, st.mgr, values, n)
        invariant Stands(st, turns, State(st.mgr, values, n, Memo(), indices, errs))
        invariant Selection(objs, indices, claimed)
      {
        ghost var now := State(st.mgr, values, n, Memo(), indices, errs);
        SelectionGrows(objs, indices, claimed, n);
        var ok, failed;
        ok, failed, turns := ClaimNext(objs, n, filters, values, arrays, st, turns, now);
        if failed {
          errs := errs + 1;
        } else if ok {
          claimed := claimed + [objs[n]];
          indices := indices + [n];
        }
        n := n + 1;
      }
      end := State(st.mgr, values, n, Memo(), indices, errs);
    }
  }

  /** Past an object that was claimed, skipped or failed. */
  function Judged(st: State, ok: bool, failed: bool): State {
    if failed then Fail(st) else if ok then Take(st) else Skip(st)
  }

  /** The values behind the references. */
  ghost function Values(objs: seq<Handle>): (r: seq<Pod>)
    requires forall i | 0 <= i < |objs| :: objs[i].Valid()
    reads objs, set h | h in objs :: h.refs
    ensures |r| == |objs| && forall i | 0 <= i < |objs| :: r[i] == objs[i].Value()
  {
    seq(|objs|,
        i requires 0 <= i < |objs| && objs[i].Valid() reads objs, set h | h in objs :: h.refs => objs[i].Value())
  }

  /** From `n` on the objects are as they were, each with its own backing array. */
  ghost predicate Untouched(objs: seq<Handle>, values: seq<Pod>, arrays: seq<array<OwnerRef>>, n: nat)
    requires |objs| == |values| == |arrays|
    reads objs, arrays
  {
    forall i | n <= i < |objs| :: objs[i].refs == arrays[i] && objs[i].Valid() && objs[i].Value() == values[i]
  }

  /** Distinct objects over distinct arrays. */
  ghost predicate Separate(objs: seq<Handle>, arrays: seq<array<OwnerRef>>)
    requires |objs| == |arrays|
  {
    forall i, j | 0 <= i < j < |objs| :: objs[i] != objs[j] && arrays[i] != arrays[j]
  }

  ghost predicate Apart(objs: seq<Handle>, arrays: seq<array<OwnerRef>>, n: nat)
    requires |objs| == |arrays|
    reads objs
  {
    forall i, j | 0 <= i < n <= j < |objs| :: objs[i].refs != arrays[j]
  }

  ghost predicate AllTouched(objs: seq<Handle>, m: Claim.Manager, values: seq<Pod>, n: nat)
    requires n <= |objs| == |values|
    reads objs, set h | h in objs :: h.refs
  {
    forall i | 0 <= i < n :: objs[i].Valid() && Touched(m, values[i], objs[i].Value())
  }

  ghost predicate Selection(objs: seq<Handle>, indices: seq<nat>, claimed: seq<Handle>) {
    |claimed| == |indices| && forall i | 0 <= i < |indices| :: indices[i] < |objs| && claimed[i] == objs[indices[i]]
  }

  lemma SelectionGrows(objs: seq<Handle>, indices: seq<nat>, claimed: seq<Handle>, n: nat)
    requires Selection(objs, indices, claimed) && n < |objs|
    ensures Selection(objs, indices + [n], claimed + [objs[n]])
  {
  }

  /** `q` is `p` with the owner's controller reference; the server may have renumbered it. */
  predicate Adopted(owner: Owner, p: Pod, q: Pod) {
    SetControllerReference(owner, p).Some? && q == SetControllerReference(owner, p).value.(version := q.version)
  }

  /** What a claim may have done to the caller's object: nothing, or set the reference for adoption. */
  ghost predicate Touched(m: Claim.Manager, p: Pod, q: Pod) {
    q == p || (Decide(m, p).Adopt? && Adopted(m.owner, p, q))
  }

  /** Taking the verdict, or having it already, leads to the state with the verdict. */
  lemma VerdictPlays(st: State, turns: seq<Turn>, st': State)
    requires !Finished(st) && Decide(st.mgr, st.objs[st.next]).Adopt? && st' == st.(verdict := st'.verdict)
    requires st.verdict.Some? ==> turns == [] && st' == st
    requires st.verdict.None? ==> |turns| == 1 && turns[0].post == turns[0].pre
    requires st.verdict.None? ==>
      st'.verdict == Some(turns[0].ans.fault.Served? && OwnerLives(turns[0].pre, st.mgr.owner))
    ensures Plays(st, turns) && Play(st, turns) == st'
  {
    if turns != [] {
      PlayOne(st, [], turns[0]);
      assert [] + [turns[0]] == turns;
    }
  }

  /** An adoption that ends without a write: refused by the verdict or by the other references. */
  lemma AdoptFails(st: State, turns: seq<Turn>, st': State, local: Turn)
    requires Plays(st, turns) && Play(st, turns) == st' && !Finished(st') && Decide(st'.mgr, st'.objs[st'.next]).Adopt?
    requires st'.verdict == Some(false) ||
      (st'.verdict.Some? && SetControllerReference(st'.mgr.owner, st'.objs[st'.next]).None?)
    requires local.post == local.pre
    ensures Plays(st, turns + [local]) && Play(st, turns + [local]) == Fail(st')
  {
    PlayOne(st, turns, local);
  }

  /** The turn in which an adoption is written. */
  lemma AdoptPlays(st: State, turns: seq<Turn>, st': State, turn: Turn, q: Pod, e: ApiError)
    requires Plays(st, turns) && Play(st, turns) == st' && !Finished(st') && Decide(st'.mgr, st'.objs[st'.next]).Adopt?
    requires st'.verdict == Some(true) && SetControllerReference(st'.mgr.owner, st'.objs[st'.next]) == Some(q)
    requires var r := ApiServer.UpdatePod(turn.pre, q, turn.ans.fault); e == r.error && turn.post == r.cluster
    ensures Plays(st, turns + [turn]) && Play(st, turns + [turn]) == if e != NoError then Fail(st') else Take(st')
  {
    PlayOne(st, turns, turn);
  }

  /** The turn in which a release is written. */
  lemma ReleasePlays(st: State, turn: Turn, q: Pod, e: ApiError)
    requires !Finished(st) && Decide(st.mgr, st.objs[st.next]).Release? && q == Released(st.mgr.owner, st.objs[st.next])
    requires var r := ApiServer.UpdatePod(turn.pre, q, turn.ans.fault); e == r.error && turn.post == r.cluster
    ensures Plays(st, [turn]) && Play(st, [turn]) == if e != NoError then Fail(st) else Skip(st)
  {
    PlayOne(st, [], turn);
    assert [] + [turn] == [turn];
  }

  lemma OwnedHasReference(owner: Owner, p: Pod)
    requires ControllerUid(p) == Some(owner.uid)
    ensures FirstWithUid(p.ownerRefs, owner.uid) < |p.ownerRefs|
  {
    var j := ControllerIsOne(p.ownerRefs);
  }
}
