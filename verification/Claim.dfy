/** The ownership protocol of the reference manager, one API call at a time. */
module Claim {
  import opened Objects
  import opened ApiServer

  /** What claimObject decides to do about one object, before any API call. */
  datatype Decision = Ignore | Keep | Adopt | Release

  /** The manager's fixed data: who it acts for and what it looks for. */
  datatype Manager = Manager(owner: Owner, selector: map<string, string>, filters: seq<Pod -> bool>)

  predicate Match(m: Manager, p: Pod) {
    Matches(m.selector, p.labels) && forall i | 0 <= i < |m.filters| :: m.filters[i](p)
  }

  function Decide(m: Manager, p: Pod): Decision {
    var controller := ControllerOf(p.ownerRefs);
    if controller.Some? then
      if controller.value.uid != m.owner.uid then Ignore
      else if Match(m, p) then Keep
      else if m.owner.deleting then Ignore
      else Release
    else if m.owner.deleting || !Match(m, p) then Ignore
    else if p.deleting then Ignore
    else Adopt
  }

  /** A claim in progress: `objs[..next]` are done, `verdict` memoises whether the owner may
      adopt, `claimed` holds the indices of the claimed objects and `errs` counts the errors. */
  datatype State = State(mgr: Manager, objs: seq<Pod>, next: nat, verdict: Option<bool>,
                         claimed: seq<nat>, errs: nat)

  function Start(mgr: Manager, objs: seq<Pod>): State {
    State(mgr, objs, 0, None, [], 0)
  }

  predicate Finished(st: State) {
    st.next >= |st.objs|
  }

  datatype Call = NoCall | GetOwner | Write(written: Pod)

  /** The object with the first reference to the owner cut out. */
  function Released(owner: Owner, p: Pod): Pod {
    var i := FirstWithUid(p.ownerRefs, owner.uid);
    if i < |p.ownerRefs| then p.(ownerRefs := RemoveAt(p.ownerRefs, i)) else p
  }

  /** The API call that comes next. */
  function NextCall(st: State): Call
    requires !Finished(st)
  {
    var p := st.objs[st.next];
    match Decide(st.mgr, p)
    case Ignore => NoCall
    case Keep => NoCall
    case Release => Write(Released(st.mgr.owner, p))
    case Adopt =>
      if st.verdict.None? then GetOwner
      else if !st.verdict.value then NoCall
      else match SetControllerReference(st.mgr.owner, p)
           case None => NoCall
           case Some(q) => Write(q)
  }

  /** The owner, fetched again by its key, is the same object and not being deleted. */
  predicate OwnerLives(c: Cluster, o: Owner) {
    o.key in c.services && c.services[o.key].uid == o.uid && !c.services[o.key].deleting
  }

  function Skip(st: State): State { st.(next := st.next + 1) }
  function Take(st: State): State { st.(next := st.next + 1, claimed := st.claimed + [st.next]) }
  function Fail(st: State): State { st.(next := st.next + 1, errs := st.errs + 1) }

  /** One step: an API call, or a local decision that makes none. */
  function Step(c: Cluster, st: State, ans: Answer): (r: (Cluster, State))
    requires !Finished(st)
  {
    var p := st.objs[st.next];
    match NextCall(st)
    case NoCall =>
      (c, match Decide(st.mgr, p)
          case Ignore => Skip(st)
          case Keep => Take(st)
          case _ => Fail(st))
    case GetOwner =>
      (c, st.(verdict := Some(ans.fault.Served? && OwnerLives(c, st.mgr.owner))))
    case Write(q) =>
      var reply := UpdatePod(c, q, ans.fault);
      (reply.cluster,
       if reply.error != NoError then Fail(st)
       else if Decide(st.mgr, p).Adopt? then Take(st)
       else Skip(st))
  }
}
