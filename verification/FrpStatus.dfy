/** The FrpServer reconciler: a phase and a condition list that follow the verdicts of the probe. */
module FrpStatus {
  import opened Objects
  import opened ApiServer

  const PHASE_PENDING := "Pending"
  const PHASE_HEALTHY := "Healthy"
  const PHASE_UNHEALTHY := "Unhealthy"
  const PHASE_UNKNOWN := "Unknown"
  const INITIALIZED := "Initialized"
  const REASON_INITIALIZED := "Initialized"
  const REASON_FAILED := "InitializeFailed"
  const STATUS_TRUE := "True"
  const HEALTHY_MESSAGE := "FrpServer is healthy"
  const INVALID_PREFIX := "Invalid frp config: "

  datatype Condition = Condition(kind: string, status: string, reason: string, message: string, transition: int)

  datatype Status = Status(phase: string, conditions: seq<Condition>, reason: string)

  datatype FrpServer = FrpServer(version: nat, spec: string, status: Status)

  /** What the probe said. */
  datatype Verdict = Passed | Rejected(message: string)

  // ----- SetStatusCondition -----

  function Find(cs: seq<Condition>, kind: string): (i: nat)
    ensures i <= |cs|
    ensures i < |cs| ==> cs[i].kind == kind
    ensures forall j :: 0 <= j < i ==> cs[j].kind != kind
  {
    if cs == [] || cs[0].kind == kind then 0 else 1 + Find(cs[1..], kind)
  }

  /** The transition time moves only together with the status. */
  function SetCondition(cs: seq<Condition>, c: Condition): seq<Condition> {
    var i := Find(cs, c.kind);
    if i == |cs| then cs + [c]
    else cs[i := c.(transition := if cs[i].status == c.status then cs[i].transition else c.transition)]
  }

  function CountKind(cs: seq<Condition>, kind: string): nat {
    if cs == [] then 0 else (if cs[0].kind == kind then 1 else 0) + CountKind(cs[1..], kind)
  }

  lemma {:induction false} FindCounts(cs: seq<Condition>, kind: string)
    ensures Find(cs, kind) == |cs| <==> CountKind(cs, kind) == 0
  {
    if cs != [] { FindCounts(cs[1..], kind); }
  }

  lemma {:induction false} CountAppend(cs: seq<Condition>, c: Condition, kind: string)
    ensures CountKind(cs + [c], kind) == CountKind(cs, kind) + (if c.kind == kind then 1 else 0)
  {
    if cs == [] {
      assert cs + [c] == [c];
    } else {
      CountAppend(cs[1..], c, kind);
      assert (cs + [c])[1..] == cs[1..] + [c];
    }
  }

  lemma {:induction false} CountReplace(cs: seq<Condition>, i: nat, c: Condition, kind: string)
    requires i < |cs| && c.kind == cs[i].kind
    ensures CountKind(cs[i := c], kind) == CountKind(cs, kind)
  {
    if i == 0 {
      assert cs[i := c][1..] == cs[1..];
    } else {
      CountReplace(cs[1..], i - 1, c, kind);
      assert cs[i := c][1..] == cs[1..][i - 1 := c];
    }
  }

  /** Setting a condition leaves exactly one of its kind when there was at most one, and the others
      untouched in number. */
  lemma SetConditionCounts(cs: seq<Condition>, c: Condition)
    ensures CountKind(SetCondition(cs, c), c.kind) == if CountKind(cs, c.kind) == 0 then 1 else CountKind(cs, c.kind)
  {
    FindCounts(cs, c.kind);
    var i := Find(cs, c.kind);
    if i == |cs| {
      CountAppend(cs, c, c.kind);
    } else {
      CountReplace(cs, i, SetCondition(cs, c)[i], c.kind);
    }
  }

  lemma {:induction false} FindStable(cs: seq<Condition>, ds: seq<Condition>, kind: string)
    requires |cs| <= |ds| && forall j | 0 <= j < |cs| :: ds[j].kind == cs[j].kind
    ensures Find(cs, kind) < |cs| ==> Find(ds, kind) == Find(cs, kind)
    ensures Find(cs, kind) == |cs| && |cs| < |ds| && ds[|cs|].kind == kind ==> Find(ds, kind) == |cs|
  {
    if cs != [] && cs[0].kind != kind {
      FindStable(cs[1..], ds[1..], kind);
    }
  }

  /** The condition of a kind after it has been set, wherever it stands. */
  lemma SetConditionFinds(cs: seq<Condition>, c: Condition)
    ensures var ds := SetCondition(cs, c);
      var i := Find(ds, c.kind);
      && i < |ds| && i == Find(cs, c.kind)
      && ds[i] == c.(transition := ds[i].transition)
      && ds[i].transition == (if i < |cs| && cs[i].status == c.status then cs[i].transition else c.transition)
  {
    FindStable(cs, SetCondition(cs, c), c.kind);
  }

  // ----- Reconcile -----

  function Note(v: Verdict): string {
    match v
    case Passed => HEALTHY_MESSAGE
    case Rejected(message) => INVALID_PREFIX + message
  }

  /** The condition is written with status True whatever the verdict. */
  function ConditionFor(v: Verdict, now: int): Condition {
    Condition(INITIALIZED, STATUS_TRUE, if v.Passed? then REASON_INITIALIZED else REASON_FAILED, Note(v), now)
  }

  function Judge(st: Status, v: Verdict, now: int): Status {
    if st.phase == PHASE_UNKNOWN then st.(phase := PHASE_PENDING)
    else Status(if v.Passed? then PHASE_HEALTHY else PHASE_UNHEALTHY,
                SetCondition(st.conditions, ConditionFor(v, now)), Note(v))
  }

  /** A status write: an identical one changes nothing, any other gets a new version. */
  function Write(o: FrpServer, st: Status, fault: Fault): FrpServer {
    if fault.Refused? || o.status == st then o else o.(status := st, version := o.version + 1)
  }

  /** One Reconcile of a stored server: the probe is consulted unless the phase is Unknown. */
  function Reconciled(o: FrpServer, v: Verdict, now: int, getFault: Fault, fault: Fault): FrpServer {
    if !getFault.Served? then o else Write(o, Judge(o.status, v, now), fault)
  }

  predicate Reports(o: FrpServer, v: Verdict, getFault: Fault, fault: Fault) {
    getFault.Served? && (!fault.Served? || (o.status.phase != PHASE_UNKNOWN && v.Rejected?))
  }

  /** The stored object and the API calls on it. */
  class Store {
    var stored: Option<FrpServer>

    constructor (o: Option<FrpServer>)
      ensures stored == o
    {
      stored := o;
    }

    method Get(fault: Fault) returns (e: ApiError, o: FrpServer)
      ensures e == if !fault.Served? then Unavailable else if stored.None? then NotFound else NoError
      ensures e == NoError ==> stored == Some(o)
    {
      o := FrpServer(0, "", Status("", [], ""));
      if !fault.Served? {
        e := Unavailable;
      } else if stored.None? {
        e := NotFound;
      } else {
        e, o := NoError, stored.value;
      }
    }

    method UpdateStatus(o: FrpServer, fault: Fault) returns (failed: bool)
      requires stored.Some? && stored.value == o.(status := stored.value.status)
      modifies this
      ensures stored == Some(Write(old(stored.value), o.status, fault)) && failed == !fault.Served?
    {
      if !fault.Refused? && stored.value.status != o.status {
        stored := Some(o.(version := o.version + 1));
      }
      failed := !fault.Served?;
    }

    /** Sets a condition the way the library does: find it, then change it in place or append it. */
    static method SetStatusCondition(cs: seq<Condition>, c: Condition) returns (r: seq<Condition>)
      ensures r == SetCondition(cs, c)
    {
      var i := 0;
      while i < |cs| && cs[i].kind != c.kind
        invariant 0 <= i <= |cs|
        invariant forall j | 0 <= j < i :: cs[j].kind != c.kind
      {
        i := i + 1;
      }
      assert i == Find(cs, c.kind);
      if i == |cs| {
        r := cs + [c];
      } else {
        var existing := cs[i];
        if existing.status != c.status {
          existing := existing.(status := c.status, transition := c.transition);
        }
        existing := existing.(reason := c.reason, message := c.message);
        r := cs[i := existing];
      }
    }

    /** Reconcile: every Get error is swallowed, an Unknown phase becomes Pending without a probe, and
        otherwise condition, phase and reason follow the verdict. */
    method Reconcile(v: Verdict, now: int, getFault: Fault, fault: Fault) returns (failed: bool)
      modifies this
      ensures stored == if old(stored).None? then None else Some(Reconciled(old(stored.value), v, now, getFault, fault))
      ensures failed == (old(stored).Some? && Reports(old(stored.value), v, getFault, fault))
    {
      var e, obj := Get(getFault);
      if e != NoError {
        return false;
      }
      if obj.status.phase == PHASE_UNKNOWN {
        obj := obj.(status := obj.status.(phase := PHASE_PENDING));
        failed := UpdateStatus(obj, fault);
        return;
      }
      var cs := SetStatusCondition(obj.status.conditions, ConditionFor(v, now));
      obj := obj.(status := obj.status.(conditions := cs));
      obj := obj.(status := obj.status.(phase := if v.Passed? then PHASE_HEALTHY else PHASE_UNHEALTHY));
      obj := obj.(status := obj.status.(reason := Note(v)));
      var updateFailed := UpdateStatus(obj, fault);
      failed := v.Rejected? || updateFailed;
    }
  }

  // ----- runs -----

  datatype Event =
    | Tick(verdict: Verdict, now: int, getFault: Fault, fault: Fault)
    | EditSpec(spec: string)
    | SetPhase(phase: string)  // somebody else asks for a new check

  predicate Allowed(e: Event) {
    e.SetPhase? ==> e.phase == PHASE_UNKNOWN || e.phase == PHASE_PENDING
  }

  function Next(o: FrpServer, e: Event): FrpServer {
    match e
    case Tick(v, now, getFault, fault) => Reconciled(o, v, now, getFault, fault)
    case EditSpec(spec) => o.(spec := spec, version := o.version + 1)
    case SetPhase(phase) => o.(status := o.status.(phase := phase), version := o.version + 1)
  }

  function Run(o: FrpServer, events: seq<Event>): FrpServer
    decreases |events|
  {
    if events == [] then o else Run(Next(o, events[0]), events[1..])
  }

  /** The one Initialized condition, its reason and its message agree with phase and status reason. */
  predicate Coherent(st: Status) {
    && CountKind(st.conditions, INITIALIZED) <= 1
    && (st.phase == PHASE_HEALTHY || st.phase == PHASE_UNHEALTHY ==>
          var i := Find(st.conditions, INITIALIZED);
          && i < |st.conditions|
          && st.conditions[i].reason == (if st.phase == PHASE_HEALTHY then REASON_INITIALIZED else REASON_FAILED)
          && st.conditions[i].message == st.reason)
  }

  lemma JudgeCoherent(st: Status, v: Verdict, now: int)
    requires Coherent(st)
    ensures Coherent(Judge(st, v, now))
  {
    SetConditionCounts(st.conditions, ConditionFor(v, now));
    SetConditionFinds(st.conditions, ConditionFor(v, now));
    assert PHASE_PENDING[0] == 'P' && PHASE_HEALTHY[0] == 'H' && PHASE_UNHEALTHY[0] == 'U';
  }

  lemma CoherentStep(o: FrpServer, e: Event)
    requires Coherent(o.status) && Allowed(e)
    ensures Coherent(Next(o, e).status)
  {
    if e.Tick? { JudgeCoherent(o.status, e.verdict, e.now); }
    assert PHASE_PENDING[0] == 'P' && PHASE_HEALTHY[0] == 'H' && |PHASE_UNKNOWN| == 7 && |PHASE_UNHEALTHY| == 9;
    assert |PHASE_PENDING| == 7 && |PHASE_HEALTHY| == 7;
    assert PHASE_UNKNOWN[0] == 'U';
  }

  /** Along every run the status stays coherent. */
  lemma {:induction false} StatusRuns(o: FrpServer, events: seq<Event>)
    requires Coherent(o.status) && forall i | 0 <= i < |events| :: Allowed(events[i])
    ensures Coherent(Run(o, events).status)
    decreases |events|
  {
    if events != [] {
      CoherentStep(o, events[0]);
      StatusRuns(Next(o, events[0]), events[1..]);
    }
  }

  lemma JudgePhase(st: Status, v: Verdict, now: int)
    ensures Judge(st, v, now).phase != PHASE_UNKNOWN
  {
    assert PHASE_PENDING[0] == 'P' && PHASE_HEALTHY[0] == 'H' && PHASE_UNKNOWN[0] == 'U';
    assert |PHASE_UNKNOWN| == 7 && |PHASE_UNHEALTHY| == 9;
  }

  /** Reconcile never writes Unknown. */
  lemma NeverWritesUnknown(o: FrpServer, v: Verdict, now: int, getFault: Fault, fault: Fault)
    ensures var r := Reconciled(o, v, now, getFault, fault); r != o ==> r.status.phase != PHASE_UNKNOWN
  {
    JudgePhase(o.status, v, now);
  }

  /** The same verdict, whatever the clock says, gives the same status. */
  lemma JudgeRepeats(st: Status, v: Verdict, now: int, later: int)
    requires st.phase != PHASE_UNKNOWN
    ensures Judge(Judge(st, v, now), v, later) == Judge(st, v, now)
  {
    JudgePhase(st, v, now);
    SetConditionFinds(st.conditions, ConditionFor(v, now));
    var ds := SetCondition(st.conditions, ConditionFor(v, now));
    var i := Find(ds, INITIALIZED);
    assert SetCondition(ds, ConditionFor(v, later)) == ds[i := ds[i]] == ds;
  }

  /** The verdict `v` has nothing left to change, whatever the clock says. */
  ghost predicate AtRest(st: Status, v: Verdict) {
    st.phase != PHASE_UNKNOWN && forall now :: Judge(st, v, now) == st
  }

  lemma JudgedRests(st: Status, v: Verdict, now: int)
    requires st.phase != PHASE_UNKNOWN
    ensures AtRest(Judge(st, v, now), v)
  {
    JudgePhase(st, v, now);
    forall later ensures Judge(Judge(st, v, now), v, later) == Judge(st, v, now) {
      JudgeRepeats(st, v, now, later);
    }
  }

  predicate SameVerdict(events: seq<Event>, v: Verdict) {
    forall i | 0 <= i < |events| :: events[i].Tick? && events[i].verdict == v
  }

  /** How many writes are still to come while the verdict does not change. */
  ghost function WritesLeft(st: Status, v: Verdict): nat {
    if AtRest(st, v) then 0 else if st.phase == PHASE_UNKNOWN then 2 else 1
  }

  /** As long as the verdict repeats, each Reconcile either leaves the server as it is or uses up one of
      the writes left. */
  lemma TickUsesWrite(o: FrpServer, e: Event)
    requires e.Tick?
    ensures var r := Next(o, e);
      r == o || (r.version == o.version + 1 && WritesLeft(r.status, e.verdict) < WritesLeft(o.status, e.verdict))
  {
    JudgePhase(o.status, e.verdict, e.now);
    if o.status.phase != PHASE_UNKNOWN { JudgedRests(o.status, e.verdict, e.now); }
  }

  /** Over any number of Reconciles with one verdict, whatever the clocks read and whichever calls fail,
      at most two writes happen, and one unless the phase was Unknown. */
  lemma {:induction false} StatusSettles(o: FrpServer, v: Verdict, events: seq<Event>)
    requires SameVerdict(events, v)
    ensures Run(o, events).version + WritesLeft(Run(o, events).status, v) <= o.version + WritesLeft(o.status, v)
    ensures Run(o, events).version <= o.version + (if o.status.phase == PHASE_UNKNOWN then 2 else 1)
    decreases |events|
  {
    if events != [] {
      TickUsesWrite(o, events[0]);
      StatusSettles(Next(o, events[0]), v, events[1..]);
    }
  }

  /** Success is reported only for a healthy verdict that was stored, for a phase that was Unknown, or
      when the server could not be read at all. */
  lemma QuietMeansHealthy(o: FrpServer, v: Verdict, now: int, getFault: Fault, fault: Fault)
    requires !Reports(o, v, getFault, fault)
    ensures var r := Reconciled(o, v, now, getFault, fault);
      || (!getFault.Served? && r == o)
      || (o.status.phase == PHASE_UNKNOWN && r.status.phase == PHASE_PENDING)
      || (v.Passed? && r.status.phase == PHASE_HEALTHY && r.status.reason == HEALTHY_MESSAGE)
  {
  }

  /** Because a failure is written with status True as well, the transition time is that of the first
      condition ever written: no later change of health moves it. */
  lemma {:induction false} TransitionTimeFrozen(o: FrpServer, events: seq<Event>)
    requires var i := Find(o.status.conditions, INITIALIZED);
      i < |o.status.conditions| && o.status.conditions[i].status == STATUS_TRUE
    ensures var i := Find(o.status.conditions, INITIALIZED);
      var end := Run(o, events).status.conditions;
      && Find(end, INITIALIZED) == i < |end|
      && end[i].status == STATUS_TRUE && end[i].transition == o.status.conditions[i].transition
    decreases |events|
  {
    if events != [] {
      var e := events[0];
      if e.Tick? {
        SetConditionFinds(o.status.conditions, ConditionFor(e.verdict, e.now));
      }
      TransitionTimeFrozen(Next(o, e), events[1..]);
    }
  }

  // ----- what is stored, field by field -----

  /** The first condition of the kind, with this reason and message. */
  ghost predicate FirstOfKind(cs: seq<Condition>, i: int, kind: string, reason: string, message: string) {
    && 0 <= i < |cs| && cs[i].kind == kind && (forall j | 0 <= j < i :: cs[j].kind != kind)
    && cs[i].status == "True" && cs[i].reason == reason && cs[i].message == message
  }

  /** The status tells of the verdict, in phase, reason and condition. */
  ghost predicate Shows(st: Status, v: Verdict) {
    match v
    case Passed =>
      && st.phase == "Healthy" && st.reason == "FrpServer is healthy"
      && exists i :: FirstOfKind(st.conditions, i, "Initialized", "Initialized", "FrpServer is healthy")
    case Rejected(message) =>
      && st.phase == "Unhealthy" && st.reason == "Invalid frp config: " + message
      && exists i :: FirstOfKind(st.conditions, i, "Initialized", "InitializeFailed", "Invalid frp config: " + message)
  }

  /** The first condition of the kind may differ, or be new at the end; all others stay where and as they are. */
  ghost predicate OthersStay(cs: seq<Condition>, ds: seq<Condition>, kind: string) {
    exists i :: StayBut(cs, ds, kind, i)
  }

  predicate StayBut(cs: seq<Condition>, ds: seq<Condition>, kind: string, i: int) {
    && 0 <= i <= |cs| && (forall j | 0 <= j < i :: cs[j].kind != kind) && (i < |cs| ==> cs[i].kind == kind)
    && |ds| == (if i < |cs| then |cs| else |cs| + 1) && (forall j | 0 <= j < |cs| && j != i :: ds[j] == cs[j])
  }

  lemma SetConditionShown(cs: seq<Condition>, c: Condition)
    requires c.status == "True"
    ensures exists i :: FirstOfKind(SetCondition(cs, c), i, c.kind, c.reason, c.message)
    ensures OthersStay(cs, SetCondition(cs, c), c.kind)
  {
    SetConditionFinds(cs, c);
    var i := Find(cs, c.kind);
    assert FirstOfKind(SetCondition(cs, c), i, c.kind, c.reason, c.message);
    assert StayBut(cs, SetCondition(cs, c), c.kind, i);
  }

  lemma HealthyIsNotUnhealthy()
    ensures "Healthy" != "Unhealthy" && "Healthy" != "Unknown" && "Unhealthy" != "Unknown" && "Pending" != "Unknown"
  {
    assert "Healthy"[0] == 'H' && "Unhealthy"[0] == 'U' && "Pending"[0] == 'P' && "Unknown"[0] == 'U';
    assert |"Unhealthy"| == 9 && |"Unknown"| == 7;
  }

  /** One Reconcile of a stored server.  Nothing happens if it cannot be read or its write is refused; an Unknown
      phase only becomes Pending; and otherwise the status tells of the verdict: Healthy exactly if the probe
      passed, Unhealthy with the probe's own message exactly if it did not.  Other conditions, and everything
      but the status, are left alone. */
  lemma VerdictIsStored(o: FrpServer, v: Verdict, now: int, getFault: Fault, fault: Fault)
    ensures var r := Reconciled(o, v, now, getFault, fault);
      && r.spec == o.spec
      && (!getFault.Served? || fault.Refused? ==> r == o)
      && (getFault.Served? && !fault.Refused? ==>
            if o.status.phase == "Unknown" then r.status == o.status.(phase := "Pending")
            else
              && Shows(r.status, v) && OthersStay(o.status.conditions, r.status.conditions, "Initialized")
              && (r.status.phase == "Healthy" <==> v.Passed?) && (r.status.phase == "Unhealthy" <==> v.Rejected?))
  {
    HealthyIsNotUnhealthy();
    SetConditionShown(o.status.conditions, ConditionFor(v, now));
  }

  /** And the error that is returned: none without a read, one whenever the write was not acknowledged, and
      otherwise one exactly if the server is left Unhealthy. */
  lemma ErrorIffUnhealthy(o: FrpServer, v: Verdict, now: int, getFault: Fault, fault: Fault)
    ensures !getFault.Served? ==> !Reports(o, v, getFault, fault)
    ensures getFault.Served? && !fault.Served? ==> Reports(o, v, getFault, fault)
    ensures getFault.Served? && fault.Served? ==>
      (Reports(o, v, getFault, fault) <==> Reconciled(o, v, now, getFault, fault).status.phase == "Unhealthy")
  {
    HealthyIsNotUnhealthy();
    assert "Pending" != "Unhealthy" by { assert |"Pending"| == 7 && |"Unhealthy"| == 9; }
  }

  /** The event stores a verdict on a server in this phase. */
  predicate Stores(phase: string, e: Event) {
    e.Tick? && e.getFault.Served? && !e.fault.Refused? && phase != "Unknown"
  }

  /** The event leaves the status alone, whatever it is. */
  predicate Idle(e: Event) {
    e.EditSpec? || (e.Tick? && (!e.getFault.Served? || e.fault.Refused?))
  }

  lemma {:induction false} IdleRun(o: FrpServer, events: seq<Event>)
    requires forall i | 0 <= i < |events| :: Idle(events[i])
    ensures Run(o, events).status == o.status
    decreases |events|
  {
    if events != [] {
      IdleRun(Next(o, events[0]), events[1..]);
    }
  }

  lemma {:induction false} RunSplits(o: FrpServer, events: seq<Event>, n: nat)
    requires n <= |events|
    ensures Run(o, events) == Run(Run(o, events[..n]), events[n..])
    decreases n
  {
    if n == 0 {
      assert events[..0] == [] && events[0..] == events;
    } else {
      RunSplits(Next(o, events[0]), events[1..], n - 1);
      assert events[..n][0] == events[0] && events[..n][1..] == events[1..][..n - 1];
      assert events[1..][n - 1..] == events[n..];
    }
  }

  /** Along every run the status tells of the last verdict that was stored, whatever came before it, as long as
      nobody has asked for a new check since. */
  lemma StatusFollowsLastVerdict(o: FrpServer, events: seq<Event>, n: nat)
    requires n < |events| && Stores(Run(o, events[..n]).status.phase, events[n])
    requires forall i | n < i < |events| :: Idle(events[i])
    ensures Shows(Run(o, events).status, events[n].verdict)
  {
    var at, e := Run(o, events[..n]), events[n];
    RunSplits(o, events, n);
    assert events[n..][0] == e && events[n..][1..] == events[n + 1..];
    VerdictIsStored(at, e.verdict, e.now, e.getFault, e.fault);
    IdleRun(Next(at, e), events[n + 1..]);
  }
}
