/** taskManager: a mutex, a wait group and a cancellable context shared by any number of GoCtx
    callers, Close callers and tasks.  One action is one operation on a shared primitive. */
module TaskManager {
  import opened Objects

  type Tid = nat

  /** The life of a goroutine started by GoCtx; `NoTask` is any other goroutine.  A task that panics
      runs its deferred Done first, then reaches the recovery handler, which logs and panics again. */
  datatype Body = NoTask | Ready | Active | Ending(panicked: bool) | Recovering | Over

  /** Where a goroutine stands in a call on the manager. */
  datatype Call =
    | Quiet
    | GoWaits | GoLocked | GoAdded | GoSpawned
    | CloseWaits | CloseLocked | CloseCancelled | ClosePassed

  datatype Thread = Thread(body: Body, call: Call)

  datatype State = State(lock: Option<Tid>, cancelled: bool, counter: int, threads: map<Tid, Thread>, crashed: bool)

  datatype Action =
    | Arrive(t: Tid) | ParentCancel
    | CallGo(t: Tid) | CallClose(t: Tid)
    | Acquire(t: Tid) | Add(t: Tid) | Spawn(t: Tid, child: Tid) | Cancel(t: Tid) | PassWait(t: Tid) | Unlock(t: Tid)
    | Begin(t: Tid) | Return(t: Tid) | Panic(t: Tid) | SignalDone(t: Tid) | Rethrow(t: Tid)

  const FRESH := State(None, false, 0, map[], false)

  predicate CallIs(s: State, t: Tid, call: Call) { t in s.threads && s.threads[t].call == call }

  predicate Enabled(s: State, a: Action) {
    !s.crashed &&
    match a
    case Arrive(t) => t !in s.threads
    case ParentCancel => true
    case CallGo(t) => CallIs(s, t, Quiet) && (s.threads[t].body.NoTask? || s.threads[t].body.Active?)
    case CallClose(t) => CallIs(s, t, Quiet) && (s.threads[t].body.NoTask? || s.threads[t].body.Active?)
    case Acquire(t) => (CallIs(s, t, GoWaits) || CallIs(s, t, CloseWaits)) && s.lock.None?
    case Add(t) => CallIs(s, t, GoLocked)
    case Spawn(t, child) => CallIs(s, t, GoAdded) && child !in s.threads
    case Cancel(t) => CallIs(s, t, CloseLocked)
    case PassWait(t) => CallIs(s, t, CloseCancelled) && s.counter == 0
    case Unlock(t) => CallIs(s, t, GoSpawned) || CallIs(s, t, ClosePassed)
    case Begin(t) => t in s.threads && s.threads[t].body.Ready?
    case Return(t) => CallIs(s, t, Quiet) && s.threads[t].body.Active?
    case Panic(t) => CallIs(s, t, Quiet) && s.threads[t].body.Active?
    case SignalDone(t) => t in s.threads && s.threads[t].body.Ending?
    case Rethrow(t) => t in s.threads && s.threads[t].body.Recovering?
  }

  function SetCall(s: State, t: Tid, call: Call): State
    requires t in s.threads
  {
    s.(threads := s.threads[t := s.threads[t].(call := call)])
  }

  function SetBody(s: State, t: Tid, body: Body): State
    requires t in s.threads
  {
    s.(threads := s.threads[t := s.threads[t].(body := body)])
  }

  function Apply(s: State, a: Action): State
    requires Enabled(s, a)
  {
    match a
    case Arrive(t) => s.(threads := s.threads[t := Thread(NoTask, Quiet)])
    case ParentCancel => s.(cancelled := true)
    case CallGo(t) => SetCall(s, t, GoWaits)
    case CallClose(t) => SetCall(s, t, CloseWaits)
    case Acquire(t) => SetCall(s, t, if s.threads[t].call.GoWaits? then GoLocked else CloseLocked).(lock := Some(t))
    case Add(t) => SetCall(s, t, GoAdded).(counter := s.counter + 1)
    case Spawn(t, child) =>
      var s1 := SetCall(s, t, GoSpawned);
      s1.(threads := s1.threads[child := Thread(Ready, Quiet)])
    case Cancel(t) => SetCall(s, t, CloseCancelled).(cancelled := true)
    case PassWait(t) => SetCall(s, t, ClosePassed)
    case Unlock(t) => SetCall(s, t, Quiet).(lock := None)
    case Begin(t) => SetBody(s, t, Active)
    case Return(t) => SetBody(s, t, Ending(false))
    case Panic(t) => SetBody(s, t, Ending(true))
    case SignalDone(t) =>
      SetBody(s, t, if s.threads[t].body.panicked then Recovering else Over).(counter := s.counter - 1)
    case Rethrow(t) => SetBody(s, t, Over).(crashed := true)
  }

  // ----- the invariant -----

  predicate Critical(call: Call) {
    !call.Quiet? && !call.GoWaits? && !call.CloseWaits?
  }

  predicate Pending(body: Body) {
    body.Ready? || body.Active? || body.Ending?
  }

  predicate Finished(body: Body) {
    body.Recovering? || body.Over?
  }

  /** Tasks that have been started and have not signalled the wait group. */
  function Unfinished(s: State): set<Tid> { set t | t in s.threads && Pending(s.threads[t].body) }

  function Completed(s: State): set<Tid> { set t | t in s.threads && Finished(s.threads[t].body) }

  /** A GoCtx caller has registered a task that it has not started yet. */
  function Registering(s: State): nat {
    if s.lock.Some? && CallIs(s, s.lock.value, GoAdded) then 1 else 0
  }

  /** Tasks registered with the wait group so far. */
  function Registered(s: State): nat { |Unfinished(s)| + |Completed(s)| + Registering(s) }

  /** The lock is held by exactly the goroutine inside a critical section, and a Close that has passed
      its wait has seen the counter at zero after cancelling. */
  ghost predicate LockInv(s: State) {
    HolderInv(s) && CallerInv(s)
  }

  ghost predicate HolderInv(s: State) {
    && (forall t | t in s.threads && Critical(s.threads[t].call) :: s.lock == Some(t))
    && (s.lock.Some? ==> s.lock.value in s.threads && Critical(s.threads[s.lock.value].call))
  }

  ghost predicate CallerInv(s: State) {
    && (forall t | t in s.threads && !s.threads[t].call.Quiet? ::
          s.threads[t].body.NoTask? || s.threads[t].body.Active?)
    && (forall t | t in s.threads && (s.threads[t].call.CloseCancelled? || s.threads[t].call.ClosePassed?) ::
          s.cancelled)
  }

  ghost predicate CountInv(s: State) {
    && s.counter == |Unfinished(s)| + Registering(s)
    && (forall t | t in s.threads && s.threads[t].call.ClosePassed? :: s.counter == 0)
  }

  ghost predicate Inv(s: State) {
    LockInv(s) && CountInv(s)
  }

  lemma SetCallTasks(s: State, t: Tid, call: Call)
    requires t in s.threads
    ensures Unfinished(SetCall(s, t, call)) == Unfinished(s) && Completed(SetCall(s, t, call)) == Completed(s)
  {
  }

  lemma SetBodyTasks(s: State, t: Tid, body: Body)
    requires t in s.threads
    ensures Unfinished(SetBody(s, t, body)) == (if Pending(body) then Unfinished(s) + {t} else Unfinished(s) - {t})
    ensures Completed(SetBody(s, t, body)) == (if Finished(body) then Completed(s) + {t} else Completed(s) - {t})
  {
  }

  lemma SameThreads(s: State, s': State)
    requires s'.threads == s.threads
    ensures Unfinished(s') == Unfinished(s) && Completed(s') == Completed(s)
  {
  }

  /** How each action changes the sets of unfinished and of completed tasks. */
  lemma TasksAfter(s: State, a: Action)
    requires Enabled(s, a)
    ensures var s' := Apply(s, a);
      && Unfinished(s') == (match a
           case Spawn(_, child) => Unfinished(s) + {child}
           case SignalDone(t) => Unfinished(s) - {t}
           case _ => Unfinished(s))
      && Completed(s') == (if a.SignalDone? then Completed(s) + {a.t} else Completed(s))
    ensures a.Spawn? ==> a.child !in Unfinished(s)
    ensures a.SignalDone? ==> a.t in Unfinished(s) && a.t !in Completed(s)
  {
    var s' := Apply(s, a);
    match a
    case Arrive(t) =>
      assert Unfinished(s') == Unfinished(s);
      assert Completed(s') == Completed(s);
    case ParentCancel =>
    case CallGo(t) => SetCallTasks(s, t, GoWaits);
    case CallClose(t) => SetCallTasks(s, t, CloseWaits);
    case Acquire(t) =>
      var s1 := SetCall(s, t, if s.threads[t].call.GoWaits? then GoLocked else CloseLocked);
      SetCallTasks(s, t, if s.threads[t].call.GoWaits? then GoLocked else CloseLocked);
      SameThreads(s1, s');
    case Add(t) => SetCallTasks(s, t, GoAdded); SameThreads(SetCall(s, t, GoAdded), s');
    case Spawn(t, child) =>
      SetCallTasks(s, t, GoSpawned);
      assert Unfinished(s') == Unfinished(SetCall(s, t, GoSpawned)) + {child};
      assert Completed(s') == Completed(SetCall(s, t, GoSpawned));
    case Cancel(t) => SetCallTasks(s, t, CloseCancelled); SameThreads(SetCall(s, t, CloseCancelled), s');
    case PassWait(t) => SetCallTasks(s, t, ClosePassed);
    case Unlock(t) => SetCallTasks(s, t, Quiet); SameThreads(SetCall(s, t, Quiet), s');
    case Begin(t) => SetBodyTasks(s, t, Active);
    case Return(t) => SetBodyTasks(s, t, Ending(false));
    case Panic(t) => SetBodyTasks(s, t, Ending(true));
    case SignalDone(t) =>
      var body := if s.threads[t].body.panicked then Recovering else Over;
      SetBodyTasks(s, t, body);
      SameThreads(SetBody(s, t, body), s');
    case Rethrow(t) => SetBodyTasks(s, t, Over); SameThreads(SetBody(s, t, Over), s');
  }

  lemma HolderStep(s: State, a: Action)
    requires HolderInv(s) && Enabled(s, a)
    ensures HolderInv(Apply(s, a))
  {
  }

  lemma CallerStep(s: State, a: Action)
    requires CallerInv(s) && Enabled(s, a)
    ensures CallerInv(Apply(s, a))
  {
  }

  lemma LockStep(s: State, a: Action)
    requires LockInv(s) && Enabled(s, a)
    ensures LockInv(Apply(s, a))
  {
    HolderStep(s, a);
    CallerStep(s, a);
  }

  lemma Singleton(tasks: set<Tid>, t: Tid)
    ensures t in tasks ==> |tasks - {t}| == |tasks| - 1
    ensures t !in tasks ==> |tasks + {t}| == |tasks| + 1
  {
  }

  lemma UnfinishedAfter(s: State, a: Action)
    requires Enabled(s, a)
    ensures |Unfinished(Apply(s, a))| ==
      |Unfinished(s)| + (if a.Spawn? then 1 else 0) - (if a.SignalDone? then 1 else 0)
  {
    TasksAfter(s, a);
    if a.Spawn? {
      Singleton(Unfinished(s), a.child);
    } else if a.SignalDone? {
      Singleton(Unfinished(s), a.t);
    }
  }

  lemma RegisteringAfter(s: State, a: Action)
    requires LockInv(s) && Enabled(s, a)
    ensures Registering(Apply(s, a)) == Registering(s) + (if a.Add? then 1 else 0) - (if a.Spawn? then 1 else 0)
  {
  }

  lemma InvStep(s: State, a: Action)
    requires Inv(s) && Enabled(s, a)
    ensures Inv(Apply(s, a))
  {
    LockStep(s, a);
    UnfinishedAfter(s, a);
    RegisteringAfter(s, a);
  }

  // ----- runs -----

  predicate Runs(s: State, run: seq<Action>)
    decreases |run|
  {
    run == [] || (Enabled(s, run[0]) && Runs(Apply(s, run[0]), run[1..]))
  }

  function After(s: State, run: seq<Action>): State
    requires Runs(s, run)
    decreases |run|
  {
    if run == [] then s else After(Apply(s, run[0]), run[1..])
  }

  lemma {:induction false} InvAlways(s: State, run: seq<Action>)
    requires Inv(s) && Runs(s, run)
    ensures Inv(After(s, run))
    decreases |run|
  {
    if run != [] {
      InvStep(s, run[0]);
      InvAlways(Apply(s, run[0]), run[1..]);
    }
  }

  lemma {:induction false} RunsJoin(s: State, first: seq<Action>, second: seq<Action>)
    requires Runs(s, first) && Runs(After(s, first), second)
    ensures Runs(s, first + second) && After(s, first + second) == After(After(s, first), second)
    decreases |first|
  {
    if first == [] {
      assert first + second == second;
    } else {
      assert (first + second)[1..] == first[1..] + second;
      RunsJoin(Apply(s, first[0]), first[1..], second);
    }
  }

  /** In every interleaving, from the moment a Close passes its wait until it unlocks, the context is
      cancelled, no started task is unfinished, and no task can start. */
  lemma CloseIsSafe(run: seq<Action>, t: Tid)
    requires Runs(FRESH, run) && CallIs(After(FRESH, run), t, ClosePassed)
    ensures var s := After(FRESH, run);
      && s.cancelled && Unfinished(s) == {} && s.lock == Some(t)
      && (forall a | Enabled(s, a) :: !a.Add? && !a.Spawn? && !a.Begin? && !a.Acquire?)
  {
    FreshInv();
    InvAlways(FRESH, run);
    var s := After(FRESH, run);
    assert forall u | u in s.threads && s.threads[u].body.Ready? :: u in Unfinished(s);
  }

  lemma FreshInv()
    ensures Inv(FRESH)
  {
    assert Unfinished(FRESH) == {};
  }

  // ----- wait group accounting -----

  /** The run's operations on the wait group. */
  function Adds(run: seq<Action>): nat {
    if run == [] then 0 else (if run[0].Add? then 1 else 0) + Adds(run[1..])
  }

  function Dones(run: seq<Action>): nat {
    if run == [] then 0 else (if run[0].SignalDone? then 1 else 0) + Dones(run[1..])
  }

  function DonesOf(run: seq<Action>, t: Tid): nat {
    if run == [] then 0 else (if run[0] == SignalDone(t) then 1 else 0) + DonesOf(run[1..], t)
  }

  lemma {:induction false} CountsAlong(s: State, run: seq<Action>, t: Tid)
    requires Inv(s) && Runs(s, run)
    ensures After(s, run).counter == s.counter + Adds(run) - Dones(run)
    ensures |Completed(After(s, run))| == |Completed(s)| + Dones(run)
    ensures DonesOf(run, t) == (if t in Completed(After(s, run)) then 1 else 0) - (if t in Completed(s) then 1 else 0)
    decreases |run|
  {
    if run != [] {
      InvStep(s, run[0]);
      TasksAfter(s, run[0]);
      CountsAlong(Apply(s, run[0]), run[1..], t);
    }
  }

  /** In every reachable state the counter is the number of tasks registered minus the number finished
      and never negative; each task signals exactly once when it is done, by returning or by panicking,
      and not before. */
  lemma WaitGroupAccounting(run: seq<Action>, t: Tid)
    requires Runs(FRESH, run)
    ensures var s := After(FRESH, run);
      && s.counter == Adds(run) - Dones(run) >= 0
      && Adds(run) == Registered(s) && Dones(run) == |Completed(s)|
      && DonesOf(run, t) == if t in s.threads && Finished(s.threads[t].body) then 1 else 0
  {
    FreshInv();
    InvAlways(FRESH, run);
    CountsAlong(FRESH, run, t);
    assert Completed(FRESH) == {};
  }

  // ----- Close makes progress -----

  /** `t` is in Close and holds the lock. */
  predicate Closing(s: State, t: Tid) {
    CallIs(s, t, CloseLocked) || CallIs(s, t, CloseCancelled)
  }

  /** While a Close holds the lock the unfinished tasks only get fewer, and every Done is one less. */
  lemma CloseShrinks(s: State, t: Tid, a: Action)
    requires Inv(s) && Closing(s, t) && Enabled(s, a)
    ensures Unfinished(Apply(s, a)) <= Unfinished(s)
    ensures a.SignalDone? ==> |Unfinished(Apply(s, a))| == |Unfinished(s)| - 1
  {
    TasksAfter(s, a);
  }

  /** The steps unfinished tasks still have to take: to begin, to end, and to signal. */
  function Unbegun(s: State): set<Tid> { set t | t in s.threads && s.threads[t].body.Ready? }
  function Unended(s: State): set<Tid> {
    set t | t in s.threads && (s.threads[t].body.Ready? || s.threads[t].body.Active?)
  }
  function Remaining(s: State): nat { |Unbegun(s)| + |Unended(s)| + |Unfinished(s)| }

  predicate TaskStep(a: Action) { a.Begin? || a.Return? || a.Panic? || a.SignalDone? }

  lemma StagesAfter(s: State, a: Action)
    requires Enabled(s, a) && !a.Spawn?
    ensures Unbegun(Apply(s, a)) == if a.Begin? then Unbegun(s) - {a.t} else Unbegun(s)
    ensures Unended(Apply(s, a)) == if a.Return? || a.Panic? then Unended(s) - {a.t} else Unended(s)
    ensures a.Begin? ==> a.t in Unbegun(s)
    ensures a.Return? || a.Panic? ==> a.t in Unended(s)
  {
    var s' := Apply(s, a);
    if a.Begin? {
      assert Unbegun(s') == Unbegun(s) - {a.t};
      assert Unended(s') == Unended(s);
    } else if a.Return? || a.Panic? {
      assert Unbegun(s') == Unbegun(s);
      assert Unended(s') == Unended(s) - {a.t};
    } else {
      assert Unbegun(s') == Unbegun(s);
      assert Unended(s') == Unended(s);
    }
  }

  /** Each of the three steps of a task shrinks one of the three sets by one. */
  lemma StageCounts(s: State, a: Action)
    requires Enabled(s, a) && !a.Spawn?
    ensures |Unbegun(Apply(s, a))| == |Unbegun(s)| - (if a.Begin? then 1 else 0)
    ensures |Unended(Apply(s, a))| == |Unended(s)| - (if a.Return? || a.Panic? then 1 else 0)
    ensures |Unfinished(Apply(s, a))| == |Unfinished(s)| - (if a.SignalDone? then 1 else 0)
  {
    TasksAfter(s, a);
    StagesAfter(s, a);
    if a.Begin? {
      Singleton(Unbegun(s), a.t);
    } else if a.Return? || a.Panic? {
      Singleton(Unended(s), a.t);
    } else if a.SignalDone? {
      Singleton(Unfinished(s), a.t);
    }
  }

  lemma RemainingAfter(s: State, t: Tid, a: Action)
    requires Inv(s) && Closing(s, t) && Enabled(s, a)
    ensures Remaining(Apply(s, a)) == Remaining(s) - (if TaskStep(a) then 1 else 0)
  {
    assert !a.Spawn?;
    StageCounts(s, a);
  }

  function TaskSteps(run: seq<Action>): nat {
    if run == [] then 0 else (if TaskStep(run[0]) then 1 else 0) + TaskSteps(run[1..])
  }

  /** While a Close waits, tasks use up a fixed number of steps: nothing anybody does adds to it. */
  lemma {:induction false} CloseWaitsBoundedly(s: State, t: Tid, run: seq<Action>)
    requires Inv(s) && Closing(s, t) && Runs(s, run) && PassWait(t) !in run
    ensures TaskSteps(run) + Remaining(After(s, run)) == Remaining(s)
    decreases |run|
  {
    if run != [] {
      RemainingAfter(s, t, run[0]);
      InvStep(s, run[0]);
      assert run[0] in run;
      assert Closing(Apply(s, run[0]), t);
      CloseWaitsBoundedly(Apply(s, run[0]), t, run[1..]);
    }
  }

  /** An unfinished task is itself inside a call on the manager. */
  predicate CallsBack(s: State, u: Tid) {
    u in Unfinished(s) && !s.threads[u].call.Quiet?
  }

  /** A Close in its wait and a task that has called back. */
  ghost predicate Stuck(s: State, t: Tid, u: Tid) {
    Inv(s) && CallIs(s, t, CloseCancelled) && CallsBack(s, u)
  }

  /** The goroutine that performs the action. */
  function Actor(a: Action): Option<Tid> { if a.ParentCancel? then None else Some(a.t) }

  /** An action touches no goroutine but its own and the one it starts. */
  lemma OthersKeepThread(s: State, a: Action, u: Tid)
    requires Enabled(s, a) && u in s.threads && Actor(a) != Some(u)
    ensures u in Apply(s, a).threads && Apply(s, a).threads[u] == s.threads[u]
  {
  }

  lemma UnfinishedCounts(s: State, u: Tid)
    requires Inv(s) && u in Unfinished(s)
    ensures s.counter > 0
  {
  }

  /** Neither of the two can move. */
  lemma StuckCannotAct(s: State, t: Tid, u: Tid, a: Action)
    requires Stuck(s, t, u) && Enabled(s, a)
    ensures Actor(a) != Some(t) && Actor(a) != Some(u)
  {
    UnfinishedCounts(s, u);
  }

  lemma StuckStep(s: State, t: Tid, u: Tid, a: Action)
    requires Stuck(s, t, u) && Enabled(s, a)
    ensures Stuck(Apply(s, a), t, u) && Apply(s, a).threads[u] == s.threads[u]
  {
    InvStep(s, a);
    StuckCannotAct(s, t, u, a);
    OthersKeepThread(s, a, t);
    OthersKeepThread(s, a, u);
  }

  /** Both stay blocked for ever. */
  lemma {:induction false} CallbackDeadlocks(s: State, t: Tid, u: Tid, run: seq<Action>)
    requires Stuck(s, t, u) && Runs(s, run)
    ensures Stuck(After(s, run), t, u) && After(s, run).threads[u] == s.threads[u]
    decreases |run|
  {
    if run != [] {
      StuckStep(s, t, u, run[0]);
      CallbackDeadlocks(Apply(s, run[0]), t, u, run[1..]);
    }
  }

  /** Such a state is reached: a goroutine calls GoCtx while a Close waits for it. */
  lemma StuckIsReached() returns (run: seq<Action>)
    ensures Runs(FRESH, run) && Stuck(After(FRESH, run), 0, 1)
  {
    var closing;
    run, closing := CloseBegun();
    var s := closing;
    assert s.threads[1] == Thread(Active, Quiet);
    run, s := Onward(run, s, CallGo(1));
    FreshInv();
    InvAlways(FRESH, run);
  }

  lemma CloseBegun() returns (run: seq<Action>, s: State)
    ensures Led(FRESH, run, s)
    ensures s == State(Some(0), true, 1, map[0 := Thread(NoTask, CloseCancelled), 1 := Thread(Active, Quiet)], false)
  {
    var started;
    run, started := GoroutineStarted();
    s := started;
    run, s := Onward(run, s, CallClose(0));
    run, s := Onward(run, s, Acquire(0));
    run, s := Onward(run, s, Cancel(0));
  }

  lemma GoroutineStarted() returns (run: seq<Action>, s: State)
    ensures Led(FRESH, run, s)
    ensures s == State(None, false, 1, map[0 := Thread(NoTask, Quiet), 1 := Thread(Active, Quiet)], false)
  {
    run, s := GoroutineCounted();
    run, s := Onward(run, s, Spawn(0, 1));
    run, s := Onward(run, s, Unlock(0));
    run, s := Onward(run, s, Begin(1));
  }

  lemma GoroutineCounted() returns (run: seq<Action>, s: State)
    ensures Led(FRESH, run, s)
    ensures s == State(Some(0), false, 1, map[0 := Thread(NoTask, GoAdded)], false)
  {
    run, s := [], FRESH;
    run, s := Onward(run, s, Arrive(0));
    run, s := Onward(run, s, CallGo(0));
    run, s := Onward(run, s, Acquire(0));
    run, s := Onward(run, s, Add(0));
  }

  lemma Onward(run: seq<Action>, s: State, a: Action) returns (longer: seq<Action>, next: State)
    requires Led(FRESH, run, s) && Enabled(s, a)
    ensures Led(FRESH, longer, next) && next == Apply(s, a)
  {
    LedOn(FRESH, run, s, a);
    longer, next := run + [a], Apply(s, a);
  }

  /** The actions that bring an unfinished task to its end. */
  function Finish(s: State, u: Tid): seq<Action>
    requires u in Unfinished(s)
  {
    match s.threads[u].body
    case Ready => [Begin(u), Return(u), SignalDone(u)]
    case Active => [Return(u), SignalDone(u)]
    case _ => [SignalDone(u)]
  }

  lemma Runs1(s: State, a: Action)
    requires Enabled(s, a)
    ensures Runs(s, [a]) && After(s, [a]) == Apply(s, a)
  {
    assert [a][1..] == [];
  }

  ghost predicate CalmClose(s: State, t: Tid) {
    Inv(s) && !s.crashed && CallIs(s, t, CloseCancelled) && forall u | u in Unfinished(s) :: s.threads[u].call.Quiet?
  }

  lemma CalmStep(s: State, t: Tid, u: Tid, a: Action)
    requires CalmClose(s, t) && u in Unfinished(s) && Enabled(s, a) &&
      (a == Begin(u) || a == Return(u) || a == SignalDone(u))
    ensures CalmClose(Apply(s, a), t)
    ensures Unfinished(Apply(s, a)) == if a.SignalDone? then Unfinished(s) - {u} else Unfinished(s)
  {
    InvStep(s, a);
    TasksAfter(s, a);
  }

  lemma FinishOne(s: State, t: Tid, u: Tid) returns (run: seq<Action>)
    requires CalmClose(s, t) && u in Unfinished(s)
    ensures Runs(s, run) && CalmClose(After(s, run), t) && Unfinished(After(s, run)) == Unfinished(s) - {u}
    decreases if s.threads[u].body.Ready? then 2 else if s.threads[u].body.Active? then 1 else 0
  {
    var a := Finish(s, u)[0];
    CalmStep(s, t, u, a);
    var s1 := Apply(s, a);
    if a.SignalDone? {
      run := [a];
      Runs1(s, a);
    } else {
      var rest := FinishOne(s1, t, u);
      Runs1(s, a);
      RunsJoin(s, [a], rest);
      run := [a] + rest;
    }
  }

  lemma {:induction false} FinishAll(s: State, t: Tid) returns (run: seq<Action>)
    requires CalmClose(s, t)
    ensures Runs(s, run) && CallIs(After(s, run), t, ClosePassed)
    decreases Unfinished(s)
  {
    if Unfinished(s) == {} {
      assert Enabled(s, PassWait(t));
      run := [PassWait(t)];
      Runs1(s, PassWait(t));
    } else {
      var u :| u in Unfinished(s);
      var first := FinishOne(s, t, u);
      var rest := FinishAll(After(s, first), t);
      RunsJoin(s, first, rest);
      run := first + rest;
    }
  }

  /** The run lets the Close of `t` through its wait. */
  predicate LetsPass(s: State, t: Tid, run: seq<Action>) {
    Runs(s, run) && CallIs(After(s, run), t, ClosePassed)
  }

  lemma StuckNeverPasses(s: State, t: Tid, u: Tid)
    requires Stuck(s, t, u)
    ensures forall run :: !LetsPass(s, t, run)
  {
    forall run ensures !LetsPass(s, t, run) {
      if Runs(s, run) { CallbackDeadlocks(s, t, u, run); }
    }
  }

  /** A Close that waits can get through exactly when no unfinished task is inside a call on the
      manager. */
  lemma CloseCanPassIff(s: State, t: Tid)
    requires Inv(s) && !s.crashed && CallIs(s, t, CloseCancelled)
    ensures (exists run :: LetsPass(s, t, run)) <==> (forall u | u in Unfinished(s) :: !CallsBack(s, u))
  {
    if u :| u in Unfinished(s) && CallsBack(s, u) {
      StuckNeverPasses(s, t, u);
    } else {
      assert CalmClose(s, t) by {
        forall u | u in Unfinished(s) ensures s.threads[u].call.Quiet? { assert !CallsBack(s, u); }
      }
      var run := FinishAll(s, t);
      assert LetsPass(s, t, run);
    }
  }

  // ----- panics -----

  /** The goroutine has panicked and the process has not felt it yet. */
  predicate Panicking(body: Body) { body == Ending(true) || body.Recovering? }

  lemma PanicStep(s: State, t: Tid, a: Action)
    requires t in s.threads && Panicking(s.threads[t].body) && Enabled(s, a)
    ensures t in Apply(s, a).threads
    ensures Panicking(Apply(s, a).threads[t].body) || (a == Rethrow(t) && Apply(s, a).crashed)
  {
    if Actor(a) != Some(t) { OthersKeepThread(s, a, t); }
  }

  /** The recovery handler panics again: a task that has panicked is never over in a living process, and
      once it is the process is gone. */
  lemma {:induction false} PanicEndsProcess(s: State, t: Tid, run: seq<Action>)
    requires t in s.threads && Panicking(s.threads[t].body) && Runs(s, run)
    ensures t in After(s, run).threads && (Panicking(After(s, run).threads[t].body) || After(s, run).crashed)
    decreases |run|
  {
    if run != [] {
      PanicStep(s, t, run[0]);
      if Apply(s, run[0]).crashed {
        assert run[1..] == [];
      } else {
        PanicEndsProcess(Apply(s, run[0]), t, run[1..]);
      }
    }
  }

  ghost predicate AllWell(s: State) {
    !s.crashed && forall t | t in s.threads :: !Panicking(s.threads[t].body)
  }

  lemma WellStep(s: State, a: Action)
    requires AllWell(s) && Enabled(s, a) && !a.Panic?
    ensures AllWell(Apply(s, a))
  {
  }

  /** And nothing else ends it: as long as no goroutine panics, however many return, close or wait, the process
      lives on. */
  lemma {:induction false} OnlyPanicsEndProcess(s: State, run: seq<Action>)
    requires AllWell(s) && Runs(s, run) && forall a | a in run :: !a.Panic?
    ensures AllWell(After(s, run))
    decreases |run|
  {
    if run != [] {
      assert run[0] in run;
      WellStep(s, run[0]);
      OnlyPanicsEndProcess(Apply(s, run[0]), run[1..]);
    }
  }

  // ----- the code -----

  /** The actions of one goroutine, in order. */
  function Own(run: seq<Action>, t: Tid): seq<Action> {
    if run == [] then []
    else
      var n := |run| - 1;
      Own(run[..n], t) + (if Actor(run[n]) == Some(t) then [run[n]] else [])
  }

  lemma OwnSnoc(run: seq<Action>, a: Action, t: Tid)
    ensures Own(run + [a], t) == Own(run, t) + (if Actor(a) == Some(t) then [a] else [])
  {
    assert (run + [a])[..|run|] == run;
  }

  lemma {:induction false} Unused(used: set<Tid>) returns (t: Tid)
    ensures forall u | u in used :: u < t
    decreases used
  {
    if used == {} {
      t := 0;
    } else {
      var u :| u in used;
      var above := Unused(used - {u});
      t := if u < above then above else u + 1;
      forall v | v in used ensures v < t {
        assert v != u ==> v in used - {u};
      }
    }
  }

  /** The goroutine has done the first `n` of its operations. */
  predicate Did(run: seq<Action>, t: Tid, steps: seq<Action>, n: nat) {
    n <= |steps| && Own(run, t) == steps[..n]
  }

  /** The run has led from `start` to `now`. */
  predicate Led(start: State, run: seq<Action>, now: State) { Runs(start, run) && After(start, run) == now }

  lemma LedOn(start: State, run: seq<Action>, now: State, a: Action)
    requires Led(start, run, now) && Enabled(now, a)
    ensures Led(start, run + [a], Apply(now, a))
  {
    Runs1(now, a);
    RunsJoin(start, run, [a]);
  }

  /** The manager's fields and the goroutines that use it.  Before every operation of a method the other
      goroutines may do anything they can. */
  class Manager {
    var lock: Option<Tid>
    var cancelled: bool
    var counter: int
    var threads: map<Tid, Thread>
    var crashed: bool

    function Now(): State reads this { State(lock, cancelled, counter, threads, crashed) }

    constructor ()
      ensures Now() == FRESH && Inv(Now())
    {
      lock, cancelled, counter, threads, crashed := None, false, 0, map[], false;
      new;
      FreshInv();
    }

    method MoveCall(t: Tid, call: Call)
      requires t in threads
      modifies this`threads
      ensures Now() == SetCall(old(Now()), t, call)
    {
      threads := threads[t := threads[t].(call := call)];
    }

    method MoveBody(t: Tid, body: Body)
      requires t in threads
      modifies this`threads
      ensures Now() == SetBody(old(Now()), t, body)
    {
      threads := threads[t := threads[t].(body := body)];
    }

    /** One operation of a shared primitive. */
    method Fire(a: Action)
      requires Inv(Now()) && Enabled(Now(), a)
      modifies this
      ensures Now() == Apply(old(Now()), a) && Inv(Now())
    {
      ghost var before := Now();
      match a {
      case Arrive(t) => threads := threads[t := Thread(NoTask, Quiet)];
      case ParentCancel => cancelled := true;
      case CallGo(t) => MoveCall(t, GoWaits);
      case CallClose(t) => MoveCall(t, CloseWaits);
      case Acquire(t) =>
        lock := Some(t);
        MoveCall(t, if threads[t].call.GoWaits? then GoLocked else CloseLocked);
      case Add(t) => counter := counter + 1; MoveCall(t, GoAdded);
      case Spawn(t, child) =>
        MoveCall(t, GoSpawned);
        threads := threads[child := Thread(Ready, Quiet)];
      case Cancel(t) => cancelled := true; MoveCall(t, CloseCancelled);
      case PassWait(t) => MoveCall(t, ClosePassed);
      case Unlock(t) => MoveCall(t, Quiet); lock := None;
      case Begin(t) => MoveBody(t, Active);
      case Return(t) => MoveBody(t, Ending(false));
      case Panic(t) => MoveBody(t, Ending(true));
      case SignalDone(t) =>
        counter := counter - 1;
        MoveBody(t, if threads[t].body.panicked then Recovering else Over);
      case Rethrow(t) => MoveBody(t, Over); crashed := true;
      }
      InvStep(before, a);
    }

    /** Any number of actions of the other goroutines. */
    method Others(t: Tid, ghost start: State, ghost run: seq<Action>) returns (ghost run': seq<Action>)
      requires Inv(Now()) && Led(start, run, Now()) && t in threads
      modifies this
      ensures Inv(Now()) && Led(start, run', Now()) && Own(run', t) == Own(run, t)
      ensures t in threads && threads[t] == old(threads[t])
    {
      run' := run;
      var n: nat := *;
      while n > 0
        invariant Inv(Now()) && Led(start, run', Now()) && Own(run', t) == Own(run, t)
        invariant t in threads && threads[t] == old(threads[t])
      {
        var a: Action := *;
        if Enabled(Now(), a) && Actor(a) != Some(t) {
          OthersKeepThread(Now(), a, t);
          LedOn(start, run', Now(), a);
          OwnSnoc(run', a, t);
          Fire(a);
          run' := run' + [a];
        }
        n := n - 1;
      }
    }

    /** The goroutine's next operation, once the others have had their turn; `done` is false when it blocks
        there or the process has ended. */
    method Perform(t: Tid, a: Action, ghost steps: seq<Action>, ghost n: nat, ghost start: State,
                   ghost run: seq<Action>)
      returns (done: bool, ghost run': seq<Action>)
      requires Inv(Now()) && Led(start, run, Now()) && t in threads && Actor(a) == Some(t) && !a.Spawn?
      requires Did(run, t, steps, n) && n < |steps| && steps[n] == a
      modifies this
      ensures Inv(Now()) && Led(start, run', Now()) && t in threads
      ensures Did(run', t, steps, if done then n + 1 else n)
      ensures threads[t] == if done then Moved(old(threads[t]), a) else old(threads[t])
      ensures !done ==> !Enabled(Now(), a)
      ensures done && a.Rethrow? ==> crashed
    {
      run' := Others(t, start, run);
      done := Enabled(Now(), a);
      if done {
        run' := Act(t, a, steps, n, start, run');
      }
    }

    method Act(t: Tid, a: Action, ghost steps: seq<Action>, ghost n: nat, ghost start: State, ghost run: seq<Action>)
      returns (ghost run': seq<Action>)
      requires Inv(Now()) && Led(start, run, Now()) && t in threads && Actor(a) == Some(t) && Enabled(Now(), a)
      requires Did(run, t, steps, n) && n < |steps| && steps[n] == a
      modifies this
      ensures Inv(Now()) && Led(start, run', Now()) && Did(run', t, steps, n + 1) && Now() == Apply(old(Now()), a)
    {
      LedOn(start, run, Now(), a);
      OwnSnoc(run, a, t);
      assert steps[..n] + [a] == steps[..n + 1];
      Fire(a);
      run' := run + [a];
    }

    // The operations of the source, one by one: what each does to the goroutine, and why it may not come
    // to its end.

    method Call(t: Tid, call: Action, ghost steps: seq<Action>) returns (done: bool, ghost run: seq<Action>)
      requires Inv(Now()) && Enabled(Now(), call) && (call == CallGo(t) || call == CallClose(t)) && |steps| > 0 &&
        steps[0] == call
      modifies this
      ensures Inv(Now()) && Led(old(Now()), run, Now()) && t in threads && Did(run, t, steps, if done then 1 else 0)
      ensures if done then threads[t].call == (if call.CallGo? then GoWaits else CloseWaits) else crashed
    {
      done, run := Perform(t, call, steps, 0, Now(), []);
    }

    method Lock(t: Tid, ghost steps: seq<Action>, ghost start: State, ghost run: seq<Action>)
      returns (done: bool, ghost run': seq<Action>)
      requires Inv(Now()) && Led(start, run, Now()) && t in threads &&
        (threads[t].call.GoWaits? || threads[t].call.CloseWaits?)
      requires Did(run, t, steps, 1) && |steps| > 1 && steps[1] == Acquire(t)
      modifies this
      ensures Inv(Now()) && Led(start, run', Now()) && t in threads && Did(run', t, steps, if done then 2 else 1)
      ensures done ==> threads[t].call == if old(threads[t]).call.GoWaits? then GoLocked else CloseLocked
      ensures !done ==> threads[t] == old(threads[t]) && (crashed || lock.Some?)
    {
      done, run' := Perform(t, Acquire(t), steps, 1, start, run);
    }

    method WaitGroupAdd(t: Tid, ghost start: State, ghost run: seq<Action>)
      returns (done: bool, ghost run': seq<Action>)
      requires Inv(Now()) && Led(start, run, Now()) && CallIs(Now(), t, GoLocked) && Did(run, t, GoSteps(t, 0), 2)
      modifies this
      ensures Inv(Now()) && Led(start, run', Now()) && t in threads &&
        Did(run', t, GoSteps(t, 0), if done then 3 else 2)
      ensures if done then threads[t].call.GoAdded? else crashed
    {
      done, run' := Perform(t, Add(t), GoSteps(t, 0), 2, start, run);
    }

    /** Starts a goroutine under an unused id. */
    method Start(t: Tid, ghost start: State, ghost run: seq<Action>)
      returns (done: bool, child: Tid, ghost run': seq<Action>)
      requires Inv(Now()) && Led(start, run, Now()) && CallIs(Now(), t, GoAdded) && Did(run, t, GoSteps(t, 0), 3)
      modifies this
      ensures Inv(Now()) && Led(start, run', Now()) && t in threads &&
        Did(run', t, GoSteps(t, child), if done then 4 else 3)
      ensures if done then threads[t].call.GoSpawned? else crashed
    {
      run' := Others(t, start, run);
      ghost var bound := Unused(threads.Keys);
      assert bound !in threads;
      child :| child !in threads;
      assert GoSteps(t, child)[..3] == GoSteps(t, 0)[..3];
      done := Enabled(Now(), Spawn(t, child));
      if done {
        run' := Act(t, Spawn(t, child), GoSteps(t, child), 3, start, run');
      }
    }

    method CancelContext(t: Tid, ghost start: State, ghost run: seq<Action>)
      returns (done: bool, ghost run': seq<Action>)
      requires Inv(Now()) && Led(start, run, Now()) && CallIs(Now(), t, CloseLocked) && Did(run, t, CloseSteps(t), 2)
      modifies this
      ensures Inv(Now()) && Led(start, run', Now()) && t in threads &&
        Did(run', t, CloseSteps(t), if done then 3 else 2)
      ensures if done then threads[t].call.CloseCancelled? else crashed
    {
      done, run' := Perform(t, Cancel(t), CloseSteps(t), 2, start, run);
    }

    method Wait(t: Tid, ghost start: State, ghost run: seq<Action>) returns (done: bool, ghost run': seq<Action>)
      requires Inv(Now()) && Led(start, run, Now()) && CallIs(Now(), t, CloseCancelled) && Did(run, t, CloseSteps(t), 3)
      modifies this
      ensures Inv(Now()) && Led(start, run', Now()) && t in threads &&
        Did(run', t, CloseSteps(t), if done then 4 else 3)
      ensures if done then threads[t].call.ClosePassed?
        else (threads[t].call.CloseCancelled? && (crashed || counter != 0))
    {
      done, run' := Perform(t, PassWait(t), CloseSteps(t), 3, start, run);
    }

    method Release(t: Tid, ghost steps: seq<Action>, ghost start: State, ghost run: seq<Action>)
      returns (done: bool, ghost run': seq<Action>)
      requires Inv(Now()) && Led(start, run, Now()) && t in threads &&
        (threads[t].call.GoSpawned? || threads[t].call.ClosePassed?)
      requires Did(run, t, steps, 4) && |steps| > 4 && steps[4] == Unlock(t)
      modifies this
      ensures Inv(Now()) && Led(start, run', Now()) && t in threads && Did(run', t, steps, if done then 5 else 4)
      ensures if done then threads[t].call.Quiet? else crashed
    {
      done, run' := Perform(t, Unlock(t), steps, 4, start, run);
    }

    /** GoCtx: lock, register with the wait group, start the goroutine, unlock.  Its operations come in this
        order whatever the others do, and it stops short of the last one only where it waits for the lock or
        the process has ended. */
    method GoCtx(t: Tid) returns (returned: bool, child: Tid, ghost n: nat, ghost run: seq<Action>)
      requires Inv(Now()) && Enabled(Now(), CallGo(t))
      modifies this
      ensures Inv(Now()) && Led(old(Now()), run, Now()) && Did(run, t, GoSteps(t, child), n) && (returned <==> n == 5)
      ensures !returned ==> crashed || (lock.Some? && CallIs(Now(), t, GoWaits))
    {
      ghost var start := Now();
      child, n := 0, 0;
      returned, run := Call(t, CallGo(t), GoSteps(t, 0));
      if !returned { return; }
      n := 1;
      returned, run := Lock(t, GoSteps(t, 0), start, run);
      if !returned { return; }
      returned, child, n, run := GoWithLock(t, start, run);
    }

    /** The part of GoCtx under the lock. */
    method GoWithLock(t: Tid, ghost start: State, ghost run: seq<Action>)
      returns (returned: bool, child: Tid, ghost n: nat, ghost run': seq<Action>)
      requires Inv(Now()) && Led(start, run, Now()) && CallIs(Now(), t, GoLocked) && Did(run, t, GoSteps(t, 0), 2)
      modifies this
      ensures Inv(Now()) && Led(start, run', Now()) && Did(run', t, GoSteps(t, child), n) && (returned <==> n == 5)
      ensures !returned ==> crashed
    {
      child, n := 0, 2;
      returned, run' := WaitGroupAdd(t, start, run);
      if !returned { return; }
      n := 3;
      returned, child, run' := Start(t, start, run');
      if !returned { return; }
      n := 4;
      returned, run' := Release(t, GoSteps(t, child), start, run');
      if returned { n := 5; }
    }

    /** Close: lock, cancel the context, wait for the goroutines, unlock.  While it waits the others go on. */
    method Close(t: Tid) returns (returned: bool, ghost n: nat, ghost run: seq<Action>)
      requires Inv(Now()) && Enabled(Now(), CallClose(t))
      modifies this
      ensures Inv(Now()) && Led(old(Now()), run, Now()) && Did(run, t, CloseSteps(t), n) && (returned <==> n == 5)
      ensures !returned ==>
        || crashed
        || (lock.Some? && CallIs(Now(), t, CloseWaits))
        || (counter != 0 && CallIs(Now(), t, CloseCancelled))
    {
      ghost var start := Now();
      n := 0;
      returned, run := Call(t, CallClose(t), CloseSteps(t));
      if !returned { return; }
      n := 1;
      returned, run := Lock(t, CloseSteps(t), start, run);
      if !returned { return; }
      returned, n, run := CloseWithLock(t, start, run);
    }

    /** The part of Close under the lock. */
    method CloseWithLock(t: Tid, ghost start: State, ghost run: seq<Action>)
      returns (returned: bool, ghost n: nat, ghost run': seq<Action>)
      requires Inv(Now()) && Led(start, run, Now()) && CallIs(Now(), t, CloseLocked) && Did(run, t, CloseSteps(t), 2)
      modifies this
      ensures Inv(Now()) && Led(start, run', Now()) && Did(run', t, CloseSteps(t), n) && (returned <==> n == 5)
      ensures !returned ==> crashed || (counter != 0 && CallIs(Now(), t, CloseCancelled))
    {
      n := 2;
      returned, run' := CancelContext(t, start, run);
      if !returned { return; }
      n := 3;
      returned, run' := Wait(t, start, run');
      if !returned { return; }
      n := 4;
      returned, run' := Release(t, CloseSteps(t), start, run');
      if returned { n := 5; }
    }

    /** The function of a goroutine, up to its return or panic. */
    method RunFunction(t: Tid, panics: bool, ghost start: State, ghost run: seq<Action>)
      returns (done: bool, ghost run': seq<Action>)
      requires Inv(Now()) && Led(start, run, Now()) && t in threads && threads[t] == Thread(Active, Quiet)
      requires Did(run, t, TaskLife(t, panics), 1)
      modifies this
      ensures Inv(Now()) && Led(start, run', Now()) && t in threads &&
        Did(run', t, TaskLife(t, panics), if done then 2 else 1)
      ensures if done then threads[t].body == Ending(panics) else crashed
    {
      done, run' := Perform(t, if panics then Panic(t) else Return(t), TaskLife(t, panics), 1, start, run);
    }

    method WaitGroupDone(t: Tid, panics: bool, ghost start: State, ghost run: seq<Action>)
      returns (done: bool, ghost run': seq<Action>)
      requires Inv(Now()) && Led(start, run, Now()) && t in threads && threads[t].body == Ending(panics)
      requires Did(run, t, TaskLife(t, panics), 2)
      modifies this
      ensures Inv(Now()) && Led(start, run', Now()) && t in threads &&
        Did(run', t, TaskLife(t, panics), if done then 3 else 2)
      ensures if done then threads[t].body == (if panics then Recovering else Over) else crashed
    {
      done, run' := Perform(t, SignalDone(t), TaskLife(t, panics), 2, start, run);
    }

    /** The recovery handler of a goroutine that has panicked: it logs with a panic of its own. */
    method Recover(t: Tid, ghost start: State, ghost run: seq<Action>) returns (done: bool, ghost run': seq<Action>)
      requires Inv(Now()) && Led(start, run, Now()) && t in threads && threads[t].body.Recovering?
      requires Did(run, t, TaskLife(t, true), 3)
      modifies this
      ensures Inv(Now()) && Led(start, run', Now()) && Did(run', t, TaskLife(t, true), if done then 4 else 3) && crashed
    {
      done, run' := Perform(t, Rethrow(t), TaskLife(t, true), 3, start, run);
    }

    /** The started goroutine: its function returns or panics, the deferred Done comes next either way, and
        after a panic the recovery handler ends the process. */
    method RunTask(t: Tid, panics: bool) returns (over: bool, ghost n: nat, ghost run: seq<Action>)
      requires Inv(Now()) && Enabled(Now(), Begin(t)) && CallIs(Now(), t, Quiet)
      modifies this
      ensures Inv(Now()) && Led(old(Now()), run, Now()) && Did(run, t, TaskLife(t, panics), n)
      ensures (over <==> n == |TaskLife(t, panics)|) && (!over || panics ==> crashed)
    {
      ghost var start := Now();
      n := 0;
      over, run := Perform(t, Begin(t), TaskLife(t, panics), 0, start, []);
      if !over { return; }
      n := 1;
      over, run := RunFunction(t, panics, start, run);
      if !over { return; }
      n := 2;
      over, run := WaitGroupDone(t, panics, start, run);
      if !over { return; }
      n := 3;
      if panics {
        over, run := Recover(t, start, run);
        if over { n := 4; }
      }
    }
  }

  function GoSteps(t: Tid, child: Tid): seq<Action> { [CallGo(t), Acquire(t), Add(t), Spawn(t, child), Unlock(t)] }

  function CloseSteps(t: Tid): seq<Action> { [CallClose(t), Acquire(t), Cancel(t), PassWait(t), Unlock(t)] }

  function TaskLife(t: Tid, panics: bool): seq<Action> {
    if panics then [Begin(t), Panic(t), SignalDone(t), Rethrow(t)] else [Begin(t), Return(t), SignalDone(t)]
  }

  /** What an action does to the goroutine that performs it. */
  function Moved(th: Thread, a: Action): Thread {
    match a
    case Arrive(_) => Thread(NoTask, Quiet)
    case ParentCancel => th
    case CallGo(_) => th.(call := GoWaits)
    case CallClose(_) => th.(call := CloseWaits)
    case Acquire(_) => th.(call := if th.call.GoWaits? then GoLocked else CloseLocked)
    case Add(_) => th.(call := GoAdded)
    case Spawn(_, _) => th.(call := GoSpawned)
    case Cancel(_) => th.(call := CloseCancelled)
    case PassWait(_) => th.(call := ClosePassed)
    case Unlock(_) => th.(call := Quiet)
    case Begin(_) => th.(body := Active)
    case Return(_) => th.(body := Ending(false))
    case Panic(_) => th.(body := Ending(true))
    case SignalDone(_) => th.(body := if th.body.Ending? && th.body.panicked then Recovering else Over)
    case Rethrow(_) => th.(body := Over)
  }
}
