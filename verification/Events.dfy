/** What happens on the way in a Reconcile that nobody disturbs, and how it is a run of the system. */
module Events {
  import opened Objects
  import opened ApiServer
  import opened Reconcile
  import opened Reads
  import opened Safety
  import opened Outcome
  import opened Convergence

  datatype Event =
    | CreateCarriedOut         // a pod is made
    | DropCarriedOut           // the update that takes the finalizer off is not refused
    | DeleteRefused(key: Key)  // the cleanup Delete under this name is refused

  ghost predicate Occurs(e: Event, t: Template, c: Cluster, pc: PC, ans: Answer) {
    match e
    case CreateCarriedOut => pc.AtCreate? && CreateLands(t, c, pc.inst, ans)
    case DropCarriedOut => pc.AtDropFinalizer? && !ans.fault.Refused?
    case DeleteRefused(k) =>
      pc.AtDeleteClaimed? && pc.next < |pc.claimed| && pc.claimed[pc.next].key == k && ans.fault.Refused?
  }

  ghost predicate Happens(t: Template, c: Cluster, pc: PC, answers: seq<Answer>, e: Event)
    requires Solo(t, c, pc, answers)
    decreases |answers|
  {
    answers != [] &&
    (Occurs(e, t, c, pc, answers[0]) || var r := Step(t, c, pc, answers[0]); Happens(t, r.0, r.1, answers[1..], e))
  }

  /** The system in which this worker is alone. */
  function Alone(t: Template, c: Cluster, key: Key, pc: PC): Sys { Sys(t, c, map[key := pc]) }

  lemma AloneStep(t: Template, c: Cluster, key: Key, pc: PC, ans: Answer)
    requires InFlight(pc) && Admissible(c, pc, ans)
    ensures Enabled(Alone(t, c, key, pc), Work(key, ans))
    ensures var r := Step(t, c, pc, ans); Apply(Alone(t, c, key, pc), Work(key, ans)) == Alone(t, r.0, key, r.1)
  {
    var r := Step(t, c, pc, ans);
    assert map[key := pc][key := r.1] == map[key := r.1];
  }

  lemma AloneSound(t: Template, c: Cluster, key: Key, pc: PC)
    requires WellFormed(c) && Disciplined(c) && ReadInv(c, key, pc)
    ensures SysSound(Alone(t, c, key, pc))
  {
  }

  function Works(key: Key, answers: seq<Answer>): seq<Action> {
    if answers == [] then [] else [Work(key, answers[0])] + Works(key, answers[1..])
  }

  /** An undisturbed execution of one worker is a run of the system. */
  lemma {:induction false} SoloRuns(s: Sys, key: Key, answers: seq<Answer>)
    requires key in s.workers && Solo(s.template, s.cluster, s.workers[key], answers)
    ensures Runs(s, Works(key, answers))
    ensures After(s, Works(key, answers)).cluster == SoloEnd(s.template, s.cluster, s.workers[key], answers).0
    ensures Obeys(s, Works(key, answers), {FinalizerIsOurs})
    ensures AllLucky(s.template, s.cluster, s.workers[key], answers) ==>
      Obeys(s, Works(key, answers), {FinalizerIsOurs, CleanupDeletesLand})
    decreases |answers|
  {
    if answers != [] {
      var a := Work(key, answers[0]);
      assert Works(key, answers)[1..] == Works(key, answers[1..]);
      SoloRuns(Apply(s, a), key, answers[1..]);
    }
  }
}
