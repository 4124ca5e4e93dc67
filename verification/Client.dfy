/** The API client the controllers hold.  Before every call the rest of the world has done whatever
    it likes to the cluster; each call also returns, as ghost, the turn it was. */
module Client {
  import opened Objects
  import opened ApiServer
  import opened ClaimLoop

  /** Pods and Services are stored under their own names. */
  predicate Keyed(c: Cluster) {
    (forall k | k in c.pods :: c.pods[k].key == k) && forall k | k in c.services :: c.services[k].key == k
  }

  lemma {:induction false} LongerThanAll(texts: set<string>) returns (n: nat)
    ensures forall x | x in texts :: |x| < n
    decreases texts
  {
    if texts == {} {
      n := 0;
    } else {
      var x :| x in texts;
      n := LongerThanAll(texts - {x});
      forall y | y in texts ensures |y| < n + |x| + 1 {
        assert y != x ==> y in texts - {x};
      }
      n := n + |x| + 1;
    }
  }

  lemma FreshText(texts: set<string>)
    ensures exists x :: x !in texts
  {
    var n := LongerThanAll(texts);
    var x := seq(n, _ => 'a');
    assert x !in texts;
  }

  class Api {
    var cluster: Cluster

    ghost predicate Valid() reads this { Keyed(cluster) }

    constructor (c: Cluster)
      requires Keyed(c)
      ensures Valid() && cluster == c
    {
      cluster := c;
    }

    /** Everybody else: any other state of the cluster may be the next one. */
    method Interfere()
      requires Valid()
      modifies this
      ensures Valid()
    {
      var c: Cluster := *;
      if Keyed(c) {
        cluster := c;
      }
    }

    method AnyFault() returns (fault: Fault)
    {
      fault := *;
    }

    method GetService(k: Key) returns (e: ApiError, s: Service, ghost turn: Turn)
      requires Valid()
      modifies this
      ensures Valid() && cluster == turn.pre == turn.post
      ensures e == if !turn.ans.fault.Served? then Unavailable else if k in turn.pre.services then NoError else NotFound
      ensures e == NoError ==> s == turn.pre.services[k] && s.key == k
    {
      Interfere();
      var fault := AnyFault();
      turn := Turn(cluster, Answer(fault, [], false, "", ""), cluster);
      s := Service(k, "", 0, "", map[], [], false, "");
      if !fault.Served? {
        e := Unavailable;
      } else if k in cluster.services {
        e, s := NoError, cluster.services[k];
      } else {
        e := NotFound;
      }
    }

    method ListPods(s: Service) returns (e: ApiError, pods: seq<Pod>, ghost turn: Turn)
      requires Valid()
      modifies this
      ensures Valid() && cluster == turn.pre == turn.post && pods == turn.ans.listing && IsListing(turn.pre, s, pods)
      ensures e == if turn.ans.fault.Served? then NoError else Unavailable
    {
      Interfere();
      var fault := AnyFault();
      pods := [];
      var todo := cluster.pods.Keys;
      while todo != {}
        invariant todo <= cluster.pods.Keys && Valid()
        invariant forall i | 0 <= i < |pods| ::
          pods[i].key in cluster.pods && cluster.pods[pods[i].key] == pods[i] && Selected(pods[i], s) &&
          pods[i].key !in todo
        invariant forall i, j | 0 <= i < j < |pods| :: pods[i].key != pods[j].key
        invariant forall k | k in cluster.pods && k !in todo && Selected(cluster.pods[k], s) :: cluster.pods[k] in pods
        decreases todo
      {
        var k :| k in todo;
        if Selected(cluster.pods[k], s) {
          pods := pods + [cluster.pods[k]];
        }
        todo := todo - {k};
      }
      turn := Turn(cluster, Answer(fault, pods, false, "", ""), cluster);
      e := if fault.Served? then NoError else Unavailable;
    }

    method UpdatePod(p: Pod) returns (e: ApiError, version: nat, ghost turn: Turn)
      requires Valid()
      modifies this
      ensures Valid()
      ensures var r := ApiServer.UpdatePod(turn.pre, p, turn.ans.fault);
        cluster == turn.post == r.cluster && e == r.error
      ensures e == NoError ==> p.key in cluster.pods && cluster.pods[p.key].version == version
    {
      Interfere();
      var fault := AnyFault();
      var r := ApiServer.UpdatePod(cluster, p, fault);
      turn := Turn(cluster, Answer(fault, [], false, "", ""), r.cluster);
      cluster, e := r.cluster, r.error;
      version := if p.key in cluster.pods then cluster.pods[p.key].version else 0;
    }

    method DeletePod(k: Key) returns (e: ApiError, ghost turn: Turn)
      requires Valid()
      modifies this
      ensures Valid()
      ensures var r := ApiServer.DeletePod(turn.pre, k, turn.ans.fault, turn.ans.gone);
        cluster == turn.post == r.cluster && e == r.error
    {
      Interfere();
      var fault := AnyFault();
      var gone := *;
      var r := ApiServer.DeletePod(cluster, k, fault, gone);
      turn := Turn(cluster, Answer(fault, [], gone, "", ""), r.cluster);
      cluster, e := r.cluster, r.error;
    }

    method UpdateService(s: Service) returns (e: ApiError, ghost turn: Turn)
      requires Valid()
      modifies this
      ensures Valid()
      ensures var r := ApiServer.UpdateService(turn.pre, s, turn.ans.fault);
        cluster == turn.post == r.cluster && e == r.error
    {
      Interfere();
      var fault := AnyFault();
      var r := ApiServer.UpdateService(cluster, s, fault);
      turn := Turn(cluster, Answer(fault, [], false, "", ""), r.cluster);
      cluster, e := r.cluster, r.error;
    }

    method CreatePod(p: Pod, suffix: string) returns (e: ApiError, ghost turn: Turn)
      requires Valid()
      modifies this
      ensures Valid() && turn.ans.suffix == suffix && turn.ans.uid !in turn.pre.podUids
      ensures var r := ApiServer.CreatePod(turn.pre, p, turn.ans.uid, turn.ans.fault);
        cluster == turn.post == r.cluster && e == r.error
    {
      Interfere();
      var fault := AnyFault();
      FreshText(cluster.podUids);
      var uid :| uid !in cluster.podUids;
      var r := ApiServer.CreatePod(cluster, p, uid, fault);
      turn := Turn(cluster, Answer(fault, [], false, suffix, uid), r.cluster);
      cluster, e := r.cluster, r.error;
    }
  }
}
