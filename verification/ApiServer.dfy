/** The API server as the controllers see it: optimistic concurrency on writes, deletion
    in two phases, and calls that may be refused or whose reply may be lost. */
module ApiServer {
  import opened Objects

  /** `revision` is the last resourceVersion handed out.  `serviceUids` remembers every uid
      ever given to a Service and where, `podUids` every uid ever given to a pod. */
  datatype Cluster = Cluster(services: map<Key, Service>, pods: map<Key, Pod>, revision: nat,
                             serviceUids: map<Uid, Key>, podUids: set<Uid>)

  datatype ApiError = NoError | NotFound | Conflict | AlreadyExists | Unavailable

  /** `Refused`: the call fails and has no effect.  `ReplyLost`: the server does its work,
      the caller is told of a failure. */
  datatype Fault = Served | Refused | ReplyLost

  datatype Reply = Reply(cluster: Cluster, error: ApiError)

  /** Everything about one call that the caller does not decide: the fault, the order of a
      listing, whether a deleted pod goes at once, and the random name and uid of a new pod. */
  datatype Answer = Answer(fault: Fault, listing: seq<Pod>, gone: bool, suffix: string, uid: Uid)

  function Reported(fault: Fault, e: ApiError): ApiError {
    if fault.Served? then e else Unavailable
  }

  function StorePod(c: Cluster, p: Pod): Cluster {
    c.(pods := c.pods[p.key := p.(version := c.revision + 1)], revision := c.revision + 1)
  }

  function StoreService(c: Cluster, s: Service): Cluster {
    if s.deleting && s.finalizers == []
    then c.(services := c.services - {s.key}, revision := c.revision + 1)
    else c.(services := c.services[s.key := s.(version := c.revision + 1)], revision := c.revision + 1)
  }

  function UpdateService(c: Cluster, s: Service, fault: Fault): Reply {
    if fault.Refused? then Reply(c, Unavailable)
    else if s.key !in c.services then Reply(c, Reported(fault, NotFound))
    else if c.services[s.key].version != s.version then Reply(c, Reported(fault, Conflict))
    else if c.services[s.key] == s then Reply(c, Reported(fault, NoError))
    else Reply(StoreService(c, s), Reported(fault, NoError))
  }

  function UpdatePod(c: Cluster, p: Pod, fault: Fault): Reply {
    if fault.Refused? then Reply(c, Unavailable)
    else if p.key !in c.pods then Reply(c, Reported(fault, NotFound))
    else if c.pods[p.key].version != p.version then Reply(c, Reported(fault, Conflict))
    else if c.pods[p.key] == p then Reply(c, Reported(fault, NoError))
    else Reply(StorePod(c, p), Reported(fault, NoError))
  }

  function RemovePod(c: Cluster, k: Key): Cluster {
    c.(pods := c.pods - {k}, revision := c.revision + 1)
  }

  /** What a pod deletion does to the store: nothing to a pod that is already terminating. */
  function MarkPod(c: Cluster, k: Key, gone: bool): Cluster
    requires k in c.pods
  {
    if c.pods[k].deleting then c
    else if gone && c.pods[k].finalizers == [] then RemovePod(c, k)
    else StorePod(c, c.pods[k].(key := k, deleting := true))
  }

  /** Deletion goes by namespace and name; no uid or version is sent. */
  function DeletePod(c: Cluster, k: Key, fault: Fault, gone: bool): Reply {
    if fault.Refused? then Reply(c, Unavailable)
    else if k !in c.pods then Reply(c, Reported(fault, NotFound))
    else Reply(MarkPod(c, k, gone), Reported(fault, NoError))
  }

  /** The server assigns identity and clears phase and deletion mark. */
  function CreatePod(c: Cluster, p: Pod, uid: Uid, fault: Fault): Reply {
    if fault.Refused? then Reply(c, Unavailable)
    else if p.key in c.pods then Reply(c, Reported(fault, AlreadyExists))
    else
      var stored := p.(uid := uid, deleting := false, phase := Pending);
      Reply(StorePod(c, stored).(podUids := c.podUids + {uid}), Reported(fault, NoError))
  }

  function DeleteService(c: Cluster, k: Key): Cluster
    requires k in c.services
  {
    if c.services[k].deleting then c
    else StoreService(c, c.services[k].(key := k, deleting := true))
  }

  // ----- listing -----

  predicate Selected(p: Pod, s: Service) {
    p.key.namespace == s.key.namespace && Labelled(p, s.key.name, s.uid)
  }

  /** A listing returns every selected pod exactly once, in some order. */
  ghost predicate IsListing(c: Cluster, s: Service, pods: seq<Pod>) {
    && (forall i | 0 <= i < |pods| :: pods[i].key in c.pods && c.pods[pods[i].key] == pods[i] && Selected(pods[i], s))
    && (forall i, j | 0 <= i < j < |pods| :: pods[i].key != pods[j].key)
    && (forall k | k in c.pods && Selected(c.pods[k], s) :: exists i :: 0 <= i < |pods| && pods[i] == c.pods[k])
  }

  // ----- what every stored state satisfies -----

  ghost predicate WellFormed(c: Cluster) {
    && (forall k | k in c.services ::
          var s := c.services[k];
          s.key == k && s.version <= c.revision && s.uid in c.serviceUids && c.serviceUids[s.uid] == k
          && (s.deleting ==> s.finalizers != []))
    && (forall k | k in c.pods ::
          var p := c.pods[k];
          p.key == k && p.version <= c.revision && p.uid in c.podUids)
    && (forall k, l | k in c.pods && l in c.pods && c.pods[k].uid == c.pods[l].uid :: k == l)
  }

  lemma StorePodWellFormed(c: Cluster, q: Pod)
    requires WellFormed(c) && q.key in c.pods && q.uid == c.pods[q.key].uid
    ensures WellFormed(StorePod(c, q))
  {
  }

  lemma DeletePodWellFormed(c: Cluster, k: Key, fault: Fault, gone: bool)
    requires WellFormed(c)
    ensures WellFormed(DeletePod(c, k, fault, gone).cluster)
  {
    if k in c.pods {
      StorePodWellFormed(c, c.pods[k].(key := k, deleting := true));
    }
  }

  lemma UpdateServiceWellFormed(c: Cluster, s: Service, fault: Fault)
    requires WellFormed(c)
    requires s.key in c.services && c.services[s.key].version == s.version ==> s.uid == c.services[s.key].uid
    ensures WellFormed(UpdateService(c, s, fault).cluster)
  {
  }

  lemma CreateWellFormed(c: Cluster, p: Pod, uid: Uid, fault: Fault)
    requires WellFormed(c) && uid !in c.podUids
    ensures WellFormed(CreatePod(c, p, uid, fault).cluster)
  {
  }

  /** An earlier read of the pod: if its version is still the stored one, so is its content. */
  ghost predicate Genuine(c: Cluster, p: Pod) {
    p.version <= c.revision && (p.key in c.pods && c.pods[p.key].version == p.version ==> c.pods[p.key] == p)
  }

  ghost predicate GenuineService(c: Cluster, s: Service) {
    s.version <= c.revision &&
    (s.key in c.services && c.services[s.key].version == s.version ==> c.services[s.key] == s)
  }

  /** Time only moves forward: an entry is as it was, or carries a version that is new. */
  ghost predicate Later(c: Cluster, d: Cluster) {
    && c.revision <= d.revision
    && (forall k | k in d.pods :: (k in c.pods && d.pods[k] == c.pods[k]) || d.pods[k].version > c.revision)
    && (forall k | k in d.services ::
          (k in c.services && d.services[k] == c.services[k]) || d.services[k].version > c.revision)
  }

  /** The same of the whole store: no Service uid is forgotten. */
  ghost predicate Onwards(c: Cluster, d: Cluster) {
    Later(c, d) && forall u | u in c.serviceUids :: u in d.serviceUids && d.serviceUids[u] == c.serviceUids[u]
  }

  lemma GenuineLater(c: Cluster, d: Cluster, p: Pod)
    requires Genuine(c, p) && Later(c, d)
    ensures Genuine(d, p)
  {
  }

  lemma GenuineServiceLater(c: Cluster, d: Cluster, s: Service)
    requires GenuineService(c, s) && Later(c, d)
    ensures GenuineService(d, s)
  {
  }

  /** A write from a genuine snapshot either leaves the store alone or replaces exactly the
      value that was read: nothing written in between is ever overwritten. */
  lemma NoLostUpdate(c: Cluster, read: Pod, written: Pod, fault: Fault)
    requires Genuine(c, read)
    requires written.key == read.key && written.version == read.version
    ensures UpdatePod(c, written, fault).cluster == c ||
      (read.key in c.pods && c.pods[read.key] == read && UpdatePod(c, written, fault).cluster == StorePod(c, written))
    ensures UpdatePod(c, written, fault).error == NoError ==>
      read.key in c.pods && c.pods[read.key] == read && !fault.Refused?
  {
  }
}
