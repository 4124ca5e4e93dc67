/** The Kubernetes objects the controllers handle, and the library functions on
    owner references and finalizers whose contracts the controllers rely on. */
module Objects {

  datatype Option<+T> = None | Some(value: T)

  type Uid = string

  datatype Key = Key(namespace: string, name: string)

  const FINALIZER_NAME := "finalizer.gofrp.io/tracking"
  const LABEL_SERVICE_NAME := "gofrp.io/service-name"
  const LABEL_CONTROLLER_UID := "gofrp.io/controller-uid"
  const ANNOTATION_FRP_SERVER := "service.beta.kubernetes.io/frp-server-name"
  const TYPE_LOAD_BALANCER := "LoadBalancer"
  const DEFAULT_BASE_NAME := "frp-client"
  const MAX_GENERATED_BASE := 58

  /** `kind` stands for the API group and the kind together. */
  datatype OwnerRef = OwnerRef(kind: string, name: string, uid: Uid, controller: bool)

  datatype Phase = Pending | Running | Succeeded | Failed | PhaseUnknown

  /** `version` is the resourceVersion; `deleting` says that a deletion timestamp is set;
      `content` is everything the controllers do not look at. */
  datatype Pod = Pod(key: Key, uid: Uid, version: nat, labels: map<string, string>,
                     ownerRefs: seq<OwnerRef>, finalizers: seq<string>,
                     deleting: bool, phase: Phase, content: string)

  datatype Service = Service(key: Key, uid: Uid, version: nat, serviceType: string,
                             annotations: map<string, string>, finalizers: seq<string>,
                             deleting: bool, content: string)

  /** The part of an owning object that the reference manager reads. */
  datatype Owner = Owner(key: Key, kind: string, uid: Uid, deleting: bool)

  function OwnerOf(s: Service): Owner {
    Owner(s.key, "Service", s.uid, s.deleting)
  }

  predicate IsTerminal(phase: Phase) {
    phase.Succeeded? || phase.Failed?
  }

  predicate IsPodActive(p: Pod) {
    p.phase != Succeeded && p.phase != Failed && !p.deleting
  }

  /** A Go map lookup: the zero value when the key is missing. */
  function Lookup(m: map<string, string>, k: string): string {
    if k in m then m[k] else ""
  }

  /** The Service asks for a tunnel: the negation of the cleanup branch's guard. */
  predicate WantsPod(s: Service) {
    s.serviceType == TYPE_LOAD_BALANCER && |s.annotations| != 0 &&
    Lookup(s.annotations, ANNOTATION_FRP_SERVER) != "" && !s.deleting
  }

  // ----- selectors -----

  predicate Matches(selector: map<string, string>, labels: map<string, string>) {
    forall k | k in selector :: k in labels && labels[k] == selector[k]
  }

  function SelectorFor(name: string, uid: Uid): map<string, string> {
    map[LABEL_SERVICE_NAME := name, LABEL_CONTROLLER_UID := uid]
  }

  /** The pod carries both labels of the Service (name, uid). */
  predicate Labelled(p: Pod, name: string, uid: Uid) {
    Matches(SelectorFor(name, uid), p.labels)
  }

  lemma LabelledMeans(p: Pod, name: string, uid: Uid)
    ensures Labelled(p, name, uid) <==>
      && LABEL_SERVICE_NAME in p.labels && p.labels[LABEL_SERVICE_NAME] == name
      && LABEL_CONTROLLER_UID in p.labels && p.labels[LABEL_CONTROLLER_UID] == uid
  {
    var sel := SelectorFor(name, uid);
    assert LABEL_SERVICE_NAME != LABEL_CONTROLLER_UID by {
      assert |LABEL_SERVICE_NAME| == 21 && |LABEL_CONTROLLER_UID| == 23;
    }
    assert LABEL_SERVICE_NAME in sel && LABEL_CONTROLLER_UID in sel;
    assert sel[LABEL_SERVICE_NAME] == name && sel[LABEL_CONTROLLER_UID] == uid;
  }

  // ----- owner references -----

  function ControllerOf(refs: seq<OwnerRef>): Option<OwnerRef> {
    if refs == [] then None
    else if refs[0].controller then Some(refs[0])
    else ControllerOf(refs[1..])
  }

  function ControllerUid(p: Pod): Option<Uid> {
    match ControllerOf(p.ownerRefs)
    case None => None
    case Some(ref) => Some(ref.uid)
  }

  /** The managing controller is the first reference that says so. */
  ghost predicate ControlledBy(refs: seq<OwnerRef>, uid: Uid) {
    exists i :: FirstController(refs, i) && refs[i].uid == uid
  }

  predicate FirstController(refs: seq<OwnerRef>, i: int) {
    0 <= i < |refs| && refs[i].controller && forall j | 0 <= j < i :: !refs[j].controller
  }

  /** There is one exactly when ControllerOf finds it. */
  lemma {:induction false} FirstIsController(refs: seq<OwnerRef>, i: int)
    ensures FirstController(refs, i) ==> ControllerOf(refs) == Some(refs[i])
    decreases |refs|
  {
    if FirstController(refs, i) && i > 0 {
      assert !refs[0].controller;
      assert forall j | 0 <= j < i - 1 :: refs[1..][j] == refs[j + 1];
      FirstIsController(refs[1..], i - 1);
    }
  }

  lemma {:induction false} ControllerIsFirst(refs: seq<OwnerRef>) returns (i: nat)
    requires ControllerOf(refs).Some?
    ensures FirstController(refs, i)
  {
    if refs[0].controller {
      i := 0;
    } else {
      var n := ControllerIsFirst(refs[1..]);
      i := n + 1;
      forall j | 0 <= j < i ensures !refs[j].controller {
        assert j > 0 ==> refs[j] == refs[1..][j - 1];
      }
    }
  }

  lemma ControlledMeans(refs: seq<OwnerRef>, uid: Uid)
    ensures ControlledBy(refs, uid) <==> ControllerOf(refs).Some? && ControllerOf(refs).value.uid == uid
  {
    if i :| FirstController(refs, i) && refs[i].uid == uid {
      FirstIsController(refs, i);
    }
    if ControllerOf(refs).Some? {
      var i := ControllerIsFirst(refs);
      FirstIsController(refs, i);
    }
  }

  /** How many references claim to be the managing controller. */
  function ControllerCount(refs: seq<OwnerRef>): nat {
    if refs == [] then 0
    else (if refs[0].controller then 1 else 0) + ControllerCount(refs[1..])
  }

  /** References are compared by kind and name; the uid does not take part. */
  predicate SameReferent(a: OwnerRef, b: OwnerRef) {
    a.kind == b.kind && a.name == b.name
  }

  function UpsertOwnerRef(refs: seq<OwnerRef>, ref: OwnerRef): seq<OwnerRef> {
    if refs == [] then [ref]
    else if SameReferent(refs[0], ref) then [ref] + refs[1..]
    else [refs[0]] + UpsertOwnerRef(refs[1..], ref)
  }

  function ControllerRef(o: Owner): OwnerRef {
    OwnerRef(o.kind, o.key.name, o.uid, true)
  }

  /** A namespaced owner can only own objects of its own namespace. */
  predicate MayOwn(ownerNamespace: string, objectNamespace: string) {
    ownerNamespace != "" ==> objectNamespace == ownerNamespace
  }

  /** Some other object already controls one with these references. */
  predicate HasForeignController(o: Owner, refs: seq<OwnerRef>) {
    ControllerOf(refs).Some? && !SameReferent(ControllerOf(refs).value, ControllerRef(o))
  }

  function SetControllerReference(o: Owner, p: Pod): Option<Pod> {
    if !MayOwn(o.key.namespace, p.key.namespace) then None
    else if HasForeignController(o, p.ownerRefs) then None
    else Some(p.(ownerRefs := UpsertOwnerRef(p.ownerRefs, ControllerRef(o))))
  }

  /** The first reference that carries `uid`, or the length when there is none. */
  function FirstWithUid(refs: seq<OwnerRef>, uid: Uid): (i: nat)
    ensures i <= |refs|
    ensures i < |refs| ==> refs[i].uid == uid
    ensures forall j :: 0 <= j < i ==> refs[j].uid != uid
  {
    if refs == [] || refs[0].uid == uid then 0 else 1 + FirstWithUid(refs[1..], uid)
  }

  function RemoveAt<T>(s: seq<T>, i: nat): seq<T>
    requires i < |s|
  {
    s[..i] + s[i + 1..]
  }

  lemma {:induction false} UncontrolledMeans(refs: seq<OwnerRef>)
    ensures ControllerOf(refs) == None <==> forall i | 0 <= i < |refs| :: !refs[i].controller
  {
    if refs != [] {
      UncontrolledMeans(refs[1..]);
      assert forall i | 0 < i < |refs| :: refs[i] == refs[1..][i - 1];
      assert forall i | 0 <= i < |refs| - 1 :: refs[1..][i] == refs[i + 1];
    }
  }

  lemma {:induction false} NoControllers(refs: seq<OwnerRef>)
    ensures ControllerOf(refs) == None <==> ControllerCount(refs) == 0
  {
    if refs != [] {
      NoControllers(refs[1..]);
    }
  }

  /** After a successful SetControllerReference the owner is the managing controller. */
  lemma {:induction false} UpsertControls(refs: seq<OwnerRef>, ref: OwnerRef)
    requires ref.controller
    requires ControllerOf(refs).Some? ==> SameReferent(ControllerOf(refs).value, ref)
    ensures ControllerOf(UpsertOwnerRef(refs, ref)) == Some(ref)
  {
    if refs != [] && !SameReferent(refs[0], ref) {
      UpsertControls(refs[1..], ref);
      var rest := UpsertOwnerRef(refs[1..], ref);
      assert ([refs[0]] + rest)[1..] == rest;
    }
  }

  /** Adopting an orphan gives it exactly one controller reference. */
  lemma {:induction false} UpsertCountsOne(refs: seq<OwnerRef>, ref: OwnerRef)
    requires ref.controller && ControllerCount(refs) == 0
    ensures ControllerCount(UpsertOwnerRef(refs, ref)) == 1
  {
    if refs == [] {
    } else if SameReferent(refs[0], ref) {
      assert ([ref] + refs[1..])[1..] == refs[1..];
    } else {
      UpsertCountsOne(refs[1..], ref);
      var rest := UpsertOwnerRef(refs[1..], ref);
      assert ([refs[0]] + rest)[1..] == rest;
    }
  }

  predicate RefersTo(ref: OwnerRef, kind: string, name: string) {
    ref.kind == kind && ref.name == name
  }

  /** The first reference to the same object stands at `i`, or there is none and `i` is the end. */
  predicate PlaceOf(refs: seq<OwnerRef>, ref: OwnerRef, i: int) {
    && 0 <= i <= |refs| && (i < |refs| ==> RefersTo(refs[i], ref.kind, ref.name))
    && forall j | 0 <= j < i :: !RefersTo(refs[j], ref.kind, ref.name)
  }

  function PutAt(refs: seq<OwnerRef>, i: nat, ref: OwnerRef): seq<OwnerRef>
    requires i <= |refs|
  {
    if i < |refs| then refs[i := ref] else refs + [ref]
  }

  /** `after` is `refs` with `ref` in its place. */
  ghost predicate Placed(refs: seq<OwnerRef>, ref: OwnerRef, after: seq<OwnerRef>) {
    exists i :: PlaceOf(refs, ref, i) && after == PutAt(refs, i, ref)
  }

  lemma {:induction false} UpsertPlaces(refs: seq<OwnerRef>, ref: OwnerRef) returns (i: nat)
    ensures PlaceOf(refs, ref, i) && UpsertOwnerRef(refs, ref) == PutAt(refs, i, ref)
  {
    if refs == [] || RefersTo(refs[0], ref.kind, ref.name) {
      i := 0;
    } else {
      var n := UpsertPlaces(refs[1..], ref);
      i := n + 1;
      forall j | 0 <= j < i ensures !RefersTo(refs[j], ref.kind, ref.name) {
        assert j > 0 ==> refs[j] == refs[1..][j - 1];
      }
      PutLater(refs, n, ref);
    }
  }

  lemma PutLater(refs: seq<OwnerRef>, n: nat, ref: OwnerRef)
    requires n < |refs|
    ensures [refs[0]] + PutAt(refs[1..], n, ref) == PutAt(refs, n + 1, ref)
  {
  }

  /** References to anything else are kept, and none is added. */
  lemma PlacedKeepsOthers(refs: seq<OwnerRef>, ref: OwnerRef, after: seq<OwnerRef>, other: OwnerRef)
    requires Placed(refs, ref, after) && !RefersTo(other, ref.kind, ref.name)
    ensures other in after <==> other in refs
  {
    var i :| PlaceOf(refs, ref, i) && after == PutAt(refs, i, ref);
    if other in refs {
      var n :| 0 <= n < |refs| && refs[n] == other;
      assert after[n] == other;
    }
    if other in after {
      var n :| 0 <= n < |after| && after[n] == other;
      assert n != i;
      assert refs[n] == other;
    }
  }

  /** Dropping one reference lowers the count by its controller flag. */
  lemma {:induction false} RemoveCounts(refs: seq<OwnerRef>, i: nat)
    requires i < |refs|
    ensures ControllerCount(RemoveAt(refs, i)) == ControllerCount(refs) - (if refs[i].controller then 1 else 0)
  {
    if i == 0 {
      assert RemoveAt(refs, 0) == refs[1..];
    } else {
      RemoveCounts(refs[1..], i - 1);
      assert RemoveAt(refs, i) == [refs[0]] + RemoveAt(refs[1..], i - 1);
      assert ([refs[0]] + RemoveAt(refs[1..], i - 1))[1..] == RemoveAt(refs[1..], i - 1);
    }
  }

  lemma AdoptControls(o: Owner, p: Pod)
    requires SetControllerReference(o, p).Some?
    ensures ControllerUid(SetControllerReference(o, p).value) == Some(o.uid)
  {
    UpsertControls(p.ownerRefs, ControllerRef(o));
  }

  // ----- finalizers -----

  function Without(s: seq<string>, x: string): (r: seq<string>)
    ensures x !in r
    ensures x !in s ==> r == s
  {
    if s == [] then []
    else if s[0] == x then Without(s[1..], x)
    else [s[0]] + Without(s[1..], x)
  }

  lemma {:induction false} WithoutKeeps(s: seq<string>, x: string, y: string)
    requires y != x
    ensures y in Without(s, x) <==> y in s
  {
    if s != [] {
      WithoutKeeps(s[1..], x, y);
      assert y in s <==> y == s[0] || y in s[1..];
    }
  }

  lemma {:induction false} WithoutJoin(a: seq<string>, b: seq<string>, x: string)
    ensures Without(a + b, x) == Without(a, x) + Without(b, x)
  {
    if a == [] {
      assert a + b == b;
    } else {
      WithoutJoin(a[1..], b, x);
      WithoutJoinStep(a[0], a[1..], b, x);
      assert a == [a[0]] + a[1..];
    }
  }

  lemma WithoutJoinStep(y: string, a: seq<string>, b: seq<string>, x: string)
    requires Without(a + b, x) == Without(a, x) + Without(b, x)
    ensures Without([y] + a + b, x) == Without([y] + a, x) + Without(b, x)
  {
    WithoutHead(y, a, x);
    WithoutHead(y, a + b, x);
    Regroup([y], a, b);
    Regroup(Spared(y, x), Without(a, x), Without(b, x));
  }

  function Spared(y: string, x: string): seq<string> {
    if y == x then [] else [y]
  }

  lemma WithoutHead(y: string, s: seq<string>, x: string)
    ensures Without([y] + s, x) == Spared(y, x) + Without(s, x)
  {
    assert ([y] + s)[1..] == s;
  }

  lemma Regroup<T>(a: seq<T>, b: seq<T>, c: seq<T>)
    ensures (a + b) + c == a + (b + c)
  {
  }

  /** Piece by piece and in order, and an occurrence goes while anything else stays: this is all there is
      to it. */
  lemma WithoutPieces(a: seq<string>, b: seq<string>, x: string, y: string)
    ensures Without(a + b, x) == Without(a, x) + Without(b, x)
    ensures Without([y], x) == if y == x then [] else [y]
  {
    WithoutJoin(a, b, x);
    WithoutHead(y, [], x);
    assert [y] + [] == [y];
  }

  // ----- the pod template -----

  datatype Template =
    | Malformed
    | Template(name: string, labels: map<string, string>, ownerRefs: seq<OwnerRef>,
               finalizers: seq<string>, content: string)

  /** The name generator truncates the base and appends the random suffix. */
  function GenerateName(base: string, suffix: string): string {
    (if |base| > MAX_GENERATED_BASE then base[..MAX_GENERATED_BASE] else base) + suffix
  }

  function BaseName(t: Template, owner: Service): string
    requires t.Template?
  {
    (if t.name != "" then t.name else DEFAULT_BASE_NAME) + "-" + owner.key.name
  }

  /** The pod handed to Create, or None when the template does not parse or is controlled
      by something else.  Identity, version, phase and deletion mark are the server's to set. */
  function GeneratePod(t: Template, owner: Service, suffix: string): Option<Pod> {
    if t.Malformed? then None
    else
      var bare := Pod(Key(owner.key.namespace, GenerateName(BaseName(t, owner), suffix)), "", 0,
                      t.labels, t.ownerRefs, t.finalizers, false, Pending, t.content);
      match SetControllerReference(OwnerOf(owner), bare)
      case None => None
      case Some(p) =>
        Some(p.(labels := p.labels[LABEL_SERVICE_NAME := owner.key.name]
                                  [LABEL_CONTROLLER_UID := owner.uid]))
  }

  /** The template yields a pod exactly when it parses and names no foreign controller. */
  predicate UsableTemplate(t: Template, owner: Service) {
    t.Template? && !HasForeignController(OwnerOf(owner), t.ownerRefs)
  }

  /** What generatePod promises: it fails only on an unusable template, and otherwise the pod
      sits in the Service's namespace, carries both labels and is controlled by the Service. */
  lemma GeneratedPod(t: Template, owner: Service, suffix: string)
    ensures GeneratePod(t, owner, suffix).Some? <==> UsableTemplate(t, owner)
    ensures UsableTemplate(t, owner) ==>
      var p := GeneratePod(t, owner, suffix).value;
      && p.key.namespace == owner.key.namespace
      && Labelled(p, owner.key.name, owner.uid)
      && ControllerUid(p) == Some(owner.uid)
      && IsPodActive(p)
  {
    if UsableTemplate(t, owner) {
      var bare := Pod(Key(owner.key.namespace, GenerateName(BaseName(t, owner), suffix)), "", 0,
                      t.labels, t.ownerRefs, t.finalizers, false, Pending, t.content);
      AdoptControls(OwnerOf(owner), bare);
      LabelledMeans(GeneratePod(t, owner, suffix).value, owner.key.name, owner.uid);
      assert |LABEL_SERVICE_NAME| == 21 && |LABEL_CONTROLLER_UID| == 23;
    }
  }
}
