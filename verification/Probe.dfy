/** The probe of a frp server: a chain of steps that may each fail, with temporary files and
    connections that are given back on every way out. */
module Probe {
  import opened Objects

  const CA_FILE := "tls.ca"
  const CERT_FILE := "tls.crt"
  const KEY_FILE := "tls.key"

  type File = nat
  type Conn = nat

  /** The file paths of the client configuration. */
  datatype TlsFiles = TlsFiles(cert: Option<File>, key: Option<File>, ca: Option<File>)

  /** What the connector finds in those files when it is opened. */
  datatype Seen = Seen(cert: Option<string>, key: Option<string>, ca: Option<string>)

  /** Something to give back later, most recent first. */
  datatype Deferred = RemoveFile(file: File) | CloseConn(conn: Conn)

  /** The steps that can fail. */
  datatype Step =
    | GetSecret | CreateTemp(name: string) | FindEntry(name: string) | WriteTemp(name: string)
    | CheckConfig | OpenConnector | Connect | Hostname | SetLogin | WriteMsg | ReadMsg | ReadReply

  datatype Tried = Tried(step: Step, good: bool)

  /** The host: temporary files with their contents, open connections, what was seen by every call of Open so
      far, and every fallible step that was tried, with its outcome. */
  class Host {
    var files: map<File, string>
    var conns: set<Conn>
    var nextId: nat
    var seen: seq<Seen>
    var log: seq<Tried>
    var released: seq<Deferred>

    ghost predicate Valid() reads this {
      (forall f | f in files :: f < nextId) && forall c | c in conns :: c < nextId
    }

    constructor ()
      ensures Valid() && files == map[] && conns == {} && seen == [] && log == [] && released == []
    {
      files, conns, nextId, seen, log, released := map[], {}, 0, [], [], [];
    }

    /** The outcome of a step is put on record. */
    method Note(step: Step, ok: bool)
      requires Valid()
      modifies this`log
      ensures Valid() && log == old(log) + [Tried(step, ok)]
    {
      log := log + [Tried(step, ok)];
    }

    /** A step of the frp client that leaves the host as it is. */
    method Try(step: Step) returns (ok: bool)
      requires Valid()
      modifies this`log
      ensures Valid() && log == old(log) + [Tried(step, ok)]
    {
      ok := *;
      Note(step, ok);
    }

    method CreateTemp(name: string) returns (ok: bool, f: File)
      requires Valid()
      modifies this
      ensures Valid() && conns == old(conns) && seen == old(seen) && nextId >= old(nextId)
      ensures log == old(log) + [Tried(Step.CreateTemp(name), ok)]
      ensures ok ==> f !in old(files) && f >= old(nextId) && files == old(files)[f := ""]
      ensures !ok ==> files == old(files)
    {
      f := nextId;
      ok := Try(Step.CreateTemp(name));
      if ok {
        files := files[f := ""];
        nextId := nextId + 1;
      }
    }

    /** A failed write may leave anything behind. */
    method Write(f: File, name: string, data: string) returns (ok: bool)
      requires Valid() && f in files
      modifies this
      ensures Valid() && conns == old(conns) && seen == old(seen) && nextId == old(nextId)
      ensures log == old(log) + [Tried(WriteTemp(name), ok)]
      ensures f in files && files == old(files)[f := files[f]] && (ok ==> files[f] == data)
    {
      ok := Try(WriteTemp(name));
      var text: string := *;
      if ok { text := data; }
      files := files[f := text];
    }

    method NewConn() returns (c: Conn)
      requires Valid()
      modifies this
      ensures Valid() && files == old(files) && seen == old(seen) && c !in old(conns) && conns == old(conns) + {c}
      ensures nextId >= old(nextId) && log == old(log)
    {
      c := nextId;
      conns := conns + {c};
      nextId := nextId + 1;
    }

    function Content(f: Option<File>): Option<string>
      reads this
    {
      if f.Some? && f.value in files then Some(files[f.value]) else None
    }

    /** Opens the connector, which reads the configured files. */
    method Open(tls: TlsFiles) returns (ok: bool)
      requires Valid()
      modifies this
      ensures Valid() && files == old(files) && conns == old(conns) && nextId == old(nextId)
      ensures seen == old(seen) + [Seen(old(Content(tls.cert)), old(Content(tls.key)), old(Content(tls.ca)))]
      ensures log == old(log) + [Tried(OpenConnector, ok)]
    {
      seen := seen + [Seen(Content(tls.cert), Content(tls.key), Content(tls.ca))];
      ok := Try(OpenConnector);
    }

    /** Runs the deferred releases, last one first.  A release may fail, which nobody is told; what it
        was to give back then stays. */
    method RunDeferred(stack: seq<Deferred>) returns (failed: set<Deferred>)
      requires Valid()
      modifies this
      ensures Valid() && seen == old(seen) && log == old(log) && nextId == old(nextId)
      ensures released == old(released) + LastFirst(stack) && forall d | d in failed :: d in stack
      ensures files == old(files) - (FilesOf(stack) - FilesIn(failed))
      ensures conns == old(conns) - (ConnsOf(stack) - ConnsIn(failed))
    {
      var i := |stack|;
      failed := {};
      assert stack[|stack|..] == [];
      while i > 0
        invariant 0 <= i <= |stack| && Valid() && seen == old(seen) && log == old(log) && nextId == old(nextId)
        invariant released == old(released) + LastFirst(stack[i..])
        invariant forall d | d in failed :: d in stack[i..]
        invariant files == old(files) - (FilesOf(stack[i..]) - FilesIn(failed))
        invariant conns == old(conns) - (ConnsOf(stack[i..]) - ConnsIn(failed))
      {
        i := i - 1;
        assert stack[i..] == [stack[i]] + stack[i + 1..];
        ghost var before, files', conns' := failed, files, conns;
        failed := Release(stack[i], failed);
        FilesReleased(old(files), stack[i + 1..], stack[i], before, failed, files', files);
        ConnsReleased(old(conns), stack[i + 1..], stack[i], before, failed, conns', conns);
      }
      assert stack[0..] == stack;
    }

    /** One release. */
    method Release(d: Deferred, failed: set<Deferred>) returns (failed': set<Deferred>)
      requires Valid()
      modifies this
      ensures Valid() && seen == old(seen) && log == old(log) && nextId == old(nextId)
      ensures released == old(released) + [d] && (failed' == failed - {d} || failed' == failed + {d})
      ensures d in failed' ==> files == old(files) && conns == old(conns)
      ensures d.RemoveFile? ==> conns == old(conns) && (d !in failed' ==> files == old(files) - {d.file})
      ensures d.CloseConn? ==> files == old(files) && (d !in failed' ==> conns == old(conns) - {d.conn})
      ensures d in failed' ==> d in failed || (d.RemoveFile? && d.file in files) || (d.CloseConn? && d.conn in conns)
    {
      var ok: bool := *;
      released := released + [d];
      match d {
        case RemoveFile(f) =>
          if ok || f !in files {
            files := files - {f};
            failed' := failed - {d};
          } else {
            failed' := failed + {d};
          }
        case CloseConn(c) =>
          if ok || c !in conns {
            conns := conns - {c};
            failed' := failed - {d};
          } else {
            failed' := failed + {d};
          }
      }
    }
  }

  /** Deferred calls run in the opposite order. */
  function LastFirst(stack: seq<Deferred>): seq<Deferred> {
    if stack == [] then [] else LastFirst(stack[1..]) + [stack[0]]
  }

  function FilesIn(ds: set<Deferred>): set<File> {
    set d | d in ds && d.RemoveFile? :: d.file
  }

  function ConnsIn(ds: set<Deferred>): set<Conn> {
    set d | d in ds && d.CloseConn? :: d.conn
  }

  /** Sets of releases grow and shrink one by one. */
  lemma InAfter(d: Deferred, failed: set<Deferred>)
    ensures FilesIn(failed + {d}) == FilesIn(failed) + (if d.RemoveFile? then {d.file} else {})
    ensures FilesIn(failed - {d}) == FilesIn(failed) - (if d.RemoveFile? then {d.file} else {})
    ensures ConnsIn(failed + {d}) == ConnsIn(failed) + (if d.CloseConn? then {d.conn} else {})
    ensures ConnsIn(failed - {d}) == ConnsIn(failed) - (if d.CloseConn? then {d.conn} else {})
  {
    forall e | e in failed && e != d ensures e in failed - {d} {}
    assert d in failed + {d};
  }

  lemma FilesReleased(start: map<File, string>, tail: seq<Deferred>, d: Deferred, failed: set<Deferred>,
                      failed': set<Deferred>,
                      files: map<File, string>, files': map<File, string>)
    requires files == start - (FilesOf(tail) - FilesIn(failed)) && (failed' == failed - {d} || failed' == failed + {d})
    requires d.CloseConn? || d in failed' ==> files' == files
    requires d.RemoveFile? && d !in failed' ==> files' == files - {d.file}
    requires d.RemoveFile? && d in failed' ==> d in failed || d.file in files
    ensures files' == start - (FilesOf([d] + tail) - FilesIn(failed'))
  {
    Longer(d, tail);
    InAfter(d, failed);
    assert d in failed ==> d.RemoveFile? ==> d.file in FilesIn(failed);
  }

  lemma ConnsReleased(start: set<Conn>, tail: seq<Deferred>, d: Deferred, failed: set<Deferred>, failed': set<Deferred>,
                      conns: set<Conn>, conns': set<Conn>)
    requires conns == start - (ConnsOf(tail) - ConnsIn(failed)) && (failed' == failed - {d} || failed' == failed + {d})
    requires d.RemoveFile? || d in failed' ==> conns' == conns
    requires d.CloseConn? && d !in failed' ==> conns' == conns - {d.conn}
    requires d.CloseConn? && d in failed' ==> d in failed || d.conn in conns
    ensures conns' == start - (ConnsOf([d] + tail) - ConnsIn(failed'))
  {
    Longer(d, tail);
    InAfter(d, failed);
    assert d in failed ==> d.CloseConn? ==> d.conn in ConnsIn(failed);
  }

  lemma Longer(d: Deferred, stack: seq<Deferred>)
    ensures FilesOf([d] + stack) == FilesOf(stack) + (if d.RemoveFile? then {d.file} else {})
    ensures ConnsOf([d] + stack) == ConnsOf(stack) + (if d.CloseConn? then {d.conn} else {})
  {
    var more := [d] + stack;
    assert more[0] == d && forall e :: e in more <==> e == d || e in stack;
    assert d in more;
  }

  function FilesOf(stack: seq<Deferred>): set<File> {
    set d | d in stack && d.RemoveFile? :: d.file
  }

  function ConnsOf(stack: seq<Deferred>): set<Conn> {
    set d | d in stack && d.CloseConn? :: d.conn
  }

  /** The secret as stored: file name to contents. */
  type Secret = map<string, string>

  /** What Open has to find for a server with the given secret reference. */
  predicate Exact(secret: Option<Secret>, s: Seen) {
    match secret
    case None => s == Seen(None, None, None)
    case Some(data) =>
      && CERT_FILE in data && s.cert == Some(data[CERT_FILE])
      && KEY_FILE in data && s.key == Some(data[KEY_FILE])
      && s.ca == (if CA_FILE in data then Some(data[CA_FILE]) else None)
  }

  /** Whatever is on the deferred stack is all that has been added to the files of the start. */
  ghost predicate Owes(start: map<File, string>, files: map<File, string>, stack: seq<Deferred>) {
    && files.Keys == start.Keys + FilesOf(stack)
    && (forall f | f in start :: f !in FilesOf(stack) && files[f] == start[f])
  }

  lemma OwesMore(start: map<File, string>, files: map<File, string>, stack: seq<Deferred>, f: File, text: string)
    requires Owes(start, files, stack) && f !in files
    ensures Owes(start, files[f := text], stack + [RemoveFile(f)])
    ensures ConnsOf(stack + [RemoveFile(f)]) == ConnsOf(stack)
  {
    var more := stack + [RemoveFile(f)];
    assert more[|stack|] == RemoveFile(f);
    assert FilesOf(more) == FilesOf(stack) + {f};
  }

  /** What is left over is exactly what could not be removed. */
  lemma OwesPaid(start: map<File, string>, files: map<File, string>, stack: seq<Deferred>, failed: set<Deferred>)
    requires Owes(start, files, stack) && forall d | d in failed :: d in stack
    ensures var end := files - (FilesOf(stack) - FilesIn(failed));
      end.Keys == start.Keys + FilesIn(failed) && end - FilesIn(failed) == start
  {
    forall f | f in FilesIn(failed) ensures f in FilesOf(stack) {
      assert RemoveFile(f) in failed;
    }
  }

  lemma ConnsPaid(start: set<Conn>, conns: set<Conn>, stack: seq<Deferred>, failed: set<Deferred>)
    requires conns == start + ConnsOf(stack) && start !! ConnsOf(stack) && forall d | d in failed :: d in stack
    ensures conns - (ConnsOf(stack) - ConnsIn(failed)) == start + ConnsIn(failed)
  {
    forall c | c in ConnsIn(failed) ensures c in ConnsOf(stack) {
      assert CloseConn(c) in failed;
    }
  }

  // ----- the steps in order -----

  /** What is to be tried for a server, with or without a secret. */
  function Plan(secretRef: bool, secret: Option<Secret>): seq<Step> {
    (if !secretRef then [] else [GetSecret] + (if secret.None? then [] else SecretSteps(secret.value))) + DIAL_STEPS
  }

  /** Certificate and key have to be there; an authority is staged only if it is. */
  function SecretSteps(data: Secret): seq<Step> {
    [CreateTemp(CERT_FILE), FindEntry(CERT_FILE), WriteTemp(CERT_FILE),
     CreateTemp(KEY_FILE), FindEntry(KEY_FILE), WriteTemp(KEY_FILE)] +
    if CA_FILE in data then [CreateTemp(CA_FILE), WriteTemp(CA_FILE)] else []
  }

  const DIAL_STEPS := [CheckConfig, OpenConnector, Connect, Hostname, SetLogin, WriteMsg, ReadMsg, ReadReply]

  /** The record went from `before` to `after` along the plan: to its end with every outcome good, or to the
      first bad outcome and no further. */
  ghost predicate Went(before: seq<Tried>, after: seq<Tried>, plan: seq<Step>, ok: bool) {
    exists n :: 0 <= n <= |plan| && (ok <==> n == |plan|) && after == before + Record(plan, n)
  }

  /** `n` good outcomes and, unless that is the end of the plan, a bad one. */
  function Record(plan: seq<Step>, n: nat): seq<Tried>
    requires n <= |plan|
  {
    seq(n, i requires 0 <= i < n => Tried(plan[i], true)) + (if n < |plan| then [Tried(plan[n], false)] else [])
  }

  /** What a record says: success is a good outcome for every step of the plan, and failure a bad last one after
      good ones only. */
  lemma RecordTells(before: seq<Tried>, after: seq<Tried>, plan: seq<Step>, ok: bool)
    requires Went(before, after, plan, ok)
    ensures |before| <= |after| <= |before| + |plan| && after[..|before|] == before
    ensures forall i | |before| <= i < |after| :: after[i].step == plan[i - |before|]
    ensures ok <==> |after| == |before| + |plan| && forall i | |before| <= i < |after| :: after[i].good
    ensures !ok ==> |after| > |before| && forall i | |before| <= i < |after| :: after[i].good <==> i < |after| - 1
  {
    var n :| 0 <= n <= |plan| && (ok <==> n == |plan|) && after == before + Record(plan, n);
    assert after[..|before|] == before;
    assert !ok ==> after[|after| - 1] == Tried(plan[n], false);
  }

  lemma WentNowhere(log: seq<Tried>, plan: seq<Step>)
    ensures Went(log, log, plan[..0], true)
  {
    assert log == log + Record(plan[..0], 0);
  }

  /** One more step of the plan. */
  lemma WentOne(before: seq<Tried>, now: seq<Tried>, plan: seq<Step>, n: nat, ok: bool)
    requires n < |plan| && Went(before, now, plan[..n], true)
    ensures ok ==> Went(before, now + [Tried(plan[n], ok)], plan[..n + 1], true)
    ensures !ok ==> Went(before, now + [Tried(plan[n], ok)], plan, false)
  {
    assert now == before + Record(plan[..n], n);
    if ok {
      assert Record(plan[..n + 1], n + 1) == Record(plan[..n], n) + [Tried(plan[n], ok)];
      assert now + [Tried(plan[n], ok)] == before + Record(plan[..n + 1], n + 1);
    } else {
      assert Record(plan, n) == Record(plan[..n], n) + [Tried(plan[n], ok)];
      assert now + [Tried(plan[n], ok)] == before + Record(plan, n);
    }
  }

  /** A plan that stopped short has stopped for whatever was to follow. */
  lemma WentShort(before: seq<Tried>, after: seq<Tried>, plan: seq<Step>, more: seq<Step>)
    requires Went(before, after, plan, false)
    ensures Went(before, after, plan + more, false)
  {
    var n :| 0 <= n < |plan| && after == before + Record(plan, n);
    assert Record(plan + more, n) == Record(plan, n);
  }

  /** A plan carried out in full is followed by the next. */
  lemma WentOn(before: seq<Tried>, mid: seq<Tried>, after: seq<Tried>, plan: seq<Step>, more: seq<Step>, ok: bool)
    requires Went(before, mid, plan, true) && Went(mid, after, more, ok)
    ensures Went(before, after, plan + more, ok)
  {
    var n :| 0 <= n <= |more| && (ok <==> n == |more|) && after == mid + Record(more, n);
    assert before + Record(plan + more, |plan| + n) == mid + Record(more, n);
  }

  /** The secret is there or not, and so are its entries: those steps fail for no other reason. */
  predicate Honest(t: Tried, secret: Option<Secret>) {
    && (t.step.GetSecret? ==> t.good == secret.Some?)
    && (t.step.FindEntry? ==> secret.Some? && t.good == (t.step.name in secret.value))
  }

  ghost predicate AllHonest(before: seq<Tried>, after: seq<Tried>, secret: Option<Secret>) {
    |before| <= |after| && forall i | |before| <= i < |after| :: Honest(after[i], secret)
  }

  // ----- staging the secret -----

  function FileSteps(name: string, required: bool): seq<Step> {
    if required then [CreateTemp(name), FindEntry(name), WriteTemp(name)] else [CreateTemp(name), WriteTemp(name)]
  }

  /** One temporary file with an entry of the secret, its removal deferred before anything is written.  Only
      an entry that has to be there is looked for. */
  method Stage(h: Host, data: Secret, name: string, required: bool, stack: seq<Deferred>,
               ghost start: map<File, string>)
    returns (ok: bool, f: File, stack': seq<Deferred>)
    requires h.Valid() && Owes(start, h.files, stack) && ConnsOf(stack) == {} && (required || name in data)
    modifies h
    ensures h.Valid() && h.conns == old(h.conns) && h.seen == old(h.seen)
    ensures Owes(start, h.files, stack') && ConnsOf(stack') == {}
    ensures forall g | g in old(h.files) :: g in h.files && h.files[g] == old(h.files)[g]
    ensures ok ==> f in h.files && f !in old(h.files) && name in data && h.files[f] == data[name]
    ensures Went(old(h.log), h.log, FileSteps(name, required), ok) && AllHonest(old(h.log), h.log, Some(data))
  {
    ghost var plan := FileSteps(name, required);
    WentNowhere(h.log, plan);
    ok, f := h.CreateTemp(name);
    WentOne(old(h.log), old(h.log), plan, 0, ok);
    if !ok {
      return false, f, stack;
    }
    OwesMore(start, old(h.files), stack, f, "");
    stack' := stack + [RemoveFile(f)];
    ok := Fill(h, data, name, required, f, old(h.log));
  }

  method Fill(h: Host, data: Secret, name: string, required: bool, f: File, ghost before: seq<Tried>)
    returns (ok: bool)
    requires h.Valid() && f in h.files && (required || name in data)
    requires Went(before, h.log, FileSteps(name, required)[..1], true) && AllHonest(before, h.log, Some(data))
    modifies h
    ensures h.Valid() && h.conns == old(h.conns) && h.seen == old(h.seen)
    ensures f in h.files && h.files == old(h.files)[f := h.files[f]]
    ensures ok ==> name in data && h.files[f] == data[name]
    ensures Went(before, h.log, FileSteps(name, required), ok) && AllHonest(before, h.log, Some(data))
  {
    ghost var plan := FileSteps(name, required);
    ghost var now := h.log;
    if required {
      ok := name in data;
      h.Note(FindEntry(name), ok);
      WentOne(before, now, plan, 1, ok);
      if !ok {
        return;
      }
    }
    now := h.log;
    ok := h.Write(f, name, data[name]);
    WentOne(before, now, plan, |plan| - 1, ok);
    assert plan[..|plan|] == plan;
  }

  /** Certificate, key and, when present, authority: stops at the first failure. */
  method StageSecret(h: Host, data: Secret) returns (ok: bool, tls: TlsFiles, stack: seq<Deferred>)
    requires h.Valid()
    modifies h
    ensures h.Valid() && h.seen == old(h.seen) && h.conns == old(h.conns)
    ensures Owes(old(h.files), h.files, stack) && ConnsOf(stack) == {}
    ensures ok ==> Exact(Some(data), Seen(h.Content(tls.cert), h.Content(tls.key), h.Content(tls.ca)))
    ensures Went(old(h.log), h.log, SecretSteps(data), ok) && AllHonest(old(h.log), h.log, Some(data))
  {
    stack, tls := [], TlsFiles(None, None, None);
    ghost var start := h.files;
    var cert, key, ca;
    StepsOfSecret(data);
    ok, cert, stack := Stage(h, data, CERT_FILE, true, stack, start);
    if !ok {
      WentShort(old(h.log), h.log, FileSteps(CERT_FILE, true), FileSteps(KEY_FILE, true) + AuthoritySteps(data));
      return;
    }
    ghost var first := h.log;
    ok, key, stack := Stage(h, data, KEY_FILE, true, stack, start);
    WentOn(old(h.log), first, h.log, FileSteps(CERT_FILE, true), FileSteps(KEY_FILE, true), ok);
    if !ok {
      WentShort(old(h.log), h.log, FileSteps(CERT_FILE, true) + FileSteps(KEY_FILE, true), AuthoritySteps(data));
      return;
    }
    tls := TlsFiles(Some(cert), Some(key), None);
    if CA_FILE in data {
      ghost var second := h.log;
      ok, ca, stack := Stage(h, data, CA_FILE, false, stack, start);
      WentOn(old(h.log), second, h.log, FileSteps(CERT_FILE, true) + FileSteps(KEY_FILE, true),
             FileSteps(CA_FILE, false), ok);
      if !ok { return; }
      tls := TlsFiles(Some(cert), Some(key), Some(ca));
    }
  }

  function AuthoritySteps(data: Secret): seq<Step> {
    if CA_FILE in data then FileSteps(CA_FILE, false) else []
  }

  lemma StepsOfSecret(data: Secret)
    ensures SecretSteps(data) == FileSteps(CERT_FILE, true) + FileSteps(KEY_FILE, true) + AuthoritySteps(data)
    ensures SecretSteps(data) == FileSteps(CERT_FILE, true) + (FileSteps(KEY_FILE, true) + AuthoritySteps(data))
    ensures CA_FILE !in data ==> SecretSteps(data) == FileSteps(CERT_FILE, true) + FileSteps(KEY_FILE, true)
  {
  }

  // ----- the probe -----

  /** Validates the configuration, opens the connector, connects and logs in. */
  method Dial(h: Host, tls: TlsFiles, stack: seq<Deferred>, secret: Option<Secret>)
    returns (ok: bool, stack': seq<Deferred>)
    requires h.Valid() && ConnsOf(stack) == {}
    requires Exact(secret, Seen(h.Content(tls.cert), h.Content(tls.key), h.Content(tls.ca)))
    modifies h
    ensures h.Valid() && h.files == old(h.files) && FilesOf(stack') == FilesOf(stack)
    ensures h.conns == old(h.conns) + ConnsOf(stack') && old(h.conns) !! ConnsOf(stack')
    ensures h.seen == old(h.seen) || exists s :: h.seen == old(h.seen) + [s] && Exact(secret, s)
    ensures ok ==> h.seen != old(h.seen)
    ensures Went(old(h.log), h.log, DIAL_STEPS, ok)
  {
    stack' := stack;
    WentNowhere(h.log, DIAL_STEPS);
    ok := h.Try(CheckConfig);
    WentOne(old(h.log), old(h.log), DIAL_STEPS, 0, ok);
    if !ok { return; }
    var connector := h.NewConn();
    stack' := stack' + [CloseConn(connector)];
    ghost var now := h.log;
    ok := h.Open(tls);
    WentOne(old(h.log), now, DIAL_STEPS, 1, ok);
    if !ok { return; }
    ghost var held := stack';
    ok, stack' := Talk(h, stack', old(h.log));
    Shut(stack, CloseConn(connector));
    if stack' != held { Shut(held, stack'[|held|]); }
  }

  lemma Shut(stack: seq<Deferred>, d: Deferred)
    requires d.CloseConn?
    ensures FilesOf(stack + [d]) == FilesOf(stack) && ConnsOf(stack + [d]) == ConnsOf(stack) + {d.conn}
  {
    assert (stack + [d])[|stack|] == d;
    assert forall e :: e in stack + [d] <==> e in stack || e == d;
  }

  /** Connects and logs in. */
  method Talk(h: Host, stack: seq<Deferred>, ghost before: seq<Tried>) returns (ok: bool, stack': seq<Deferred>)
    requires h.Valid() && Went(before, h.log, DIAL_STEPS[..2], true)
    modifies h
    ensures h.Valid() && h.files == old(h.files) && h.seen == old(h.seen)
    ensures if stack' == stack then h.conns == old(h.conns)
            else exists c :: c !in old(h.conns) && h.conns == old(h.conns) + {c} && stack' == stack + [CloseConn(c)]
    ensures Went(before, h.log, DIAL_STEPS, ok)
  {
    stack' := stack;
    ghost var now := h.log;
    ok := h.Try(Connect);
    WentOne(before, now, DIAL_STEPS, 2, ok);
    if !ok { return; }
    var conn := h.NewConn();
    stack' := stack' + [CloseConn(conn)];
    ok := LogIn(h, before);
  }

  /** Names itself, authenticates and reads what the server says. */
  method LogIn(h: Host, ghost before: seq<Tried>) returns (ok: bool)
    requires h.Valid() && Went(before, h.log, DIAL_STEPS[..3], true)
    modifies h`log
    ensures h.Valid() && Went(before, h.log, DIAL_STEPS, ok)
  {
    ghost var now := h.log;
    ok := h.Try(Hostname);
    WentOne(before, now, DIAL_STEPS, 3, ok);
    if !ok { return; }
    now := h.log;
    ok := h.Try(SetLogin);
    WentOne(before, now, DIAL_STEPS, 4, ok);
    if !ok { return; }
    now := h.log;
    ok := h.Try(WriteMsg);
    WentOne(before, now, DIAL_STEPS, 5, ok);
    if !ok { return; }
    now := h.log;
    ok := h.Try(ReadMsg);
    WentOne(before, now, DIAL_STEPS, 6, ok);
    if !ok { return; }
    now := h.log;
    ok := h.Try(ReadReply);
    WentOne(before, now, DIAL_STEPS, 7, ok);
    assert DIAL_STEPS[..8] == DIAL_STEPS;
  }

  /** Fetches the secret, if one is named, and stages it. */
  method Prepare(h: Host, secretRef: bool, secret: Option<Secret>)
    returns (ok: bool, tls: TlsFiles, stack: seq<Deferred>)
    requires h.Valid()
    modifies h
    ensures h.Valid() && h.seen == old(h.seen) && h.conns == old(h.conns)
    ensures Owes(old(h.files), h.files, stack) && ConnsOf(stack) == {}
    ensures ok && secretRef ==> secret.Some?
    ensures ok ==>
      Exact(if secretRef then secret else None, Seen(h.Content(tls.cert), h.Content(tls.key), h.Content(tls.ca)))
    ensures Went(old(h.log), h.log, Preparation(secretRef, secret), ok) && AllHonest(old(h.log), h.log, secret)
  {
    ok, tls, stack := true, TlsFiles(None, None, None), [];
    WentNowhere(h.log, []);
    if secretRef {
      ok := secret.Some?;
      h.Note(GetSecret, ok);
      WentNowhere(old(h.log), [GetSecret]);
      WentOne(old(h.log), old(h.log), [GetSecret], 0, ok);
      assert [GetSecret][..1] == [GetSecret];
      if !ok { return; }
      ghost var now := h.log;
      ok, tls, stack := StageSecret(h, secret.value);
      WentOn(old(h.log), now, h.log, [GetSecret], SecretSteps(secret.value), ok);
    }
  }

  function Preparation(secretRef: bool, secret: Option<Secret>): seq<Step> {
    if !secretRef then [] else if secret.None? then [GetSecret] else [GetSecret] + SecretSteps(secret.value)
  }

  /** Probes a server.  It succeeds exactly when every step of the plan was tried in order and none failed,
      and otherwise stops at the first that did.  On every way out the files it made are removed and the
      connections it opened are closed, but for exactly those whose release failed; Open is called at most
      once, and then the certificate and key files hold exactly the secret's data. */
  method ValidateFrpServerConfig(h: Host, secretRef: bool, secret: Option<Secret>)
    returns (ok: bool, failed: set<Deferred>)
    requires h.Valid()
    modifies h
    ensures h.Valid() && h.files.Keys == old(h.files).Keys + FilesIn(failed)
    ensures h.files - FilesIn(failed) == old(h.files)
    ensures h.conns == old(h.conns) + ConnsIn(failed)
    ensures failed == {} ==> h.files == old(h.files) && h.conns == old(h.conns)
    ensures h.seen == old(h.seen) ||
      exists s :: h.seen == old(h.seen) + [s] && Exact(if secretRef then secret else None, s) &&
        (secretRef ==> secret.Some?)
    ensures ok ==> h.seen != old(h.seen)
    ensures Went(old(h.log), h.log, Plan(secretRef, secret), ok) && AllHonest(old(h.log), h.log, secret)
  {
    var tls, stack;
    ok, tls, stack := Prepare(h, secretRef, secret);
    ghost var ready := Preparation(secretRef, secret);
    assert Plan(secretRef, secret) == ready + DIAL_STEPS;
    if ok {
      ghost var now := h.log;
      ok, stack := Dial(h, tls, stack, if secretRef then secret else None);
      WentOn(old(h.log), now, h.log, ready, DIAL_STEPS, ok);
      DialIsHonest(old(h.log), now, h.log, ok, secret);
    } else {
      WentShort(old(h.log), h.log, ready, DIAL_STEPS);
    }
    ghost var files, conns := h.files, h.conns;
    failed := h.RunDeferred(stack);
    OwesPaid(old(h.files), files, stack, failed);
    ConnsPaid(old(h.conns), conns, stack, failed);
  }

  lemma DialIsHonest(before: seq<Tried>, now: seq<Tried>, after: seq<Tried>, ok: bool, secret: Option<Secret>)
    requires AllHonest(before, now, secret) && Went(now, after, DIAL_STEPS, ok)
    ensures AllHonest(before, after, secret)
  {
    var n :| 0 <= n <= |DIAL_STEPS| && (ok <==> n == |DIAL_STEPS|) && after == now + Record(DIAL_STEPS, n);
    forall i | |before| <= i < |after| ensures Honest(after[i], secret) {
      if i >= |now| {
        assert after[i].step == DIAL_STEPS[i - |now|];
      }
    }
  }
}
