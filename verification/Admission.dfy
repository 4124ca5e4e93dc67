/** The admission pipeline of FrpServer: defaulting in place, then validation on create and update. */
module Admission {
  import opened Objects

  datatype Auth = Auth(authMethod: string, additionalScopes: seq<string>, token: string)
  datatype Quic = Quic(keepalivePeriod: int, maxIdleTimeout: int, maxIncomingStreams: int)
  datatype SecretRef = SecretRef(name: string, namespace: string)
  datatype Tls = Tls(secretRef: Option<SecretRef>, disableCustomFirstByte: Option<bool>)
  datatype Transport = Transport(protocol: string, dialServerTimeout: int, dialServerKeepAlive: int, poolCount: int,
                                 tcpMux: Option<bool>, tcpMuxKeepaliveInterval: int, quic: Option<Quic>,
                                 heartbeatInterval: int, heartbeatTimeout: int, tls: Tls)
  datatype Spec = Spec(auth: Auth, serverAddr: string, serverPort: int, externalIPs: seq<string>,
                       natHoleStunServer: string, loginFailExit: Option<bool>, udpPacketSize: int, transport: Transport)

  const METHOD_TOKEN := "token"
  const METHOD_OIDC := "oidc"
  const PROTOCOL_TCP := "tcp"
  const PROTOCOL_QUIC := "quic"
  const STUN_ADDR := "stun.easyvoip.com:3478"
  const AUTH_METHODS := [METHOD_TOKEN, METHOD_OIDC]
  const AUTH_SCOPES := ["HeartBeats", "NewWorkConns"]
  const PROTOCOLS := [PROTOCOL_TCP, "kcp", PROTOCOL_QUIC, "wss", "websocket"]

  // ----- defaulting -----

  function IntOr(n: int, fallback: int): int { if n == 0 then fallback else n }
  function TextOr(s: string, fallback: string): string { if s == "" then fallback else s }
  function FlagOr(b: Option<bool>): Option<bool> { if b.None? then Some(true) else b }

  /** Defaulting dereferences the QUIC options of a quic transport without a check. */
  predicate Panics(s: Spec) { s.transport.protocol == PROTOCOL_QUIC && s.transport.quic.None? }

  /** No field that has a default is left at its zero value. */
  predicate Filled(s: Spec) {
    && s.auth.authMethod != "" && s.serverPort != 0 && s.loginFailExit.Some? && s.natHoleStunServer != ""
    && s.udpPacketSize != 0
    && s.transport.protocol != "" && s.transport.dialServerTimeout != 0 && s.transport.dialServerKeepAlive != 0
    && s.transport.poolCount != 0 && s.transport.tcpMux.Some? && s.transport.tcpMuxKeepaliveInterval != 0
    && s.transport.heartbeatInterval != 0 && s.transport.heartbeatTimeout != 0
    && s.transport.tls.disableCustomFirstByte.Some?
    && (s.transport.protocol == PROTOCOL_QUIC ==>
          s.transport.quic.Some? && s.transport.quic.value.keepalivePeriod != 0 &&
          s.transport.quic.value.maxIdleTimeout != 0 && s.transport.quic.value.maxIncomingStreams != 0)
  }

  /** `r` keeps every value of `s` that is set. */
  predicate Keeps(s: Spec, r: Spec) {
    && r.auth == s.auth.(authMethod := r.auth.authMethod) && r.serverAddr == s.serverAddr
    && r.externalIPs == s.externalIPs
    && (s.auth.authMethod != "" ==> r.auth.authMethod == s.auth.authMethod)
    && (s.serverPort != 0 ==> r.serverPort == s.serverPort)
    && (s.loginFailExit.Some? ==> r.loginFailExit == s.loginFailExit)
    && (s.natHoleStunServer != "" ==> r.natHoleStunServer == s.natHoleStunServer)
    && (s.udpPacketSize != 0 ==> r.udpPacketSize == s.udpPacketSize)
    && KeepsTransport(s.transport, r.transport)
  }

  predicate KeepsTransport(s: Transport, r: Transport) {
    && (s.protocol != "" ==> r.protocol == s.protocol)
    && (s.dialServerTimeout != 0 ==> r.dialServerTimeout == s.dialServerTimeout)
    && (s.dialServerKeepAlive != 0 ==> r.dialServerKeepAlive == s.dialServerKeepAlive)
    && (s.poolCount != 0 ==> r.poolCount == s.poolCount)
    && (s.tcpMux.Some? ==> r.tcpMux == s.tcpMux)
    && (s.tcpMuxKeepaliveInterval != 0 ==> r.tcpMuxKeepaliveInterval == s.tcpMuxKeepaliveInterval)
    && (s.heartbeatInterval != 0 ==> r.heartbeatInterval == s.heartbeatInterval)
    && (s.heartbeatTimeout != 0 ==> r.heartbeatTimeout == s.heartbeatTimeout)
    && r.tls.secretRef == s.tls.secretRef && (s.tls.disableCustomFirstByte.Some? ==> r.tls == s.tls)
    && r.quic.Some? == s.quic.Some?
    && (r.protocol != PROTOCOL_QUIC ==> r.quic == s.quic)
    && (s.quic.Some? ==>
          && (s.quic.value.keepalivePeriod != 0 ==> r.quic.value.keepalivePeriod == s.quic.value.keepalivePeriod)
          && (s.quic.value.maxIdleTimeout != 0 ==> r.quic.value.maxIdleTimeout == s.quic.value.maxIdleTimeout)
          && (s.quic.value.maxIncomingStreams != 0 ==>
                r.quic.value.maxIncomingStreams == s.quic.value.maxIncomingStreams))
  }

  function DefaultQuic(q: Quic): Quic {
    Quic(IntOr(q.keepalivePeriod, 10), IntOr(q.maxIdleTimeout, 30), IntOr(q.maxIncomingStreams, 100000))
  }

  /** The fields set before the QUIC options are reached. */
  function DefaultPlain(s: Spec): Spec {
    var t := s.transport;
    s.(auth := s.auth.(authMethod := TextOr(s.auth.authMethod, METHOD_TOKEN)),
       serverPort := IntOr(s.serverPort, 7000),
       loginFailExit := FlagOr(s.loginFailExit),
       natHoleStunServer := TextOr(s.natHoleStunServer, STUN_ADDR),
       udpPacketSize := IntOr(s.udpPacketSize, 1500),
       transport := t.(protocol := TextOr(t.protocol, PROTOCOL_TCP),
                       dialServerTimeout := IntOr(t.dialServerTimeout, 10),
                       dialServerKeepAlive := IntOr(t.dialServerKeepAlive, 7200),
                       poolCount := IntOr(t.poolCount, 1),
                       tcpMux := FlagOr(t.tcpMux),
                       tcpMuxKeepaliveInterval := IntOr(t.tcpMuxKeepaliveInterval, 60),
                       heartbeatInterval := IntOr(t.heartbeatInterval, 30),
                       heartbeatTimeout := IntOr(t.heartbeatTimeout, 90),
                       tls := t.tls.(disableCustomFirstByte := FlagOr(t.tls.disableCustomFirstByte))))
  }

  function Defaulted(s: Spec): Spec
    requires !Panics(s)
  {
    var r := DefaultPlain(s);
    if r.transport.protocol == PROTOCOL_QUIC
    then r.(transport := r.transport.(quic := Some(DefaultQuic(r.transport.quic.value))))
    else r
  }

  lemma PlainPanics(s: Spec)
    ensures Panics(DefaultPlain(s)) <==> Panics(s)
  {
    assert PROTOCOL_QUIC[0] == 'q' && PROTOCOL_TCP[0] == 't';
  }

  /** A filled specification is left exactly as it is, and only such a one. */
  lemma DefaultFixesFilled(s: Spec)
    requires !Panics(s)
    ensures Defaulted(s) == s <==> Filled(s)
  {
    assert |METHOD_TOKEN| == 5 && |STUN_ADDR| == 22 && |PROTOCOL_TCP| == 3;
    if Filled(s) {
      assert DefaultPlain(s) == s;
    }
  }

  lemma DefaultFills(s: Spec)
    requires !Panics(s)
    ensures Filled(Defaulted(s))
  {
    assert |METHOD_TOKEN| == 5 && |STUN_ADDR| == 22 && |PROTOCOL_TCP| == 3;
  }

  lemma DefaultKeeps(s: Spec)
    requires !Panics(s)
    ensures Keeps(s, Defaulted(s))
  {
    assert KeepsTransport(s.transport, Defaulted(s).transport);
  }

  /** Defaulting fills every such field, keeps every value that was set, and done twice is done once. */
  lemma DefaultingIdempotent(s: Spec)
    requires !Panics(s)
    ensures Filled(Defaulted(s)) && Keeps(s, Defaulted(s))
    ensures !Panics(Defaulted(s)) && Defaulted(Defaulted(s)) == Defaulted(s)
  {
    DefaultFills(s);
    DefaultKeeps(s);
    assert !Panics(Defaulted(s));
    DefaultFixesFilled(Defaulted(s));
  }

  // ----- validation -----

  datatype Violation =
    | BadMethod | BadScopes | NoToken | NoAddr | BadPort | NoExternalIPs | HeartbeatTooShort
    | NoSecretNamespace | NoSecretName | BadProtocol | ProbeFailed

  predicate PortInRange(port: int) { 0 <= port <= 65535 }

  /** The rules both validators share. */
  predicate Breaks(s: Spec, v: Violation) {
    var t := s.transport;
    match v
    case BadMethod => s.auth.authMethod !in AUTH_METHODS
    case BadScopes => exists i :: 0 <= i < |s.auth.additionalScopes| && s.auth.additionalScopes[i] !in AUTH_SCOPES
    case NoToken => s.auth.authMethod == METHOD_TOKEN && s.auth.token == ""
    case NoAddr => s.serverAddr == ""
    case NoExternalIPs => s.externalIPs == []
    case HeartbeatTooShort =>
      t.heartbeatTimeout > 0 && t.heartbeatInterval > 0 && t.heartbeatTimeout < t.heartbeatInterval
    case NoSecretNamespace =>
      t.tls.secretRef.Some? && t.tls.secretRef.value.name != "" && t.tls.secretRef.value.namespace == ""
    case NoSecretName =>
      t.tls.secretRef.Some? && t.tls.secretRef.value.name == "" && t.tls.secretRef.value.namespace != ""
    case BadProtocol => t.tls.secretRef.Some? && t.protocol !in PROTOCOLS
    case _ => false
  }

  predicate BreaksCreate(s: Spec, v: Violation) { if v.BadPort? then !PortInRange(s.serverPort) else Breaks(s, v) }
  predicate BreaksUpdate(s: Spec, v: Violation) { if v.BadPort? then s.serverPort <= 0 else Breaks(s, v) }

  predicate Broken(s: Spec, update: bool, v: Violation) { if update then BreaksUpdate(s, v) else BreaksCreate(s, v) }

  ghost predicate PassesCreate(s: Spec) { forall v :: !BreaksCreate(s, v) }
  ghost predicate PassesUpdate(s: Spec) { forall v :: !BreaksUpdate(s, v) }

  /** The errors so far are exactly the broken ones among the rules looked at. */
  ghost predicate Collects(s: Spec, update: bool, errs: seq<Violation>, looked: set<Violation>) {
    forall v :: v in errs <==> v in looked && Broken(s, update, v)
  }

  const STATIC_RULES := {BadMethod, BadScopes, NoToken, NoAddr, BadPort, NoExternalIPs, HeartbeatTooShort,
                         NoSecretNamespace, NoSecretName, BadProtocol}

  /** The object under admission. */
  class Server {
    var spec: Spec

    constructor (s: Spec)
      ensures spec == s
    {
      spec := s;
    }

    /** Overwrites empty fields one after the other; a quic transport without options panics with
        everything before them already set.  A cancelled context is reported after the fact. */
    method Default(cancelled: bool) returns (panicked: bool, failed: bool)
      modifies this
      ensures panicked == Panics(old(spec)) && failed == (panicked || cancelled)
      ensures spec == if panicked then DefaultPlain(old(spec)) else Defaulted(old(spec))
    {
      PlainPanics(spec);
      spec := spec.(auth := spec.auth.(authMethod := TextOr(spec.auth.authMethod, METHOD_TOKEN)));
      spec := spec.(serverPort := IntOr(spec.serverPort, 7000));
      spec := spec.(loginFailExit := FlagOr(spec.loginFailExit));
      spec := spec.(natHoleStunServer := TextOr(spec.natHoleStunServer, STUN_ADDR));
      spec := spec.(udpPacketSize := IntOr(spec.udpPacketSize, 1500));
      var t := spec.transport;
      t := t.(protocol := TextOr(t.protocol, PROTOCOL_TCP));
      t := t.(dialServerTimeout := IntOr(t.dialServerTimeout, 10));
      t := t.(dialServerKeepAlive := IntOr(t.dialServerKeepAlive, 7200));
      t := t.(poolCount := IntOr(t.poolCount, 1));
      t := t.(tcpMux := FlagOr(t.tcpMux));
      t := t.(tcpMuxKeepaliveInterval := IntOr(t.tcpMuxKeepaliveInterval, 60));
      t := t.(heartbeatInterval := IntOr(t.heartbeatInterval, 30));
      t := t.(heartbeatTimeout := IntOr(t.heartbeatTimeout, 90));
      t := t.(tls := t.tls.(disableCustomFirstByte := FlagOr(t.tls.disableCustomFirstByte)));
      spec := spec.(transport := t);
      if t.protocol == PROTOCOL_QUIC {
        if t.quic.None? {
          return true, true;
        }
        spec := spec.(transport := t.(quic := Some(DefaultQuic(t.quic.value))));
      }
      return false, cancelled;
    }

    method ScopesKnown() returns (known: bool)
      ensures known == !Breaks(spec, BadScopes)
    {
      var i := 0;
      while i < |spec.auth.additionalScopes|
        invariant 0 <= i <= |spec.auth.additionalScopes|
        invariant forall j | 0 <= j < i :: spec.auth.additionalScopes[j] in AUTH_SCOPES
      {
        if spec.auth.additionalScopes[i] !in AUTH_SCOPES {
          return false;
        }
        i := i + 1;
      }
      return true;
    }

    /** Joins one more error when its rule is broken. */
    method Join(update: bool, errs: seq<Violation>, v: Violation, broken: bool, ghost looked: set<Violation>)
      returns (r: seq<Violation>)
      requires Collects(spec, update, errs, looked) && broken == Broken(spec, update, v)
      ensures Collects(spec, update, r, looked + {v})
    {
      r := if broken then errs + [v] else errs;
    }

    method StaticErrors(update: bool) returns (errs: seq<Violation>)
      ensures Collects(spec, update, errs, STATIC_RULES)
    {
      var t := spec.transport;
      errs := Join(update, [], BadMethod, spec.auth.authMethod !in AUTH_METHODS, {});
      var known := ScopesKnown();
      errs := Join(update, errs, BadScopes, !known, {BadMethod});
      errs := Join(update, errs, NoToken, spec.auth.authMethod == METHOD_TOKEN && spec.auth.token == "",
                   {BadMethod, BadScopes});
      errs := Join(update, errs, NoAddr, spec.serverAddr == "", {BadMethod, BadScopes, NoToken});
      errs := Join(update, errs, BadPort, if update then spec.serverPort <= 0 else !PortInRange(spec.serverPort),
                   {BadMethod, BadScopes, NoToken, NoAddr});
      errs := Join(update, errs, NoExternalIPs, spec.externalIPs == [],
                   {BadMethod, BadScopes, NoToken, NoAddr, BadPort});
      errs := Join(update, errs, HeartbeatTooShort,
                   t.heartbeatTimeout > 0 && t.heartbeatInterval > 0 && t.heartbeatTimeout < t.heartbeatInterval,
                   {BadMethod, BadScopes, NoToken, NoAddr, BadPort, NoExternalIPs});
      errs := SecretErrors(update, errs);
    }

    method SecretErrors(update: bool, errs: seq<Violation>) returns (r: seq<Violation>)
      requires Collects(spec, update, errs,
                        {BadMethod, BadScopes, NoToken, NoAddr, BadPort, NoExternalIPs, HeartbeatTooShort})
      ensures Collects(spec, update, r, STATIC_RULES)
    {
      var t := spec.transport;
      ghost var looked := {BadMethod, BadScopes, NoToken, NoAddr, BadPort, NoExternalIPs, HeartbeatTooShort};
      r := errs;
      if t.tls.secretRef.Some? {
        var ref := t.tls.secretRef.value;
        r := Join(update, r, NoSecretNamespace, ref.name != "" && ref.namespace == "", looked);
        r := Join(update, r, NoSecretName, ref.name == "" && ref.namespace != "", looked + {NoSecretNamespace});
        r := Join(update, r, BadProtocol, t.protocol !in PROTOCOLS, looked + {NoSecretNamespace} + {NoSecretName});
        assert looked + {NoSecretNamespace} + {NoSecretName} + {BadProtocol} == STATIC_RULES;
      }
    }

    /** One error per broken rule; the probe runs exactly when there is none, and its failure is the
        only other error. */
    method ValidateCreate(probe: bool) returns (errs: seq<Violation>, probed: bool)
      ensures probed <==> PassesCreate(spec)
      ensures forall v :: v in errs <==> BreaksCreate(spec, v) || (v == ProbeFailed && probed && !probe)
      ensures errs == [] <==> PassesCreate(spec) && probe
    {
      errs := StaticErrors(false);
      probed := errs == [];
      assert !probed ==> errs[0] in errs;
      if probed && !probe { errs := errs + [ProbeFailed]; }
    }

    method ValidateUpdate(probe: bool) returns (errs: seq<Violation>, probed: bool)
      ensures probed <==> PassesUpdate(spec)
      ensures forall v :: v in errs <==> BreaksUpdate(spec, v) || (v == ProbeFailed && probed && !probe)
      ensures errs == [] <==> PassesUpdate(spec) && probe
    {
      errs := StaticErrors(true);
      probed := errs == [];
      assert !probed ==> errs[0] in errs;
      if probed && !probe { errs := errs + [ProbeFailed]; }
    }
  }

  // ----- the pipeline -----

  /** Create and update agree except on the port: create accepts zero, update accepts any large number. */
  lemma CreateVersusUpdate(s: Spec)
    ensures PassesCreate(s) && s.serverPort != 0 <==> PassesUpdate(s) && s.serverPort <= 65535
  {
    if PassesCreate(s) && s.serverPort != 0 {
      assert !BreaksCreate(s, BadPort);
      forall v ensures !BreaksUpdate(s, v) { assert !BreaksCreate(s, v); }
    }
    if PassesUpdate(s) && s.serverPort <= 65535 {
      assert !BreaksUpdate(s, BadPort);
      forall v ensures !BreaksCreate(s, v) { assert !BreaksUpdate(s, v); }
    }
  }

  /** What was defaulted and accepted on create is accepted when submitted again unchanged: defaulting
      leaves it alone and every static check of update passes. */
  lemma ResubmissionAccepted(s: Spec)
    requires !Panics(s) && PassesCreate(Defaulted(s))
    ensures !Panics(Defaulted(s)) && Defaulted(Defaulted(s)) == Defaulted(s) && PassesUpdate(Defaulted(s))
  {
    DefaultingIdempotent(s);
    CreateVersusUpdate(Defaulted(s));
  }

  ghost predicate Passes(s: Spec, update: bool) { if update then PassesUpdate(s) else PassesCreate(s) }

  /** On create as on update the protocol is checked exactly when a TLS secret is named: any other accepted
      specification stays accepted under any protocol whatever. */
  lemma ProtocolCheckedOnlyWithSecret(s: Spec, update: bool, protocol: string)
    requires Passes(s, update)
    ensures Passes(s.(transport := s.transport.(protocol := protocol)), update) <==>
      s.transport.tls.secretRef.None? || protocol in PROTOCOLS
  {
    var r := s.(transport := s.transport.(protocol := protocol));
    if s.transport.tls.secretRef.None? || protocol in PROTOCOLS {
      if update {
        forall v ensures !BreaksUpdate(r, v) { assert !BreaksUpdate(s, v); }
      } else {
        forall v ensures !BreaksCreate(r, v) { assert !BreaksCreate(s, v); }
      }
    } else {
      assert Broken(r, update, BadProtocol);
    }
  }

  // ----- the raw specification -----

  /** What stands in for the fields that are left out. */
  lemma DefaultValues(s: Spec)
    requires !Panics(s)
    ensures var r, t := Defaulted(s), s.transport;
      && (s.auth.authMethod == "" ==> r.auth.authMethod == "token") && (s.serverPort == 0 ==> r.serverPort == 7000)
      && (s.loginFailExit.None? ==> r.loginFailExit == Some(true)) && (s.udpPacketSize == 0 ==> r.udpPacketSize == 1500)
      && (s.natHoleStunServer == "" ==> r.natHoleStunServer == "stun.easyvoip.com:3478")
      && (t.protocol == "" ==> r.transport.protocol == "tcp")
      && (t.dialServerTimeout == 0 ==> r.transport.dialServerTimeout == 10)
      && (t.dialServerKeepAlive == 0 ==> r.transport.dialServerKeepAlive == 7200)
      && (t.poolCount == 0 ==> r.transport.poolCount == 1) && (t.tcpMux.None? ==> r.transport.tcpMux == Some(true))
      && (t.tcpMuxKeepaliveInterval == 0 ==> r.transport.tcpMuxKeepaliveInterval == 60)
      && (t.heartbeatInterval == 0 ==> r.transport.heartbeatInterval == 30)
      && (t.heartbeatTimeout == 0 ==> r.transport.heartbeatTimeout == 90)
      && (t.tls.disableCustomFirstByte.None? ==> r.transport.tls.disableCustomFirstByte == Some(true))
      && (t.protocol == "quic" ==>
            var q := r.transport.quic.value;
            && (t.quic.value.keepalivePeriod == 0 ==> q.keepalivePeriod == 10)
            && (t.quic.value.maxIdleTimeout == 0 ==> q.maxIdleTimeout == 30)
            && (t.quic.value.maxIncomingStreams == 0 ==> q.maxIncomingStreams == 100000))
  {
  }

  /** A timeout and an interval that are both positive are in order; left out they are 90 and 30. */
  predicate HeartbeatsInOrder(timeout: int, interval: int) {
    timeout < 0 || interval < 0 || (if timeout == 0 then 90 else timeout) >= (if interval == 0 then 30 else interval)
  }

  predicate CredentialsGiven(a: Auth) {
    && (a.authMethod == "oidc" || ((a.authMethod == "" || a.authMethod == "token") && a.token != ""))
    && forall i | 0 <= i < |a.additionalScopes| ::
         a.additionalScopes[i] == "HeartBeats" || a.additionalScopes[i] == "NewWorkConns"
  }

  /** A secret is named in full or not at all, and only with a protocol that is known. */
  predicate SecretInOrder(t: Transport) {
    t.tls.secretRef.Some? ==>
      && (t.tls.secretRef.value.name == "" <==> t.tls.secretRef.value.namespace == "")
      && (t.protocol == "" || t.protocol == "tcp" || t.protocol == "kcp" || t.protocol == "quic" || t.protocol == "wss"
          || t.protocol == "websocket")
  }

  predicate Admitted(s: Spec) {
    && CredentialsGiven(s.auth) && s.serverAddr != "" && 0 <= s.serverPort <= 65535 && |s.externalIPs| > 0
    && HeartbeatsInOrder(s.transport.heartbeatTimeout, s.transport.heartbeatInterval)
    && SecretInOrder(s.transport) && (s.transport.protocol == "quic" ==> s.transport.quic.Some?)
  }

  lemma CredentialsChecked(s: Spec)
    requires !Panics(s)
    ensures var r := Defaulted(s);
      CredentialsGiven(s.auth) <==>
        !BreaksCreate(r, BadMethod) && !BreaksCreate(r, BadScopes) && !BreaksCreate(r, NoToken)
  {
    var r := Defaulted(s);
    assert |METHOD_TOKEN| == 5 && |METHOD_OIDC| == 4 && r.auth == s.auth.(authMethod := r.auth.authMethod);
    assert forall x: string :: x in AUTH_SCOPES <==> x == "HeartBeats" || x == "NewWorkConns";
    assert forall x: string :: x in AUTH_METHODS <==> x == "token" || x == "oidc";
  }

  lemma SecretChecked(s: Spec)
    requires !Panics(s)
    ensures var r := Defaulted(s);
      SecretInOrder(s.transport) <==>
        !BreaksCreate(r, NoSecretNamespace) && !BreaksCreate(r, NoSecretName) && !BreaksCreate(r, BadProtocol)
  {
    assert forall x: string :: x in PROTOCOLS <==>
      x == "tcp" || x == "kcp" || x == "quic" || x == "wss" || x == "websocket";
  }

  lemma RestChecked(s: Spec)
    requires !Panics(s)
    ensures var r := Defaulted(s);
      && (s.serverAddr != "" <==> !BreaksCreate(r, NoAddr))
      && (|s.externalIPs| > 0 <==> !BreaksCreate(r, NoExternalIPs))
      && (0 <= s.serverPort <= 65535 <==> !BreaksCreate(r, BadPort))
      && (HeartbeatsInOrder(s.transport.heartbeatTimeout, s.transport.heartbeatInterval) <==>
            !BreaksCreate(r, HeartbeatTooShort))
      && !BreaksCreate(r, ProbeFailed)
  {
  }

  /** Defaulting and the checks of create together, on what the user has written: nobody panics and the static
      checks pass exactly for these specifications. */
  lemma AdmittedIff(s: Spec)
    ensures Admitted(s) <==> !Panics(s) && PassesCreate(Defaulted(s))
  {
    if !Panics(s) {
      var r := Defaulted(s);
      CredentialsChecked(s);
      SecretChecked(s);
      RestChecked(s);
      if Admitted(s) {
        forall v ensures !BreaksCreate(r, v) {}
      }
    }
  }

  /** Token, address and one external address are all that has to be given. */
  lemma MinimalIsAdmitted(s: Spec)
    requires s.auth.authMethod == "" && s.auth.token != "" && s.auth.additionalScopes == [] && s.serverAddr != ""
    requires |s.externalIPs| > 0 && s.serverPort == 0
    requires s.transport.protocol == "" && s.transport.tls.secretRef.None?
    requires s.transport.heartbeatInterval == 0 && s.transport.heartbeatTimeout == 0
    ensures !Panics(s) && PassesCreate(Defaulted(s)) && PassesUpdate(Defaulted(s))
  {
    assert PROTOCOL_QUIC[0] == 'q';
    AdmittedIff(s);
    ResubmissionAccepted(s);
  }
}
