/** The client constructor: it resolves the target, selects the credentials,
    assembles the dial options, opens one connection and binds every service
    client of the facade to it, logging the outcome.

    The xDS credential factory and the connection factory are foreign calls;
    they enter as oracles, each an answer the call gives (success or an
    error). The constructor's observable behaviour is its result together with
    the ordered trace of the external calls it makes and the events it logs. */
module Client {
  import opened Wrappers
  import opened GoStrings
  import opened ClientOptions
  import opened Target
  import opened Credentials
  import opened GoErrors

  /** The service config of every connection: round-robin load balancing. */
  const RoundRobinServiceConfig: string := "{\"loadBalancingPolicy\":\"round_robin\"}"

  /** The prefix of the error returned when the xDS credentials cannot be built. */
  const XdsCredentialsErrorPrefix: GoString := "failed to create xds credentials: "

  const ConnectFailedMessage: string := "Failed to connect to dashboard service"
  const ConnectedMessage: string := "Connected to dashboard service"

  /** Transport credentials: plaintext, or xDS-negotiated with a fallback for
      channels the control plane does not secure. */
  datatype TransportCredentials = InsecureCredentials | XdsCredentials(fallback: TransportCredentials)

  /** The credentials installed for a mode. xDS credentials always fall back to
      plaintext, never to further xDS negotiation. */
  function CredentialsFor(mode: CredentialMode): (creds: TransportCredentials)
    ensures creds.XdsCredentials? <==> mode == XdsWithInsecureFallback
    ensures creds.XdsCredentials? ==> creds.fallback == InsecureCredentials
  {
    match mode
    case Insecure => InsecureCredentials
    case XdsWithInsecureFallback => XdsCredentials(InsecureCredentials)
  }

  /** The dial options the connection is opened with. */
  datatype DialOption =
    | WithDefaultServiceConfig(json: string)
    | WithTransportCredentials(creds: TransportCredentials)

  /** The option list: the round-robin service config, then the credentials. */
  function DialOptions(mode: CredentialMode): seq<DialOption> {
    [WithDefaultServiceConfig(RoundRobinServiceConfig), WithTransportCredentials(CredentialsFor(mode))]
  }

  /** How many transport-credential options a list carries. */
  function CredentialOptionCount(opts: seq<DialOption>): nat {
    if opts == [] then 0
    else (if opts[0].WithTransportCredentials? then 1 else 0) + CredentialOptionCount(opts[1..])
  }

  /** The option list always has two entries: the round-robin service config
      first, then exactly one credentials option, plaintext exactly in
      Insecure mode, so the runtime never sees two competing security
      settings or none. */
  lemma DialOptionsShape(mode: CredentialMode)
    ensures |DialOptions(mode)| == 2
    ensures DialOptions(mode)[0] == WithDefaultServiceConfig(RoundRobinServiceConfig)
    ensures CredentialOptionCount(DialOptions(mode)) == 1
    ensures DialOptions(mode)[1].WithTransportCredentials?
    ensures DialOptions(mode)[1].creds == InsecureCredentials <==> mode == Insecure
  {
    var opts := DialOptions(mode);
    assert opts[1..][1..] == [];
    assert CredentialOptionCount(opts[1..]) == 1 + CredentialOptionCount(opts[1..][1..]);
  }

  /** Identifies the connection the runtime hands back. */
  type ConnId = nat

  /** The services the facade exposes, one generated client each. */
  datatype Service = AuthService | StaffService | PatientService | DiseasService

  /** A generated service client: a stateless handle on one connection. */
  datatype ServiceClient = ServiceClient(service: Service, conn: ConnId)

  /** The facade: the connection, the logger, and the four service clients. */
  datatype Facade = Facade(
    conn: ConnId,
    log: Logger,
    auth: ServiceClient,
    staff: ServiceClient,
    patient: ServiceClient,
    diseas: ServiceClient)

  /** Every service client of `f` is the one for its field's service and runs
      over the facade's connection `conn`. */
  predicate BoundTo(f: Facade, conn: ConnId) {
    && f.conn == conn
    && f.auth == ServiceClient(AuthService, conn)
    && f.staff == ServiceClient(StaffService, conn)
    && f.patient == ServiceClient(PatientService, conn)
    && f.diseas == ServiceClient(DiseasService, conn)
  }

  /** Which step the returned error comes from. */
  datatype ErrorKind = CredentialConstruction | ConnectionOpen

  datatype Failure = Failure(kind: ErrorKind, err: GoError)

  /** An external call the constructor makes, or an event it logs. */
  datatype Effect =
    | CallNewXdsClientCredentials
    | CallNewClient(target: GoString, opts: seq<DialOption>)
    | LogError(message: string, fields: map<string, GoString>)
    | LogInfo(message: string, fields: map<string, GoString>)
  {
    predicate IsLog() {
      LogError? || LogInfo?
    }
  }

  /** What one call of the constructor does: its result and its trace. */
  datatype Run = Run(result: Result<Facade, Failure>, trace: seq<Effect>)

  /** The effects of `trace` that satisfy `keep`, in order. */
  function Filter(trace: seq<Effect>, keep: Effect -> bool): (kept: seq<Effect>)
    ensures |kept| <= |trace|
    ensures forall i :: 0 <= i < |kept| ==> keep(kept[i]) && kept[i] in trace
    ensures forall e :: e in trace && keep(e) ==> e in kept
  {
    if trace == [] then []
    else (if keep(trace[0]) then [trace[0]] else []) + Filter(trace[1..], keep)
  }

  /** Filtering distributes over concatenation of traces. */
  lemma {:induction false} FilterAppend(a: seq<Effect>, b: seq<Effect>, keep: Effect -> bool)
    ensures Filter(a + b, keep) == Filter(a, keep) + Filter(b, keep)
    decreases |a|
  {
    if a == [] {
      assert a + b == b;
    } else {
      assert (a + b)[1..] == a[1..] + b;
      FilterAppend(a[1..], b, keep);
    }
  }

  /** The log events of a trace. */
  function Logs(trace: seq<Effect>): seq<Effect> {
    Filter(trace, (e: Effect) => e.IsLog())
  }

  /** The connection attempts of a trace. */
  function Dials(trace: seq<Effect>): seq<Effect> {
    Filter(trace, (e: Effect) => e.CallNewClient?)
  }

  /** The constructor. The target comes from the address name; the credential
      mode from the environment and the address name. In xDS mode the
      credential factory is consulted first, and its failure is returned at
      once, wrapped. Otherwise the connection is opened with the two dial
      options; a failure is logged with the target and the error and returned
      as it is, and a success is logged with the target and yields the facade. */
  function New(o: Options, xdsFactory: Result<(), GoError>, newClient: Result<ConnId, GoError>): (run: Run)
    ensures run.result.Ok? <==>
      newClient.Ok? && (SelectMode(o.env, o.addressName) == Insecure || xdsFactory.Ok?)
    ensures run.result.Ok? ==> BoundTo(run.result.value, newClient.value) && run.result.value.log == o.log
    ensures run.result.Err? && run.result.error.kind == CredentialConstruction ==>
      xdsFactory.Err? && run.result.error.err.wrapped == Some(xdsFactory.error)
    ensures run.result.Err? && run.result.error.kind == ConnectionOpen ==>
      newClient.Err? && run.result.error.err == newClient.error
    ensures run.result.Err? ==>
      (run.result.error.kind == CredentialConstruction <==>
         SelectMode(o.env, o.addressName) == XdsWithInsecureFallback && xdsFactory.Err?)
    ensures CallNewXdsClientCredentials in run.trace <==>
      SelectMode(o.env, o.addressName) == XdsWithInsecureFallback
  {
    var target := ResolveTarget(o.addressName);
    var mode := SelectMode(o.env, o.addressName);
    var prelude := Prelude(mode);
    if mode == XdsWithInsecureFallback && xdsFactory.Err? then
      Run(Err(Failure(CredentialConstruction, Wrap(XdsCredentialsErrorPrefix, xdsFactory.error))), prelude)
    else
      var dialled := prelude + [CallNewClient(target, DialOptions(mode))];
      match newClient
      case Err(e) =>
        var trace := dialled + [LogError(ConnectFailedMessage, map["target" := target, "error" := e.text])];
        Run(Err(Failure(ConnectionOpen, e)), trace)
      case Ok(conn) =>
        var trace := dialled + [LogInfo(ConnectedMessage, map["target" := target])];
        Run(Ok(Facade(
              conn, o.log,
              ServiceClient(AuthService, conn),
              ServiceClient(StaffService, conn),
              ServiceClient(PatientService, conn),
              ServiceClient(DiseasService, conn))),
            trace)
  }

  /** The effects the constructor records before it dials: the xDS credential
      factory call, in xDS mode only. */
  function Prelude(mode: CredentialMode): (prelude: seq<Effect>)
    ensures Logs(prelude) == [] && Dials(prelude) == []
  {
    if mode == XdsWithInsecureFallback then [CallNewXdsClientCredentials] else []
  }

  /** A one-effect trace keeps its effect exactly when `keep` accepts it. */
  lemma FilterSingleton(e: Effect, keep: Effect -> bool)
    ensures Filter([e], keep) == if keep(e) then [e] else []
  {
  }

  /** The effects `keep` accepts from a trace that dials once and then logs. */
  lemma FilterDialThenLog(mode: CredentialMode, dial: Effect, event: Effect, keep: Effect -> bool)
    requires Filter(Prelude(mode), keep) == []
    ensures Filter(Prelude(mode) + [dial] + [event], keep) == Filter([dial], keep) + Filter([event], keep)
  {
    FilterAppend(Prelude(mode), [dial], keep);
    FilterAppend(Prelude(mode) + [dial], [event], keep);
  }

  /** The logs and dials of a trace that dials once and then logs `event`. */
  lemma DialThenLog(mode: CredentialMode, dial: Effect, event: Effect)
    requires dial.CallNewClient? && event.IsLog()
    ensures Logs(Prelude(mode) + [dial] + [event]) == [event]
    ensures Dials(Prelude(mode) + [dial] + [event]) == [dial]
  {
    var logs := (e: Effect) => e.IsLog();
    var dials := (e: Effect) => e.CallNewClient?;
    FilterDialThenLog(mode, dial, event, logs);
    FilterSingleton(dial, logs);
    FilterSingleton(event, logs);
    FilterDialThenLog(mode, dial, event, dials);
    FilterSingleton(dial, dials);
    FilterSingleton(event, dials);
  }

  /** When the xDS credentials cannot be built, the constructor returns the
      factory's error wrapped with its prefix, and does nothing else: it does
      not dial, logs nothing, and returns no facade. */
  lemma NewCredentialFailure(o: Options, xdsFactory: Result<(), GoError>, newClient: Result<ConnId, GoError>)
    requires SelectMode(o.env, o.addressName) == XdsWithInsecureFallback
    requires xdsFactory.Err?
    ensures var run := New(o, xdsFactory, newClient);
      && run.result == Err(Failure(CredentialConstruction, Wrap(XdsCredentialsErrorPrefix, xdsFactory.error)))
      && run.result.error.err.text == XdsCredentialsErrorPrefix + xdsFactory.error.text
      && Is(run.result.error.err, xdsFactory.error)
      && run.trace == [CallNewXdsClientCredentials]
      && Dials(run.trace) == [] && Logs(run.trace) == []
  {
  }

  /** When the connection cannot be opened, the constructor calls the xDS
      factory once in xDS mode and never otherwise, then dials once, with
      the resolved target and the two dial options, then logs exactly one
      error event carrying the target and the error's message, and returns
      that same error, unwrapped, with no facade. */
  lemma NewConnectFailure(o: Options, xdsFactory: Result<(), GoError>, newClient: Result<ConnId, GoError>)
    requires SelectMode(o.env, o.addressName) == Insecure || xdsFactory.Ok?
    requires newClient.Err?
    ensures var run := New(o, xdsFactory, newClient);
      var target := ResolveTarget(o.addressName);
      var event := LogError(ConnectFailedMessage, map["target" := target, "error" := newClient.error.text]);
      var mode := SelectMode(o.env, o.addressName);
      var factoryCalls := if mode == XdsWithInsecureFallback then [CallNewXdsClientCredentials] else [];
      && run.trace == factoryCalls + [CallNewClient(target, DialOptions(mode)), event]
      && run.result == Err(Failure(ConnectionOpen, newClient.error))
      && Dials(run.trace) == [CallNewClient(target, DialOptions(mode))]
      && Logs(run.trace) == [event]
      && run.trace[|run.trace| - 1] == event
  {
    var target := ResolveTarget(o.addressName);
    var mode := SelectMode(o.env, o.addressName);
    DialThenLog(mode, CallNewClient(target, DialOptions(mode)),
      LogError(ConnectFailedMessage, map["target" := target, "error" := newClient.error.text]));
  }

  /** When the connection opens, the constructor calls the xDS factory once in
      xDS mode and never otherwise, then dials once, with the resolved target
      and the two dial options, then logs exactly one info event carrying the
      target, and returns a facade whose four service clients all run over the
      one connection it opened. */
  lemma NewSuccess(o: Options, xdsFactory: Result<(), GoError>, newClient: Result<ConnId, GoError>)
    requires SelectMode(o.env, o.addressName) == Insecure || xdsFactory.Ok?
    requires newClient.Ok?
    ensures var run := New(o, xdsFactory, newClient);
      var target := ResolveTarget(o.addressName);
      var event := LogInfo(ConnectedMessage, map["target" := target]);
      var mode := SelectMode(o.env, o.addressName);
      var factoryCalls := if mode == XdsWithInsecureFallback then [CallNewXdsClientCredentials] else [];
      && run.trace == factoryCalls + [CallNewClient(target, DialOptions(mode)), event]
      && run.result.Ok?
      && BoundTo(run.result.value, newClient.value)
      && run.result.value.log == o.log
      && Dials(run.trace) == [CallNewClient(target, DialOptions(mode))]
      && Logs(run.trace) == [event]
      && run.trace[|run.trace| - 1] == event
  {
    var target := ResolveTarget(o.addressName);
    var mode := SelectMode(o.env, o.addressName);
    DialThenLog(mode, CallNewClient(target, DialOptions(mode)), LogInfo(ConnectedMessage, map["target" := target]));
  }

  /** Over every outcome: at most one connection attempt and at most one log
      event, and the constructor logs exactly when it dialled. */
  lemma NewDialsAndLogsAtMostOnce(o: Options, xdsFactory: Result<(), GoError>, newClient: Result<ConnId, GoError>)
    ensures var run := New(o, xdsFactory, newClient);
      && |Dials(run.trace)| <= 1
      && |Logs(run.trace)| <= 1
      && (Logs(run.trace) == [] <==> Dials(run.trace) == [])
  {
    var mode := SelectMode(o.env, o.addressName);
    if mode == XdsWithInsecureFallback && xdsFactory.Err? {
      NewCredentialFailure(o, xdsFactory, newClient);
    } else if newClient.Err? {
      NewConnectFailure(o, xdsFactory, newClient);
    } else {
      NewSuccess(o, xdsFactory, newClient);
    }
  }

  /** Plaintext is only ever dialled in development or for a supplied address
      without the discovery scheme; every other dial carries xDS credentials. */
  lemma NewPlaintextOnlyWhereAllowed(o: Options, xdsFactory: Result<(), GoError>, newClient: Result<ConnId, GoError>)
    ensures forall e :: e in Dials(New(o, xdsFactory, newClient).trace) ==>
      && e.CallNewClient? && |e.opts| == 2
      && (e.opts[1].creds == InsecureCredentials <==>
            IsDev(o.env) || (o.addressName != "" && !HasXdsScheme(o.addressName)))
  {
  }

  /** Outside xDS mode the credential factory is never consulted, so its
      answer cannot change what the constructor does. */
  lemma NewInsecureIgnoresXdsFactory(o: Options, x1: Result<(), GoError>, x2: Result<(), GoError>, newClient: Result<ConnId, GoError>)
    requires SelectMode(o.env, o.addressName) == Insecure
    ensures New(o, x1, newClient) == New(o, x2, newClient)
    ensures CallNewXdsClientCredentials !in New(o, x1, newClient).trace
  {
  }
}
