/**
 * The proxy connect job as a pure state machine: a snapshot of the job's
 * fields, one step function per state of the DoLoop trampoline, the loop
 * itself, and the entry points through which the job is driven. The class in
 * ProxyConnectJob is proved to behave exactly like these functions.
 *
 * Collaborators (nested connect jobs, proxy client sockets, the HTTP/2
 * session pool, QUIC stream requests) are oracles. An answer depends on the
 * kind of call and on the turn: the number of times DoLoop has been entered.
 * Within one DoLoop run each kind of call is made at most once (the state
 * graph is acyclic within a run), so oracles give arbitrary answers over time,
 * while the two HTTP/2 session lookups of one synchronous run agree, as they
 * do in the single-threaded source.
 */
module ProxyConnectMachine {
  import opened Wrappers
  import opened NetErrors
  import opened ProxyParams
  import opened ProxyTimeouts
  import opened ProxyResults

  datatype State =
    | BeginConnect
    | TransportConnect
    | TransportConnectComplete
    | HttpProxyConnect
    | HttpProxyConnectComplete
    | SpdyProxyCreateStream
    | SpdyProxyCreateStreamComplete
    | QuicProxyCreateSession
    | QuicProxyCreateStream
    | QuicProxyCreateStreamComplete
    | RestartWithAuth
    | RestartWithAuthComplete
    | StateNone

  datatype Priority = Throttled | Idle | Lowest | Low | Medium | Highest

  const DefaultPriority: Priority := Lowest
  /** The priority of every HTTP/2 or QUIC stream to the proxy, whatever the caller asks for. */
  const TunnelPriority: Priority := DefaultPriority

  datatype LoadState = LoadIdle | LoadResolvingHost | LoadConnecting | LoadSslHandshake | LoadEstablishingProxyTunnel

  /** Collaborator calls whose integer result the job interprets. */
  datatype Call =
    | NestedConnect           // TransportConnectJob or SSLConnectJob Connect()
    | HttpTunnelConnect       // HttpProxyClientSocket Connect()
    | SpdyStreamRequestStart  // SpdyStreamRequest StartRequest()
    | SpdyTunnelConnect       // SpdyProxyClientSocket Connect()
    | QuicSessionRequest      // QuicStreamRequest Request()
    | QuicStreamRequest       // QUIC session handle RequestStream()
    | QuicTunnelConnect       // QuicProxyClientSocket Connect()
    | TunnelRestartWithAuth   // proxy client socket RestartWithAuth()

  /** Collaborator questions with a yes/no answer. */
  datatype Query =
    | SpdySessionAvailable    // the session pool finds a session to the proxy
    | NegotiatedHttp2         // the nested socket negotiated HTTP/2
    | NestedEstablished       // the nested job has established a connection
    | TunnelIsConnected       // the proxy client socket is connected

  datatype Collaborators = Collaborators(
    result: (Call, nat) -> int,
    holds: (Query, nat) -> bool,
    nestedLoadState: nat -> LoadState,
    nestedResolveError: nat -> int,
    httpRtt: nat -> Option<int>)        // the network quality estimator's HTTP RTT estimate

  /** What is fixed for the lifetime of one job. */
  datatype JobConfig = JobConfig(
    params: HttpProxySocketParams,
    env: Collaborators,
    timeouts: TimeoutConfig,
    platform: Platform,
    hasEstimator: bool)                 // a network quality estimator is present
  {
    predicate Valid() { params.Valid() && timeouts.Valid() }
  }

  /** The network quality estimator as BeginConnect sees it in a given turn. */
  function EstimatorAt(c: JobConfig, turn: nat): Option<QualityEstimator> {
    if c.hasEstimator then Some(QualityEstimator(c.env.httpRtt(turn))) else None
  }

  /** The transport-phase timeout BeginConnect computes in a given turn. */
  function TransportTimeout(c: JobConfig, turn: nat): int
    requires c.timeouts.Valid()
  {
    AlternateNestedConnectionTimeout(c.timeouts, c.platform, c.params, EstimatorAt(c, turn))
  }

  predicate SessionAvailable(c: JobConfig, turn: nat) {
    c.env.holds(SpdySessionAvailable, turn)
  }

  datatype NestedKind = TransportJob | SslJob
  datatype NestedJob = NestedJob(kind: NestedKind, priority: Priority)

  datatype TunnelKind = HttpTunnel | SpdyTunnel | QuicTunnel
  /**
   * A proxy client socket. `streamPriority` is the priority of the HTTP/2 or
   * QUIC stream it runs on; `requested` the last priority the job passed on.
   */
  datatype TunnelSocket = TunnelSocket(kind: TunnelKind, streamPriority: Option<Priority>, requested: Option<Priority>)

  datatype StreamRequest = StreamRequest(priority: Priority)

  /** The socket handed to the caller on success. */
  datatype HandedOut = PlainProxySocket(nested: NestedKind) | ProxyTunnelSocket(tunnel: TunnelKind)

  datatype CertRequestInfo = CertRequestInfo(isProxy: bool)

  /** Work posted to the task runner. */
  datatype Continuation = DeliverAuthChallenge | ResumeAfterAuth

  /** Calls made on the job's delegate. */
  datatype Notification = Completed(result: int) | ProxyAuthNeeded

  /**
   * What the job's surroundings have seen of it: sockets handed to the owner,
   * work posted to the task runner, the delegate's calls and restart
   * callback, and calls on the auth controller, the session pool and the
   * nested-job factory. `turn` counts entries into the loop and indexes the
   * collaborators' answers.
   */
  datatype World = World(
    handedOut: Option<HandedOut>,
    queued: Option<Continuation>,
    awaitingCredentials: bool,           // the delegate holds the restart callback
    notified: seq<Notification>,
    turn: nat,
    closedRetries: nat,                  // closed-connection retries taken
    authResets: nat,                     // OnConnectionClosed calls on the auth controller
    nestedJobsStarted: nat,
    spdySessionFromSocket: Option<NestedKind>,  // socket given to the session pool
    rttReadAt: nat)                      // turn in which BeginConnect last asked the estimator

  /** The job's own fields, and its surroundings. */
  datatype JobState = JobState(
    nextState: State,
    priority: Priority,
    hasEstablishedConnection: bool,
    hasRestarted: bool,
    nestedConnectJob: Option<NestedJob>,
    transportSocket: Option<TunnelSocket>,
    spdyStreamRequest: Option<StreamRequest>,
    quicStreamRequest: Option<StreamRequest>,
    quicSession: bool,
    sslCertRequestInfo: Option<CertRequestInfo>,
    resolveErrorInfo: int,
    timer: int,                          // current timeout; 0 means no timer
    world: World)

  datatype StepResult = StepResult(st: JobState, rv: int)

  /** A job as constructed, before Connect. */
  function Initial(priority: Priority): JobState {
    JobState(StateNone, priority, false, false, None, None, None, None, false, None, 0, 0,
             World(None, None, false, [], 0, 0, 0, 0, None, 0))
  }

  // ---------------------------------------------------------------------------
  // The transition table and the invariant

  /** The states each step may hand over to. */
  function Successors(s: State): set<State> {
    match s
    case BeginConnect => {QuicProxyCreateSession, TransportConnect}
    case TransportConnect => {SpdyProxyCreateStream, TransportConnectComplete}
    case TransportConnectComplete => {StateNone, SpdyProxyCreateStream, HttpProxyConnect}
    case HttpProxyConnect => {HttpProxyConnectComplete}
    case HttpProxyConnectComplete => {StateNone}
    case SpdyProxyCreateStream => {SpdyProxyCreateStreamComplete}
    case SpdyProxyCreateStreamComplete => {StateNone, HttpProxyConnectComplete}
    case QuicProxyCreateSession => {QuicProxyCreateStream}
    case QuicProxyCreateStream => {StateNone, QuicProxyCreateStreamComplete}
    case QuicProxyCreateStreamComplete => {StateNone, HttpProxyConnectComplete}
    case RestartWithAuth => {RestartWithAuthComplete}
    case RestartWithAuthComplete => {BeginConnect, HttpProxyConnectComplete}
    case StateNone => {}
  }

  /** A ranking under which every transition goes down: DoLoop terminates. */
  function Rank(s: State): nat {
    match s
    case StateNone => 0
    case HttpProxyConnectComplete => 1
    case HttpProxyConnect => 2
    case SpdyProxyCreateStreamComplete => 2
    case QuicProxyCreateStreamComplete => 2
    case SpdyProxyCreateStream => 3
    case QuicProxyCreateStream => 3
    case QuicProxyCreateSession => 4
    case TransportConnectComplete => 4
    case TransportConnect => 5
    case BeginConnect => 6
    case RestartWithAuthComplete => 7
    case RestartWithAuth => 8
  }

  lemma SuccessorsRankLower(s: State, t: State)
    requires t in Successors(s)
    ensures Rank(t) < Rank(s)
  {
  }

  /** States whose step consumes the result of an operation that may complete asynchronously. */
  predicate AwaitsCompletion(s: State) {
    s.TransportConnectComplete? || s.HttpProxyConnectComplete? || s.SpdyProxyCreateStreamComplete? ||
    s.QuicProxyCreateStream? || s.QuicProxyCreateStreamComplete? || s.RestartWithAuthComplete?
  }

  /** States DoLoop only ever runs with an OK result (its DCHECK_EQ(OK, rv) cases). */
  predicate StartsAfterOk(s: State) {
    s.BeginConnect? || s.TransportConnect? || s.HttpProxyConnect? || s.SpdyProxyCreateStream? ||
    s.QuicProxyCreateSession? || s.RestartWithAuth?
  }

  /** States in which DoLoop may be entered. */
  predicate Resumable(s: State) {
    AwaitsCompletion(s) || s.BeginConnect? || s.RestartWithAuth?
  }

  /** States in which the job waits on the tunnel handshake, a proxy stream or a QUIC session. */
  predicate TunnelWait(s: State) {
    s.HttpProxyConnectComplete? || s.SpdyProxyCreateStreamComplete? || s.QuicProxyCreateStream? ||
    s.QuicProxyCreateStreamComplete? || s.RestartWithAuthComplete?
  }

  /**
   * The running timer matches the phase: while the transport is being connected
   * it is the adaptive transport-phase timeout computed from the estimate
   * read at the last BeginConnect, while the tunnel is being set up it is the
   * fixed tunnel timeout.
   */
  predicate TimerFitsPhase(c: JobConfig, s: JobState) {
    (TunnelWait(s.nextState) ==> s.timer == TunnelTimeout(c.platform)) &&
    (s.nextState.TransportConnect? ==> s.world.rttReadAt == s.world.turn) &&
    ((s.nextState.TransportConnect? || s.nextState.TransportConnectComplete?) && c.timeouts.Valid() ==>
       s.timer == TransportTimeout(c, s.world.rttReadAt))
  }

  /**
   * The job's invariant: the closed-connection retry is taken at most once;
   * every owned resource a step dereferences is present when that step is
   * next; proxy streams carry the tunnel priority; posted work and the
   * delegate's restart callback are consistent with the next state; the
   * timer fits the phase.
   */
  predicate Inv(c: JobConfig, s: JobState) {
    TimerFitsPhase(c, s) &&
    s.world.closedRetries == (if s.hasRestarted then 1 else 0) &&
    s.world.authResets == (if c.params.tunnel then s.world.closedRetries else 0) &&
    (s.nextState.TransportConnect? || s.nextState.TransportConnectComplete? ==> !c.params.isQuic) &&
    ((s.nextState.QuicProxyCreateSession? || s.nextState.QuicProxyCreateStream? ||
      s.nextState.QuicProxyCreateStreamComplete?) ==> c.params.isQuic) &&
    (s.nextState.TransportConnectComplete? || s.nextState.HttpProxyConnect? ==> s.nestedConnectJob.Some?) &&
    (s.nextState.SpdyProxyCreateStream? ==> s.nestedConnectJob.Some? || SessionAvailable(c, s.world.turn)) &&
    ((s.nextState.HttpProxyConnect? || s.nextState.SpdyProxyCreateStream? ||
      s.nextState.SpdyProxyCreateStreamComplete?) ==> c.params.tunnel) &&
    (s.nextState.SpdyProxyCreateStreamComplete? ==> s.spdyStreamRequest.Some?) &&
    (s.nextState.QuicProxyCreateStream? ==> s.quicStreamRequest.Some?) &&
    (s.nextState.QuicProxyCreateStreamComplete? ==> s.quicSession) &&
    ((s.nextState.HttpProxyConnectComplete? || s.nextState.RestartWithAuth? ||
      s.nextState.RestartWithAuthComplete?) ==> s.transportSocket.Some?) &&
    (s.transportSocket.Some? ==> c.params.tunnel || c.params.isQuic) &&
    (s.transportSocket.Some? && !s.transportSocket.value.kind.HttpTunnel? ==>
       s.transportSocket.value.streamPriority == Some(TunnelPriority)) &&
    (s.spdyStreamRequest.Some? ==> s.spdyStreamRequest.value.priority == TunnelPriority) &&
    (s.quicStreamRequest.Some? ==> s.quicStreamRequest.value.priority == TunnelPriority) &&
    (s.world.queued == Some(DeliverAuthChallenge) ==>
       s.nextState.StateNone? && s.transportSocket.Some? && !s.world.awaitingCredentials) &&
    (s.world.queued == Some(ResumeAfterAuth) ==> s.nextState.RestartWithAuth? && !s.world.awaitingCredentials) &&
    (s.world.awaitingCredentials ==> s.nextState.StateNone? && s.transportSocket.Some? && s.world.queued.None?)
  }

  lemma InitialIsValid(c: JobConfig, p: Priority)
    ensures Inv(c, Initial(p))
  {
  }

  /** What a step may assume: `s` is the job with the state being run still in nextState. */
  predicate StepPre(c: JobConfig, s: JobState, rv: int) {
    c.Valid() && Inv(c, s) && !s.nextState.StateNone? &&
    rv != ErrIoPending && (StartsAfterOk(s.nextState) ==> rv == Ok) &&
    s.world.queued.None? && !s.world.awaitingCredentials
  }

  /** A socket was handed out exactly on success, a plain one exactly for a non-tunnel, non-QUIC proxy. */
  predicate SuccessHandsOutSocket(c: JobConfig, o: StepResult) {
    o.rv == Ok && o.st.nextState.StateNone? ==>
      o.st.world.handedOut.Some? &&
      (o.st.world.handedOut.value.PlainProxySocket? <==> !c.params.tunnel && !c.params.isQuic)
  }

  /** What a pending result leaves behind: an operation that will complete, or a posted auth challenge. */
  predicate PendingIsResumable(o: StepResult) {
    (o.rv == ErrIoPending ==>
       AwaitsCompletion(o.st.nextState) ||
       (o.st.nextState.StateNone? && o.st.world.queued == Some(DeliverAuthChallenge))) &&
    (o.rv != ErrIoPending ==> o.st.world.queued.None?)
  }

  /** What every step guarantees. */
  predicate StepPost(c: JobConfig, s: JobState, o: StepResult) {
    Inv(c, o.st) &&
    o.st.nextState in Successors(s.nextState) &&
    (o.rv != ErrIoPending && StartsAfterOk(o.st.nextState) ==> o.rv == Ok) &&
    PendingIsResumable(o) &&
    SuccessHandsOutSocket(c, o) &&
    o.st.world.notified == s.world.notified && o.st.world.turn == s.world.turn && !o.st.world.awaitingCredentials &&
    (s.hasRestarted ==> o.st.hasRestarted) &&
    (s.hasEstablishedConnection ==> o.st.hasEstablishedConnection)
  }

  // ---------------------------------------------------------------------------
  // One function per step

  /** Starts the transport-phase timer; QUIC goes to session creation and counts as established. */
  function BeginConnectStep(c: JobConfig, s: JobState): (o: StepResult)
    requires StepPre(c, s, Ok) && s.nextState.BeginConnect?
    ensures StepPost(c, s, o)
  {
    var s1 := s.(timer := TransportTimeout(c, s.world.turn), world := s.world.(rttReadAt := s.world.turn));
    match GetProxyServerScheme(c.params)
    case SchemeQuic => StepResult(s1.(nextState := QuicProxyCreateSession, hasEstablishedConnection := true), Ok)
    case SchemeHttp => StepResult(s1.(nextState := TransportConnect), Ok)
    case SchemeHttps => StepResult(s1.(nextState := TransportConnect), Ok)
  }

  function StartNestedJob(c: JobConfig, s: JobState, kind: NestedKind): StepResult {
    StepResult(
      s.(nextState := TransportConnectComplete,
         nestedConnectJob := Some(NestedJob(kind, s.priority)),
         world := s.world.(nestedJobsStarted := s.world.nestedJobsStarted + 1)),
      c.env.result(NestedConnect, s.world.turn))
  }

  /**
   * Starts a TCP job for an HTTP proxy or a TLS job for an HTTPS proxy, unless
   * a tunnel is wanted and an HTTP/2 session to the proxy already exists.
   */
  function TransportConnectStep(c: JobConfig, s: JobState): (o: StepResult)
    requires StepPre(c, s, Ok) && s.nextState.TransportConnect?
    ensures StepPost(c, s, o)
  {
    if GetProxyServerScheme(c.params) == SchemeHttp then StartNestedJob(c, s, TransportJob)
    else if c.params.tunnel && SessionAvailable(c, s.world.turn) then
      StepResult(s.(nextState := SpdyProxyCreateStream), Ok)
    else StartNestedJob(c, s, SslJob)
  }

  /** Remaps a transport failure; on success hands out the socket or picks the tunnel protocol. */
  function TransportConnectCompleteStep(c: JobConfig, s: JobState, result: int): (o: StepResult)
    requires StepPre(c, s, result) && s.nextState.TransportConnectComplete?
    ensures StepPost(c, s, o)
  {
    var s1 := s.(nextState := StateNone, resolveErrorInfo := c.env.nestedResolveError(s.world.turn));
    if result != Ok then
      var s2 := if result == ErrSslClientAuthCertNeeded
                then s1.(sslCertRequestInfo := Some(CertRequestInfo(isProxy := true))) else s1;
      StepResult(s2, TransportFailureResult(result))
    else
      var s2 := s1.(hasEstablishedConnection := true);
      if !c.params.tunnel then
        StepResult(s2.(world := s.world.(handedOut := Some(PlainProxySocket(s.nestedConnectJob.value.kind)))), result)
      else if c.env.holds(NegotiatedHttp2, s.world.turn) then
        StepResult(s2.(nextState := SpdyProxyCreateStream), result)
      else
        StepResult(s2.(nextState := HttpProxyConnect), result)
  }

  /** Wraps the nested socket in an HTTP/1.1 proxy client socket and starts the CONNECT handshake. */
  function HttpProxyConnectStep(c: JobConfig, s: JobState): (o: StepResult)
    requires StepPre(c, s, Ok) && s.nextState.HttpProxyConnect?
    ensures StepPost(c, s, o)
  {
    StepResult(
      s.(nextState := HttpProxyConnectComplete,
         timer := TunnelTimeout(c.platform),
         transportSocket := Some(TunnelSocket(HttpTunnel, None, None)),
         nestedConnectJob := None),
      c.env.result(HttpTunnelConnect, s.world.turn))
  }

  /** Posts an auth challenge; otherwise remaps the handshake result and hands out the tunnel on success. */
  function HttpProxyConnectCompleteStep(c: JobConfig, s: JobState, result: int): (o: StepResult)
    requires StepPre(c, s, result) && s.nextState.HttpProxyConnectComplete?
    ensures StepPost(c, s, o)
  {
    var s1 := s.(nextState := StateNone);
    if result == ErrProxyAuthRequested then
      StepResult(s1.(world := s.world.(queued := Some(DeliverAuthChallenge))), ErrIoPending)
    else
      var r := TunnelResult(result);
      if r == Ok then
        StepResult(s1.(world := s.world.(handedOut := Some(ProxyTunnelSocket(s.transportSocket.value.kind))),
                       transportSocket := None), r)
      else
        StepResult(s1, r)
  }

  /**
   * Reuses an HTTP/2 session to the proxy if one exists, otherwise creates one
   * from the nested socket; then requests a stream at the tunnel priority.
   */
  function SpdyProxyCreateStreamStep(c: JobConfig, s: JobState): (o: StepResult)
    requires StepPre(c, s, Ok) && s.nextState.SpdyProxyCreateStream?
    ensures StepPost(c, s, o)
  {
    var s1 := if SessionAvailable(c, s.world.turn) then s
              else s.(world := s.world.(spdySessionFromSocket := Some(s.nestedConnectJob.value.kind)));
    StepResult(
      s1.(timer := TunnelTimeout(c.platform),
          nestedConnectJob := None,
          nextState := SpdyProxyCreateStreamComplete,
          spdyStreamRequest := Some(StreamRequest(TunnelPriority))),
      c.env.result(SpdyStreamRequestStart, s.world.turn))
  }

  /** On a stream, wraps it in an HTTP/2 proxy client socket and starts the CONNECT handshake. */
  function SpdyProxyCreateStreamCompleteStep(c: JobConfig, s: JobState, result: int): (o: StepResult)
    requires StepPre(c, s, result) && s.nextState.SpdyProxyCreateStreamComplete?
    ensures StepPost(c, s, o)
  {
    var s1 := s.(nextState := StateNone, spdyStreamRequest := None);
    if result < 0 then StepResult(s1, SpdyStreamFailureResult(result))
    else
      StepResult(
        s1.(nextState := HttpProxyConnectComplete,
            transportSocket := Some(TunnelSocket(SpdyTunnel, Some(s.spdyStreamRequest.value.priority), None))),
        c.env.result(SpdyTunnelConnect, s.world.turn))
  }

  /** Requests a QUIC session to the proxy at the tunnel priority. */
  function QuicProxyCreateSessionStep(c: JobConfig, s: JobState): (o: StepResult)
    requires StepPre(c, s, Ok) && s.nextState.QuicProxyCreateSession?
    ensures StepPost(c, s, o)
  {
    StepResult(
      s.(nextState := QuicProxyCreateStream,
         timer := TunnelTimeout(c.platform),
         quicStreamRequest := Some(StreamRequest(TunnelPriority))),
      c.env.result(QuicSessionRequest, s.world.turn))
  }

  /** On a session, takes its handle and requests a stream on it. */
  function QuicProxyCreateStreamStep(c: JobConfig, s: JobState, result: int): (o: StepResult)
    requires StepPre(c, s, result) && s.nextState.QuicProxyCreateStream?
    ensures StepPost(c, s, o)
  {
    var s1 := s.(nextState := StateNone, quicStreamRequest := None);
    if result < 0 then StepResult(s1, result)
    else
      StepResult(s1.(nextState := QuicProxyCreateStreamComplete, quicSession := true),
                 c.env.result(QuicStreamRequest, s.world.turn))
  }

  /** On a stream, sets it to the tunnel priority, wraps it in a QUIC proxy client socket and connects. */
  function QuicProxyCreateStreamCompleteStep(c: JobConfig, s: JobState, result: int): (o: StepResult)
    requires StepPre(c, s, result) && s.nextState.QuicProxyCreateStreamComplete?
    ensures StepPost(c, s, o)
  {
    var s1 := s.(nextState := StateNone);
    if result < 0 then StepResult(s1, result)
    else
      StepResult(
        s1.(nextState := HttpProxyConnectComplete,
            quicSession := false,
            transportSocket := Some(TunnelSocket(QuicTunnel, Some(TunnelPriority), None))),
        c.env.result(QuicTunnelConnect, s.world.turn))
  }

  /** Restarts the tunnel timer and resends the handshake with credentials. */
  function RestartWithAuthStep(c: JobConfig, s: JobState): (o: StepResult)
    requires StepPre(c, s, Ok) && s.nextState.RestartWithAuth?
    ensures StepPost(c, s, o)
  {
    StepResult(
      s.(nextState := RestartWithAuthComplete, timer := TunnelTimeout(c.platform)),
      c.env.result(TunnelRestartWithAuth, s.world.turn))
  }

  /** Reconnects from scratch when the connection cannot be reused or (once) was closed. */
  function RestartWithAuthCompleteStep(c: JobConfig, s: JobState, result: int): (o: StepResult)
    requires StepPre(c, s, result) && s.nextState.RestartWithAuthComplete?
    ensures StepPost(c, s, o)
  {
    var d := RestartDecision(result, c.env.holds(TunnelIsConnected, s.world.turn), s.hasRestarted);
    var s1 := s.(hasRestarted := s.hasRestarted || d.closedRetry,
                 world := s.world.(
                   closedRetries := s.world.closedRetries + (if d.closedRetry then 1 else 0),
                   authResets := s.world.authResets + (if d.closedRetry && c.params.tunnel then 1 else 0)));
    if d.reconnect then StepResult(s1.(transportSocket := None, nextState := BeginConnect), Ok)
    else StepResult(s1.(nextState := HttpProxyConnectComplete), d.result)
  }

  /** One iteration of DoLoop: run the step of the next state. */
  function Step(c: JobConfig, s: JobState, rv: int): (o: StepResult)
    requires StepPre(c, s, rv)
    ensures StepPost(c, s, o)
  {
    match s.nextState
    case BeginConnect => BeginConnectStep(c, s)
    case TransportConnect => TransportConnectStep(c, s)
    case TransportConnectComplete => TransportConnectCompleteStep(c, s, rv)
    case HttpProxyConnect => HttpProxyConnectStep(c, s)
    case HttpProxyConnectComplete => HttpProxyConnectCompleteStep(c, s, rv)
    case SpdyProxyCreateStream => SpdyProxyCreateStreamStep(c, s)
    case SpdyProxyCreateStreamComplete => SpdyProxyCreateStreamCompleteStep(c, s, rv)
    case QuicProxyCreateSession => QuicProxyCreateSessionStep(c, s)
    case QuicProxyCreateStream => QuicProxyCreateStreamStep(c, s, rv)
    case QuicProxyCreateStreamComplete => QuicProxyCreateStreamCompleteStep(c, s, rv)
    case RestartWithAuth => RestartWithAuthStep(c, s)
    case RestartWithAuthComplete => RestartWithAuthCompleteStep(c, s, rv)
  }

  /** What a whole run of the loop guarantees. */
  predicate RunPost(c: JobConfig, s: JobState, o: StepResult) {
    Inv(c, o.st) &&
    (o.rv == ErrIoPending || o.st.nextState.StateNone?) &&
    PendingIsResumable(o) &&
    SuccessHandsOutSocket(c, o) &&
    o.st.world.notified == s.world.notified && o.st.world.turn == s.world.turn && !o.st.world.awaitingCredentials &&
    (s.hasRestarted ==> o.st.hasRestarted) &&
    (s.hasEstablishedConnection ==> o.st.hasEstablishedConnection)
  }

  /**
   * The DoLoop trampoline: run steps until one returns ERR_IO_PENDING or
   * leaves no next state. It terminates, never calls the delegate, and stops
   * only where an operation will complete later, an auth challenge is posted,
   * or the job is done.
   */
  function Run(c: JobConfig, s: JobState, rv: int): (o: StepResult)
    requires StepPre(c, s, rv)
    ensures RunPost(c, s, o)
    decreases Rank(s.nextState)
  {
    var o1 := Step(c, s, rv);
    if o1.rv == ErrIoPending || o1.st.nextState.StateNone? then o1
    else
      SuccessorsRankLower(s.nextState, o1.st.nextState);
      Run(c, o1.st, o1.rv)
  }

  /** What entering DoLoop requires. */
  predicate LoopPre(c: JobConfig, s: JobState, rv: int) {
    c.Valid() && Inv(c, s) && Resumable(s.nextState) &&
    rv != ErrIoPending && (StartsAfterOk(s.nextState) ==> rv == Ok) &&
    s.world.queued.None? && !s.world.awaitingCredentials
  }

  /** DoLoop: a new turn begins, then the steps run. */
  function Loop(c: JobConfig, s: JobState, rv: int): (o: StepResult)
    requires LoopPre(c, s, rv)
    ensures RunPost(c, s.(world := s.world.(turn := s.world.turn + 1)), o)
  {
    Run(c, s.(world := s.world.(turn := s.world.turn + 1)), rv)
  }

  // ---------------------------------------------------------------------------
  // Entry points and queries

  /** The job is done: nothing is next, nothing is posted, no restart callback is outstanding. */
  predicate Finished(s: JobState) {
    s.nextState.StateNone? && s.world.queued.None? && !s.world.awaitingCredentials
  }

  /** ConnectInternal: start at BeginConnect and run the loop. */
  function ConnectSpec(c: JobConfig, s: JobState): (o: StepResult)
    requires c.Valid() && Inv(c, s) && s.nextState.StateNone? && s.world.turn == 0
    requires s.world.queued.None? && !s.world.awaitingCredentials
    ensures RunPost(c, s.(world := s.world.(turn := 1)), o)
  {
    Loop(c, s.(nextState := BeginConnect), Ok)
  }

  /** OnIOComplete: run the loop with the result and notify the delegate unless still pending. */
  function OnIOCompleteSpec(c: JobConfig, s: JobState, result: int): (t: JobState)
    requires LoopPre(c, s, result) && !s.nextState.BeginConnect?
    ensures Inv(c, t) && t.world.turn == s.world.turn + 1
    ensures |s.world.notified| <= |t.world.notified| <= |s.world.notified| + 1 && t.world.notified[..|s.world.notified|] == s.world.notified
    // the delegate hears of completion only once the job is finished
    ensures |t.world.notified| > |s.world.notified| ==> t.world.notified[|s.world.notified|].Completed? && Finished(t)
  {
    var o := Loop(c, s, result);
    if o.rv != ErrIoPending then o.st.(world := o.st.world.(notified := o.st.world.notified + [Completed(o.rv)])) else o.st
  }

  /** OnAuthChallenge: stop the timer and hand the challenge and a restart callback to the delegate. */
  function OnAuthChallengeSpec(c: JobConfig, s: JobState): (t: JobState)
    requires Inv(c, s) && s.world.queued == Some(DeliverAuthChallenge)
    ensures Inv(c, t) && t.world.awaitingCredentials && t.timer == 0 && t.world.queued.None?
    ensures t.world.notified == s.world.notified + [ProxyAuthNeeded]
  {
    s.(timer := 0,
       world := s.world.(queued := None, notified := s.world.notified + [ProxyAuthNeeded], awaitingCredentials := true))
  }

  /** RestartWithAuthCredentials: never restarts inline; posts the resumption instead. */
  function RestartWithAuthCredentialsSpec(c: JobConfig, s: JobState): (t: JobState)
    requires Inv(c, s) && s.world.awaitingCredentials
    ensures Inv(c, t) && t.nextState.RestartWithAuth? && t.world.queued == Some(ResumeAfterAuth)
    ensures t.world.notified == s.world.notified && !t.world.awaitingCredentials
  {
    s.(nextState := RestartWithAuth, world := s.world.(awaitingCredentials := false, queued := Some(ResumeAfterAuth)))
  }

  /** Runs the posted continuation. */
  function RunQueuedSpec(c: JobConfig, s: JobState): (t: JobState)
    requires c.Valid() && Inv(c, s) && s.world.queued.Some?
    ensures Inv(c, t)
  {
    match s.world.queued.value
    case DeliverAuthChallenge => OnAuthChallengeSpec(c, s)
    case ResumeAfterAuth => OnIOCompleteSpec(c, s.(world := s.world.(queued := None)), Ok)
  }

  /**
   * ChangePriority: the new priority reaches the nested job and is passed to
   * the proxy client socket; the HTTP/2 and QUIC stream requests keep the
   * tunnel priority. What the socket does with it is not modelled.
   */
  function ChangePrioritySpec(c: JobConfig, s: JobState, p: Priority): (t: JobState)
    requires Inv(c, s)
    ensures Inv(c, t) && t.priority == p
    ensures t.spdyStreamRequest == s.spdyStreamRequest && t.quicStreamRequest == s.quicStreamRequest
    ensures s.nestedConnectJob.Some? ==> t.nestedConnectJob == Some(NestedJob(s.nestedConnectJob.value.kind, p))
    ensures s.transportSocket.Some? ==>
              (t.transportSocket.Some? && t.transportSocket.value.requested == Some(p) &&
               t.transportSocket.value.streamPriority == s.transportSocket.value.streamPriority)
  {
    s.(priority := p,
       nestedConnectJob := if s.nestedConnectJob.Some? then Some(s.nestedConnectJob.value.(priority := p)) else None,
       transportSocket := if s.transportSocket.Some? then Some(s.transportSocket.value.(requested := Some(p))) else None)
  }

  /** GetLoadState: the nested job's state while it runs, "establishing proxy tunnel" in the tunnel phase. */
  function GetLoadState(c: JobConfig, s: JobState): (l: LoadState)
    requires Inv(c, s)
    ensures s.nextState.TransportConnectComplete? ==> l == c.env.nestedLoadState(s.world.turn)
    ensures s.nextState.StateNone? || s.nextState.BeginConnect? || s.nextState.TransportConnect? ==> l == LoadIdle
    ensures (!s.nextState.StateNone? && !s.nextState.BeginConnect? && !s.nextState.TransportConnect? &&
             !s.nextState.TransportConnectComplete?) ==> l == LoadEstablishingProxyTunnel
  {
    match s.nextState
    case TransportConnectComplete => c.env.nestedLoadState(s.world.turn)
    case HttpProxyConnect => LoadEstablishingProxyTunnel
    case HttpProxyConnectComplete => LoadEstablishingProxyTunnel
    case SpdyProxyCreateStream => LoadEstablishingProxyTunnel
    case SpdyProxyCreateStreamComplete => LoadEstablishingProxyTunnel
    case QuicProxyCreateSession => LoadEstablishingProxyTunnel
    case QuicProxyCreateStream => LoadEstablishingProxyTunnel
    case QuicProxyCreateStreamComplete => LoadEstablishingProxyTunnel
    case RestartWithAuth => LoadEstablishingProxyTunnel
    case RestartWithAuthComplete => LoadEstablishingProxyTunnel
    case TransportConnect => LoadIdle
    case BeginConnect => LoadIdle
    case StateNone => LoadIdle
  }

  /** HasEstablishedConnection: the job's own flag, or else the running nested job's answer. */
  function HasEstablishedConnection(c: JobConfig, s: JobState): (b: bool)
    ensures s.hasEstablishedConnection ==> b
    ensures !s.hasEstablishedConnection && s.nestedConnectJob.None? ==> !b
    ensures !s.hasEstablishedConnection && s.nestedConnectJob.Some? ==> b == c.env.holds(NestedEstablished, s.world.turn)
  {
    if s.hasEstablishedConnection then true
    else if s.nestedConnectJob.Some? then c.env.holds(NestedEstablished, s.world.turn)
    else false
  }

  /** IsSSLError: a client certificate was requested by the proxy. */
  function IsSslError(s: JobState): (b: bool)
    ensures b <==> s.sslCertRequestInfo.Some?
  {
    s.sslCertRequestInfo.Some?
  }
}
