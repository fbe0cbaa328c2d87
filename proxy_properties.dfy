/**
 * Properties of the proxy connect state machine: the branches each step
 * takes, the error remapping, the single closed-connection retry, and the
 * lifetime guarantees of a job driven by any sequence of events.
 */
module ProxyConnectProperties {
  import opened Wrappers
  import opened NetErrors
  import opened ProxyParams
  import opened ProxyTimeouts
  import opened ProxyResults
  import opened ProxyConnectMachine

  // ---------------------------------------------------------------------------
  // BeginConnect and TransportConnect

  /**
   * BeginConnect sets the transport-phase timer and always returns OK; QUIC
   * goes to session creation and counts as an established connection at once,
   * HTTP and HTTPS go to the transport connect.
   */
  lemma BeginConnectBranches(c: JobConfig, s: JobState)
    requires StepPre(c, s, Ok) && s.nextState.BeginConnect?
    ensures Step(c, s, Ok).rv == Ok
    ensures Step(c, s, Ok).st.timer == TransportTimeout(c, s.world.turn) && Step(c, s, Ok).st.world.rttReadAt == s.world.turn
    ensures c.params.isQuic ==> Step(c, s, Ok).st.nextState.QuicProxyCreateSession? &&
                                HasEstablishedConnection(c, Step(c, s, Ok).st)
    ensures !c.params.isQuic ==> Step(c, s, Ok).st.nextState.TransportConnect? &&
                                 Step(c, s, Ok).st.hasEstablishedConnection == s.hasEstablishedConnection
  {
  }

  /**
   * With an HTTPS proxy, a tunnel and an HTTP/2 session to the proxy already
   * in the pool, TransportConnect starts no nested job and goes straight to
   * stream creation.
   */
  lemma ExistingSessionSkipsTransport(c: JobConfig, s: JobState)
    requires StepPre(c, s, Ok) && s.nextState.TransportConnect?
    requires GetProxyServerScheme(c.params) == SchemeHttps && c.params.tunnel && SessionAvailable(c, s.world.turn)
    ensures Step(c, s, Ok) == StepResult(s.(nextState := SpdyProxyCreateStream), Ok)
  {
  }

  /** Below TransportConnect in the ranking, no step of a run starts a nested job. */
  lemma {:induction false} NoNestedJobAfterTransportConnect(c: JobConfig, s: JobState, rv: int)
    requires StepPre(c, s, rv) && Rank(s.nextState) < Rank(TransportConnect)
    ensures Run(c, s, rv).st.world.nestedJobsStarted == s.world.nestedJobsStarted
    decreases Rank(s.nextState)
  {
    var o1 := Step(c, s, rv);
    SuccessorsRankLower(s.nextState, o1.st.nextState);
    LateStepStartsNoNestedJob(c, s, rv);
    if !(o1.rv == ErrIoPending || o1.st.nextState.StateNone?) {
      NoNestedJobAfterTransportConnect(c, o1.st, o1.rv);
    }
  }

  lemma LateStepStartsNoNestedJob(c: JobConfig, s: JobState, rv: int)
    requires StepPre(c, s, rv) && Rank(s.nextState) < Rank(TransportConnect)
    ensures Step(c, s, rv).st.world.nestedJobsStarted == s.world.nestedJobsStarted
  {
    match s.nextState
    case HttpProxyConnect =>
    case HttpProxyConnectComplete =>
    case SpdyProxyCreateStream =>
    case SpdyProxyCreateStreamComplete =>
    case QuicProxyCreateSession =>
    case QuicProxyCreateStream =>
    case QuicProxyCreateStreamComplete =>
    case TransportConnectComplete =>
  }

  /** Below HTTP/2 stream creation in the ranking, no step of a run gives a socket to the session pool. */
  lemma {:induction false} NoSessionAfterStreamCreation(c: JobConfig, s: JobState, rv: int)
    requires StepPre(c, s, rv) && Rank(s.nextState) < Rank(SpdyProxyCreateStream)
    ensures Run(c, s, rv).st.world.spdySessionFromSocket == s.world.spdySessionFromSocket
    decreases Rank(s.nextState)
  {
    var o1 := Step(c, s, rv);
    SuccessorsRankLower(s.nextState, o1.st.nextState);
    LateStepKeepsSession(c, s, rv);
    if !(o1.rv == ErrIoPending || o1.st.nextState.StateNone?) {
      NoSessionAfterStreamCreation(c, o1.st, o1.rv);
    }
  }

  lemma LateStepKeepsSession(c: JobConfig, s: JobState, rv: int)
    requires StepPre(c, s, rv) && Rank(s.nextState) < Rank(SpdyProxyCreateStream)
    ensures Step(c, s, rv).st.world.spdySessionFromSocket == s.world.spdySessionFromSocket
  {
    match s.nextState
    case HttpProxyConnect =>
    case HttpProxyConnectComplete =>
    case SpdyProxyCreateStreamComplete =>
    case QuicProxyCreateStreamComplete =>
  }

  /**
   * A job that begins while an HTTP/2 session to its HTTPS proxy exists makes
   * no new transport connection: no nested job is started and no socket is
   * given to the session pool during that run.
   */
  lemma {:induction false} ExistingSessionMeansNoNewConnection(c: JobConfig, s: JobState)
    requires StepPre(c, s, Ok) && s.nextState.BeginConnect?
    requires GetProxyServerScheme(c.params) == SchemeHttps && c.params.tunnel && SessionAvailable(c, s.world.turn)
    ensures Run(c, s, Ok).st.world.nestedJobsStarted == s.world.nestedJobsStarted
    ensures Run(c, s, Ok).st.world.spdySessionFromSocket == s.world.spdySessionFromSocket
  {
    var o1 := Step(c, s, Ok);
    assert o1.st.nextState.TransportConnect?;
    var o2 := Step(c, o1.st, Ok);
    assert o2 == StepResult(o1.st.(nextState := SpdyProxyCreateStream), Ok);
    var o3 := Step(c, o2.st, Ok);
    assert o3.st.world.nestedJobsStarted == s.world.nestedJobsStarted && o3.st.world.spdySessionFromSocket == s.world.spdySessionFromSocket;
    assert Run(c, s, Ok) == Run(c, o1.st, Ok) == Run(c, o2.st, Ok);
    if !(o3.rv == ErrIoPending || o3.st.nextState.StateNone?) {
      assert Run(c, o2.st, Ok) == Run(c, o3.st, o3.rv);
      NoNestedJobAfterTransportConnect(c, o3.st, o3.rv);
      NoSessionAfterStreamCreation(c, o3.st, o3.rv);
    }
  }

  /** A QUIC proxy never starts a nested connect job. */
  lemma {:induction false} QuicNeverStartsNestedJob(c: JobConfig, s: JobState)
    requires StepPre(c, s, Ok) && s.nextState.BeginConnect? && c.params.isQuic
    ensures Run(c, s, Ok).st.world.nestedJobsStarted == s.world.nestedJobsStarted
    ensures Run(c, s, Ok).st.hasEstablishedConnection
  {
    var o1 := Step(c, s, Ok);
    assert o1.st.nextState.QuicProxyCreateSession? && o1.st.world.nestedJobsStarted == s.world.nestedJobsStarted;
    NoNestedJobAfterTransportConnect(c, o1.st, o1.rv);
  }

  // ---------------------------------------------------------------------------
  // TransportConnectComplete

  /**
   * A failed transport connect ends the job with a proxy-specific error; a
   * client-certificate request is recorded as coming from the proxy.
   */
  lemma TransportFailureIsRemapped(c: JobConfig, s: JobState, result: int)
    requires StepPre(c, s, result) && s.nextState.TransportConnectComplete? && result != Ok
    ensures var o := Step(c, s, result);
      o.st.nextState.StateNone? && o.rv == TransportFailureResult(result) &&
      (IsCertificateError(result) ==> o.rv == ErrProxyCertificateInvalid) &&
      (result == ErrSslClientAuthCertNeeded ==>
         o.rv == result && o.st.sslCertRequestInfo == Some(CertRequestInfo(isProxy := true))) &&
      (!IsCertificateError(result) && result != ErrSslClientAuthCertNeeded ==> o.rv == ErrProxyConnectionFailed) &&
      o.st.world.handedOut == s.world.handedOut && o.st.transportSocket == s.transportSocket
  {
  }

  /**
   * A successful transport connect marks the connection as established. Without
   * a tunnel the nested socket is handed out and the job ends; with one the
   * negotiated protocol picks HTTP/2 stream creation or the HTTP/1.1 CONNECT.
   */
  lemma TransportSuccessBranches(c: JobConfig, s: JobState)
    requires StepPre(c, s, Ok) && s.nextState.TransportConnectComplete?
    ensures var o := Step(c, s, Ok);
      o.rv == Ok && o.st.hasEstablishedConnection &&
      (!c.params.tunnel ==>
         o.st.nextState.StateNone? && o.st.world.handedOut == Some(PlainProxySocket(s.nestedConnectJob.value.kind))) &&
      (c.params.tunnel && c.env.holds(NegotiatedHttp2, s.world.turn) ==> o.st.nextState.SpdyProxyCreateStream?) &&
      (c.params.tunnel && !c.env.holds(NegotiatedHttp2, s.world.turn) ==> o.st.nextState.HttpProxyConnect?)
  {
  }

  /**
   * IsSSLError's field is written by one step only: a transport connect that
   * failed because the proxy asked for a client certificate records a
   * request marked as coming from the proxy; every other step leaves it.
   */
  lemma CertRequestOnlyFromProxyClientAuth(c: JobConfig, s: JobState, rv: int)
    requires StepPre(c, s, rv)
    ensures Step(c, s, rv).st.sslCertRequestInfo ==
            (if s.nextState.TransportConnectComplete? && rv == ErrSslClientAuthCertNeeded
             then Some(CertRequestInfo(isProxy := true)) else s.sslCertRequestInfo)
  {
    if s.nextState.TransportConnectComplete? {
      CertRequestOnTransportFailure(c, s, rv);
    } else if Rank(s.nextState) < Rank(TransportConnectComplete) {
      LateStepKeepsCertRequest(c, s, rv);
    }
  }

  lemma CertRequestOnTransportFailure(c: JobConfig, s: JobState, rv: int)
    requires StepPre(c, s, rv) && s.nextState.TransportConnectComplete?
    ensures Step(c, s, rv).st.sslCertRequestInfo ==
            (if rv == ErrSslClientAuthCertNeeded then Some(CertRequestInfo(isProxy := true)) else s.sslCertRequestInfo)
  {
  }

  lemma LateStepKeepsCertRequest(c: JobConfig, s: JobState, rv: int)
    requires StepPre(c, s, rv) && Rank(s.nextState) < Rank(TransportConnectComplete)
    ensures Step(c, s, rv).st.sslCertRequestInfo == s.sslCertRequestInfo
  {
    match s.nextState
    case HttpProxyConnect =>
    case HttpProxyConnectComplete =>
    case SpdyProxyCreateStream =>
    case SpdyProxyCreateStreamComplete =>
    case QuicProxyCreateStream =>
    case QuicProxyCreateStreamComplete =>
  }

  /**
   * A run of the loop that starts with no certificate request ends with
   * IsSSLError true only when it ended on the proxy's client-certificate
   * request: the job is then done and reports ERR_SSL_CLIENT_AUTH_CERT_NEEDED.
   */
  lemma {:induction false} CertRequestEndsRun(c: JobConfig, s: JobState, rv: int)
    requires StepPre(c, s, rv) && !IsSslError(s)
    ensures var o := Run(c, s, rv);
      IsSslError(o.st) ==>
        o.rv == ErrSslClientAuthCertNeeded && o.st.nextState.StateNone? &&
        o.st.sslCertRequestInfo == Some(CertRequestInfo(isProxy := true))
    decreases Rank(s.nextState)
  {
    var o1 := Step(c, s, rv);
    CertRequestOnlyFromProxyClientAuth(c, s, rv);
    if s.nextState.TransportConnectComplete? && rv == ErrSslClientAuthCertNeeded {
      assert o1.st.nextState.StateNone? && o1.rv == ErrSslClientAuthCertNeeded;
    } else if !(o1.rv == ErrIoPending || o1.st.nextState.StateNone?) {
      SuccessorsRankLower(s.nextState, o1.st.nextState);
      CertRequestEndsRun(c, o1.st, o1.rv);
    }
  }

  // ---------------------------------------------------------------------------
  // Timers

  /**
   * BeginConnect starts the adaptive transport-phase timer; HttpProxyConnect,
   * SpdyProxyCreateStream, QuicProxyCreateSession and RestartWithAuth each
   * restart it with the fixed tunnel timeout; no other step touches it.
   */
  lemma StepTimer(c: JobConfig, s: JobState, rv: int)
    requires StepPre(c, s, rv)
    ensures var t := Step(c, s, rv).st.timer;
      (s.nextState.BeginConnect? ==> t == TransportTimeout(c, s.world.turn)) &&
      (TunnelPhaseStart(s.nextState) ==> t == TunnelTimeout(c.platform)) &&
      (!s.nextState.BeginConnect? && !TunnelPhaseStart(s.nextState) ==> t == s.timer)
  {
    if TunnelPhaseStart(s.nextState) {
      TunnelPhaseStartResetsTimer(c, s);
    } else if !s.nextState.BeginConnect? {
      OtherStepKeepsTimer(c, s, rv);
    }
  }

  /** The steps that begin setting up the tunnel, or resend it with credentials. */
  predicate TunnelPhaseStart(s: State) {
    s.HttpProxyConnect? || s.SpdyProxyCreateStream? || s.QuicProxyCreateSession? || s.RestartWithAuth?
  }

  lemma TunnelPhaseStartResetsTimer(c: JobConfig, s: JobState)
    requires StepPre(c, s, Ok) && TunnelPhaseStart(s.nextState)
    ensures Step(c, s, Ok).st.timer == TunnelTimeout(c.platform)
  {
    match s.nextState
    case HttpProxyConnect =>
    case SpdyProxyCreateStream =>
    case QuicProxyCreateSession =>
    case RestartWithAuth =>
  }

  lemma OtherStepKeepsTimer(c: JobConfig, s: JobState, rv: int)
    requires StepPre(c, s, rv) && !s.nextState.BeginConnect? && !TunnelPhaseStart(s.nextState)
    ensures Step(c, s, rv).st.timer == s.timer
  {
    match s.nextState
    case TransportConnect =>
    case TransportConnectComplete =>
    case HttpProxyConnectComplete =>
    case SpdyProxyCreateStreamComplete =>
    case QuicProxyCreateStream =>
    case QuicProxyCreateStreamComplete =>
    case RestartWithAuthComplete =>
  }

  /**
   * Whenever the loop waits, the timer fits the phase: the adaptive timeout
   * while the nested transport job runs, the fixed tunnel timeout while the
   * tunnel is being set up. (While an auth challenge is outstanding the timer
   * is stopped, as OnAuthChallengeSpec states.)
   */
  lemma PendingTimerFitsPhase(c: JobConfig, s: JobState, rv: int)
    requires LoopPre(c, s, rv)
    ensures var o := Loop(c, s, rv);
      (o.rv == ErrIoPending && o.st.nextState.TransportConnectComplete? ==>
         o.st.timer == TransportTimeout(c, o.st.world.rttReadAt)) &&
      (o.rv == ErrIoPending && TunnelWait(o.st.nextState) ==> o.st.timer == TunnelTimeout(c.platform))
  {
  }

  // ---------------------------------------------------------------------------
  // Tunnel set-up steps

  /**
   * HttpProxyConnect restarts the timer with the tunnel timeout, releases the
   * nested job and wraps its socket in an HTTP/1.1 proxy client socket, whose
   * Connect result the step returns.
   */
  lemma HttpProxyConnectWrapsNestedSocket(c: JobConfig, s: JobState)
    requires StepPre(c, s, Ok) && s.nextState.HttpProxyConnect?
    ensures Step(c, s, Ok) ==
      StepResult(s.(nextState := HttpProxyConnectComplete, timer := TunnelTimeout(c.platform),
                    transportSocket := Some(TunnelSocket(HttpTunnel, None, None)), nestedConnectJob := None),
                 c.env.result(HttpTunnelConnect, s.world.turn))
    ensures Step(c, s, Ok).st.nestedConnectJob.None? && Step(c, s, Ok).st.transportSocket.value.kind.HttpTunnel?
  {
  }

  /**
   * A failed HTTP/2 stream request ends the job: the request is released and
   * its error reported, a rejected client certificate as "proxy connection
   * failed"; no proxy socket is created.
   */
  lemma SpdyStreamFailureEndsJob(c: JobConfig, s: JobState, result: int)
    requires StepPre(c, s, result) && s.nextState.SpdyProxyCreateStreamComplete? && result < 0
    ensures var o := Step(c, s, result);
      o.st.nextState.StateNone? && o.st.spdyStreamRequest.None? && o.st.transportSocket == s.transportSocket &&
      o.rv == SpdyStreamFailureResult(result) &&
      (result == ErrBadSslClientAuthCert ==> o.rv == ErrProxyConnectionFailed) &&
      (result != ErrBadSslClientAuthCert ==> o.rv == result)
  {
  }

  /** A failed QUIC session request ends the job with the factory's own error and releases the request. */
  lemma QuicSessionFailureEndsJob(c: JobConfig, s: JobState, result: int)
    requires StepPre(c, s, result) && s.nextState.QuicProxyCreateStream? && result < 0
    ensures var o := Step(c, s, result);
      o.st.nextState.StateNone? && o.rv == result && o.st.quicStreamRequest.None? && o.st.quicSession == s.quicSession &&
      o.st.transportSocket == s.transportSocket
  {
  }

  /** A failed QUIC stream request ends the job with the session's own error; no proxy socket is created. */
  lemma QuicStreamFailureEndsJob(c: JobConfig, s: JobState, result: int)
    requires StepPre(c, s, result) && s.nextState.QuicProxyCreateStreamComplete? && result < 0
    ensures var o := Step(c, s, result);
      o.st.nextState.StateNone? && o.rv == result && o.st.transportSocket == s.transportSocket
  {
  }

  // ---------------------------------------------------------------------------
  // Tunnel completion and restart with credentials

  /**
   * An auth challenge is never delivered inline: the step returns
   * ERR_IO_PENDING, posts the challenge and leaves the delegate untouched.
   * "HTTP/1.1 required" and a rejected client certificate are remapped.
   */
  lemma TunnelCompletionBranches(c: JobConfig, s: JobState, result: int)
    requires StepPre(c, s, result) && s.nextState.HttpProxyConnectComplete?
    ensures var o := Step(c, s, result);
      o.st.nextState.StateNone? && o.st.world.notified == s.world.notified &&
      (result == ErrProxyAuthRequested ==>
         o.rv == ErrIoPending && o.st.world.queued == Some(DeliverAuthChallenge) && o.st.transportSocket == s.transportSocket) &&
      (result == ErrHttp11Required ==> o.rv == ErrProxyHttp11Required) &&
      (result == ErrBadSslClientAuthCert ==> o.rv == ErrProxyConnectionFailed) &&
      (result == Ok ==> o.rv == Ok && o.st.world.handedOut == Some(ProxyTunnelSocket(s.transportSocket.value.kind)))
  {
  }

  /**
   * After a restart with credentials: "unable to reuse the connection"
   * reconnects from BeginConnect without touching the auth controller; a
   * closed connection reconnects and resets the auth controller only on the
   * first occurrence; anything else is treated as the tunnel's result.
   */
  lemma RestartCompletionBranches(c: JobConfig, s: JobState, result: int)
    requires StepPre(c, s, result) && s.nextState.RestartWithAuthComplete?
    ensures var o := Step(c, s, result);
      var connected := c.env.holds(TunnelIsConnected, s.world.turn);
      ((result == ErrUnableToReuseConnectionForProxyAuth || (result == Ok && !connected)) ==>
         o.st.nextState.BeginConnect? && o.rv == Ok && o.st.world.authResets == s.world.authResets &&
         o.st.transportSocket.None?) &&
      (IsClosedConnectionError(result) && !s.hasRestarted ==>
         o.st.nextState.BeginConnect? && o.rv == Ok && o.st.hasRestarted &&
         o.st.world.authResets == s.world.authResets + (if c.params.tunnel then 1 else 0)) &&
      (IsClosedConnectionError(result) && s.hasRestarted ==>
         o.st.nextState.HttpProxyConnectComplete? && o.rv == result && o.st.world.authResets == s.world.authResets) &&
      (result != ErrUnableToReuseConnectionForProxyAuth && !IsClosedConnectionError(result) &&
       (result == Ok ==> connected) ==>
         o.st.nextState.HttpProxyConnectComplete? && o.rv == result && o.st.hasRestarted == s.hasRestarted)
  {
  }

  /** While the loop waits on anything but the nested job, the job reports "establishing proxy tunnel". */
  lemma LoadStateWhilePending(c: JobConfig, s: JobState, rv: int)
    requires LoopPre(c, s, rv)
    ensures var o := Loop(c, s, rv);
      o.rv == ErrIoPending && !o.st.nextState.StateNone? && !o.st.nextState.TransportConnectComplete? ==>
        GetLoadState(c, o.st) == LoadEstablishingProxyTunnel
  {
  }

  // ---------------------------------------------------------------------------
  // The whole life of a job

  /** Things that can happen to a job from outside: calls by its owner, completions, posted tasks. */
  datatype Event =
    | CallConnect
    | IoCompleted(result: int)
    | RunPostedTask
    | SupplyCredentials
    | SetPriority(p: Priority)

  /** The job after an event, or None when the event cannot happen in that state. */
  function Apply(c: JobConfig, s: JobState, e: Event): (r: Option<JobState>)
    requires c.Valid() && Inv(c, s)
    ensures r.Some? ==> Inv(c, r.value)
  {
    match e
    case CallConnect =>
      if s.nextState.StateNone? && s.world.turn == 0 && s.world.queued.None? && !s.world.awaitingCredentials
      then Some(ConnectSpec(c, s).st) else None
    case IoCompleted(result) =>
      if AwaitsCompletion(s.nextState) && result != ErrIoPending && s.world.queued.None? && !s.world.awaitingCredentials
      then Some(OnIOCompleteSpec(c, s, result)) else None
    case RunPostedTask =>
      if s.world.queued.Some? then Some(RunQueuedSpec(c, s)) else None
    case SupplyCredentials =>
      if s.world.awaitingCredentials then Some(RestartWithAuthCredentialsSpec(c, s)) else None
    case SetPriority(p) =>
      Some(ChangePrioritySpec(c, s, p))
  }

  function Replay(c: JobConfig, s: JobState, events: seq<Event>): (r: Option<JobState>)
    requires c.Valid() && Inv(c, s)
    ensures r.Some? ==> Inv(c, r.value)
    decreases events
  {
    if events == [] then Some(s)
    else
      var t := Apply(c, s, events[0]);
      if t.None? then None else Replay(c, t.value, events[1..])
  }

  /** How many completion notifications a delegate received. */
  function Completions(ns: seq<Notification>): nat {
    if ns == [] then 0
    else Completions(ns[..|ns| - 1]) + (if ns[|ns| - 1].Completed? then 1 else 0)
  }

  lemma CompletionsAppend(ns: seq<Notification>, n: Notification)
    ensures Completions(ns + [n]) == Completions(ns) + (if n.Completed? then 1 else 0)
  {
    assert (ns + [n])[..|ns|] == ns;
  }

  /** What holds over a job's whole life. */
  predicate Lifecycle(c: JobConfig, s: JobState) {
    Inv(c, s) && Completions(s.world.notified) <= 1 &&
    (Completions(s.world.notified) == 1 ==> Finished(s) && s.world.turn > 0 && s.world.notified[|s.world.notified| - 1].Completed?)
  }

  lemma {:induction false} ApplyKeepsLifecycle(c: JobConfig, s: JobState, e: Event)
    requires c.Valid() && Lifecycle(c, s) && Apply(c, s, e).Some?
    ensures Lifecycle(c, Apply(c, s, e).value)
  {
    match e
    case CallConnect => ConnectKeepsLifecycle(c, s);
    case IoCompleted(result) => OnIOCompleteKeepsLifecycle(c, s, result);
    case RunPostedTask => RunPostedTaskKeepsLifecycle(c, s);
    case SupplyCredentials => CredentialsKeepLifecycle(c, s);
    case SetPriority(p) => PriorityKeepsLifecycle(c, s, p);
  }

  /** Connect on a fresh job reports nothing itself. */
  lemma ConnectKeepsLifecycle(c: JobConfig, s: JobState)
    requires c.Valid() && Lifecycle(c, s)
    requires s.nextState.StateNone? && s.world.turn == 0 && s.world.queued.None? && !s.world.awaitingCredentials
    ensures Lifecycle(c, ConnectSpec(c, s).st)
  {
    assert ConnectSpec(c, s).st.world.notified == s.world.notified;
  }

  /** A posted task either reports the auth challenge or resumes the loop. */
  lemma RunPostedTaskKeepsLifecycle(c: JobConfig, s: JobState)
    requires c.Valid() && Lifecycle(c, s) && s.world.queued.Some?
    ensures Lifecycle(c, RunQueuedSpec(c, s))
  {
    if s.world.queued.value.DeliverAuthChallenge? {
      CompletionsAppend(s.world.notified, ProxyAuthNeeded);
    } else {
      OnIOCompleteKeepsLifecycle(c, s.(world := s.world.(queued := None)), Ok);
    }
  }

  /** Supplying credentials only queues the restart. */
  lemma CredentialsKeepLifecycle(c: JobConfig, s: JobState)
    requires c.Valid() && Lifecycle(c, s) && s.world.awaitingCredentials
    ensures Lifecycle(c, RestartWithAuthCredentialsSpec(c, s))
  {
  }

  /** A priority change reports nothing. */
  lemma PriorityKeepsLifecycle(c: JobConfig, s: JobState, p: Priority)
    requires c.Valid() && Lifecycle(c, s)
    ensures Lifecycle(c, ChangePrioritySpec(c, s, p))
  {
  }

  lemma OnIOCompleteKeepsLifecycle(c: JobConfig, s: JobState, result: int)
    requires LoopPre(c, s, result) && !s.nextState.BeginConnect? && Completions(s.world.notified) == 0
    ensures Lifecycle(c, OnIOCompleteSpec(c, s, result))
  {
    var t := OnIOCompleteSpec(c, s, result);
    if |t.world.notified| > |s.world.notified| {
      assert t.world.notified == s.world.notified + [t.world.notified[|s.world.notified|]];
      CompletionsAppend(s.world.notified, t.world.notified[|s.world.notified|]);
    } else {
      assert t.world.notified == s.world.notified;
    }
  }

  /**
   * Whatever happens to a job, from construction on: the closed-connection
   * retry is taken at most once, the auth controller is reset at most once,
   * the delegate hears of completion at most once and nothing after it, and
   * proxy stream requests keep the tunnel priority.
   */
  lemma {:induction false} LifecycleHolds(c: JobConfig, s: JobState, events: seq<Event>)
    requires c.Valid() && Lifecycle(c, s) && Replay(c, s, events).Some?
    ensures Lifecycle(c, Replay(c, s, events).value)
    ensures var t := Replay(c, s, events).value;
      t.world.closedRetries <= 1 && t.world.authResets <= 1 && Completions(t.world.notified) <= 1 &&
      (t.spdyStreamRequest.Some? ==> t.spdyStreamRequest.value.priority == TunnelPriority) &&
      (t.quicStreamRequest.Some? ==> t.quicStreamRequest.value.priority == TunnelPriority)
    decreases events
  {
    if events != [] {
      ApplyKeepsLifecycle(c, s, events[0]);
      LifecycleHolds(c, Apply(c, s, events[0]).value, events[1..]);
    }
  }

  lemma InitialLifecycle(c: JobConfig, p: Priority)
    ensures Lifecycle(c, Initial(p))
  {
  }
}
