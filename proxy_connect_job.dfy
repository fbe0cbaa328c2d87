/**
 * HttpProxyConnectJob as an object: its fields are updated in place by the
 * Do* steps and the DoLoop trampoline, exactly as the pure machine in
 * ProxyConnectMachine prescribes. Every method is proved to leave the object
 * in the state the corresponding specification function computes.
 */
module ProxyConnectJob {
  import opened Wrappers
  import opened NetErrors
  import opened ProxyParams
  import opened ProxyTimeouts
  import opened ProxyResults
  import opened ProxyConnectMachine

  class HttpProxyConnectJob {
    const config: JobConfig

    var nextState: State
    var priority: Priority
    var hasEstablishedConnection: bool
    var hasRestarted: bool
    var nestedConnectJob: Option<NestedJob>
    var transportSocket: Option<TunnelSocket>
    var spdyStreamRequest: Option<StreamRequest>
    var quicStreamRequest: Option<StreamRequest>
    var quicSession: bool
    var sslCertRequestInfo: Option<CertRequestInfo>
    var resolveErrorInfo: int
    var timer: int
    /** The model's record of the job's surroundings; the source keeps these outside the object. */
    var world: World

    /** The job's fields as a value of the pure model. */
    function Snapshot(): JobState
      reads this
    {
      JobState(nextState, priority, hasEstablishedConnection, hasRestarted, nestedConnectJob,
               transportSocket, spdyStreamRequest, quicStreamRequest, quicSession, sslCertRequestInfo,
               resolveErrorInfo, timer, world)
    }

    ghost predicate Valid()
      reads this
    {
      config.Valid() && Inv(config, Snapshot())
    }

    constructor (config: JobConfig, priority: Priority)
      requires config.Valid()
      ensures this.config == config && Snapshot() == Initial(priority) && Valid()
    {
      this.config := config;
      nextState := StateNone;
      this.priority := priority;
      hasEstablishedConnection := false;
      hasRestarted := false;
      nestedConnectJob := None;
      transportSocket := None;
      spdyStreamRequest := None;
      quicStreamRequest := None;
      quicSession := false;
      sslCertRequestInfo := None;
      resolveErrorInfo := 0;
      timer := 0;
      world := World(None, None, false, [], 0, 0, 0, 0, None, 0);
      new;
      InitialIsValid(config, priority);
    }

    // -------------------------------------------------------------------------
    // The steps. DoLoop clears nextState before calling one, so each step is
    // entered with nextState == StateNone and specified against the state it runs.

    method DoBeginConnect() returns (rv: int)
      requires nextState.StateNone? && StepPre(config, Snapshot().(nextState := BeginConnect), Ok)
      modifies this
      ensures StepResult(Snapshot(), rv) == BeginConnectStep(config, old(Snapshot()).(nextState := BeginConnect))
    {
      timer := TransportTimeout(config, world.turn);
      world := world.(rttReadAt := world.turn);
      rv := Ok;
      match GetProxyServerScheme(config.params) {
        case SchemeQuic =>
          nextState := QuicProxyCreateSession;
          hasEstablishedConnection := true;
        case SchemeHttp =>
          nextState := TransportConnect;
        case SchemeHttps =>
          nextState := TransportConnect;
      }
    }

    method DoTransportConnect() returns (rv: int)
      requires nextState.StateNone? && StepPre(config, Snapshot().(nextState := TransportConnect), Ok)
      modifies this
      ensures StepResult(Snapshot(), rv) == TransportConnectStep(config, old(Snapshot()).(nextState := TransportConnect))
    {
      var kind: NestedKind;
      if GetProxyServerScheme(config.params) == SchemeHttp {
        kind := TransportJob;
      } else {
        if config.params.tunnel && SessionAvailable(config, world.turn) {
          nextState := SpdyProxyCreateStream;
          return Ok;
        }
        kind := SslJob;
      }
      nestedConnectJob := Some(NestedJob(kind, priority));
      world := world.(nestedJobsStarted := world.nestedJobsStarted + 1);
      nextState := TransportConnectComplete;
      rv := config.env.result(NestedConnect, world.turn);
    }

    method DoTransportConnectComplete(result: int) returns (rv: int)
      requires nextState.StateNone? && StepPre(config, Snapshot().(nextState := TransportConnectComplete), result)
      modifies this
      ensures StepResult(Snapshot(), rv) ==
              TransportConnectCompleteStep(config, old(Snapshot()).(nextState := TransportConnectComplete), result)
    {
      resolveErrorInfo := config.env.nestedResolveError(world.turn);
      if result != Ok {
        if result == ErrSslClientAuthCertNeeded {
          sslCertRequestInfo := Some(CertRequestInfo(isProxy := true));
        }
        rv := TransportFailureResult(result);
      } else {
        hasEstablishedConnection := true;
        if !config.params.tunnel {
          world := world.(handedOut := Some(PlainProxySocket(nestedConnectJob.value.kind)));
        } else if config.env.holds(NegotiatedHttp2, world.turn) {
          nextState := SpdyProxyCreateStream;
        } else {
          nextState := HttpProxyConnect;
        }
        rv := result;
      }
    }

    method DoHttpProxyConnect() returns (rv: int)
      requires nextState.StateNone? && StepPre(config, Snapshot().(nextState := HttpProxyConnect), Ok)
      modifies this
      ensures StepResult(Snapshot(), rv) == HttpProxyConnectStep(config, old(Snapshot()).(nextState := HttpProxyConnect))
    {
      nextState := HttpProxyConnectComplete;
      timer := TunnelTimeout(config.platform);
      transportSocket := Some(TunnelSocket(HttpTunnel, None, None));
      nestedConnectJob := None;
      rv := config.env.result(HttpTunnelConnect, world.turn);
    }

    method DoHttpProxyConnectComplete(result: int) returns (rv: int)
      requires nextState.StateNone? && StepPre(config, Snapshot().(nextState := HttpProxyConnectComplete), result)
      modifies this
      ensures StepResult(Snapshot(), rv) ==
              HttpProxyConnectCompleteStep(config, old(Snapshot()).(nextState := HttpProxyConnectComplete), result)
    {
      if result == ErrProxyAuthRequested {
        world := world.(queued := Some(DeliverAuthChallenge));
        return ErrIoPending;
      }
      rv := TunnelResult(result);
      if rv == Ok {
        world := world.(handedOut := Some(ProxyTunnelSocket(transportSocket.value.kind)));
        transportSocket := None;
      }
    }

    method DoSpdyProxyCreateStream() returns (rv: int)
      requires nextState.StateNone? && StepPre(config, Snapshot().(nextState := SpdyProxyCreateStream), Ok)
      modifies this
      ensures StepResult(Snapshot(), rv) ==
              SpdyProxyCreateStreamStep(config, old(Snapshot()).(nextState := SpdyProxyCreateStream))
    {
      if !SessionAvailable(config, world.turn) {
        world := world.(spdySessionFromSocket := Some(nestedConnectJob.value.kind));
      }
      timer := TunnelTimeout(config.platform);
      nestedConnectJob := None;
      nextState := SpdyProxyCreateStreamComplete;
      spdyStreamRequest := Some(StreamRequest(TunnelPriority));
      rv := config.env.result(SpdyStreamRequestStart, world.turn);
    }

    method DoSpdyProxyCreateStreamComplete(result: int) returns (rv: int)
      requires nextState.StateNone? && StepPre(config, Snapshot().(nextState := SpdyProxyCreateStreamComplete), result)
      modifies this
      ensures StepResult(Snapshot(), rv) ==
              SpdyProxyCreateStreamCompleteStep(config, old(Snapshot()).(nextState := SpdyProxyCreateStreamComplete), result)
    {
      var request := spdyStreamRequest.value;
      spdyStreamRequest := None;
      if result < 0 {
        return SpdyStreamFailureResult(result);
      }
      nextState := HttpProxyConnectComplete;
      transportSocket := Some(TunnelSocket(SpdyTunnel, Some(request.priority), None));
      rv := config.env.result(SpdyTunnelConnect, world.turn);
    }

    method DoQuicProxyCreateSession() returns (rv: int)
      requires nextState.StateNone? && StepPre(config, Snapshot().(nextState := QuicProxyCreateSession), Ok)
      modifies this
      ensures StepResult(Snapshot(), rv) ==
              QuicProxyCreateSessionStep(config, old(Snapshot()).(nextState := QuicProxyCreateSession))
    {
      nextState := QuicProxyCreateStream;
      timer := TunnelTimeout(config.platform);
      quicStreamRequest := Some(StreamRequest(TunnelPriority));
      rv := config.env.result(QuicSessionRequest, world.turn);
    }

    method DoQuicProxyCreateStream(result: int) returns (rv: int)
      requires nextState.StateNone? && StepPre(config, Snapshot().(nextState := QuicProxyCreateStream), result)
      modifies this
      ensures StepResult(Snapshot(), rv) ==
              QuicProxyCreateStreamStep(config, old(Snapshot()).(nextState := QuicProxyCreateStream), result)
    {
      quicStreamRequest := None;
      if result < 0 {
        return result;
      }
      nextState := QuicProxyCreateStreamComplete;
      quicSession := true;
      rv := config.env.result(QuicStreamRequest, world.turn);
    }

    method DoQuicProxyCreateStreamComplete(result: int) returns (rv: int)
      requires nextState.StateNone? && StepPre(config, Snapshot().(nextState := QuicProxyCreateStreamComplete), result)
      modifies this
      ensures StepResult(Snapshot(), rv) ==
              QuicProxyCreateStreamCompleteStep(config, old(Snapshot()).(nextState := QuicProxyCreateStreamComplete), result)
    {
      if result < 0 {
        return result;
      }
      nextState := HttpProxyConnectComplete;
      quicSession := false;
      transportSocket := Some(TunnelSocket(QuicTunnel, Some(TunnelPriority), None));
      rv := config.env.result(QuicTunnelConnect, world.turn);
    }

    method DoRestartWithAuth() returns (rv: int)
      requires nextState.StateNone? && StepPre(config, Snapshot().(nextState := RestartWithAuth), Ok)
      modifies this
      ensures StepResult(Snapshot(), rv) == RestartWithAuthStep(config, old(Snapshot()).(nextState := RestartWithAuth))
    {
      timer := TunnelTimeout(config.platform);
      nextState := RestartWithAuthComplete;
      rv := config.env.result(TunnelRestartWithAuth, world.turn);
    }

    method DoRestartWithAuthComplete(result: int) returns (rv: int)
      requires nextState.StateNone? && StepPre(config, Snapshot().(nextState := RestartWithAuthComplete), result)
      modifies this
      ensures StepResult(Snapshot(), rv) ==
              RestartWithAuthCompleteStep(config, old(Snapshot()).(nextState := RestartWithAuthComplete), result)
    {
      var d := RestartDecision(result, config.env.holds(TunnelIsConnected, world.turn), hasRestarted);
      if d.closedRetry {
        hasRestarted := true;
        world := world.(closedRetries := world.closedRetries + 1,
                         authResets := world.authResets + (if config.params.tunnel then 1 else 0));
      }
      if d.reconnect {
        transportSocket := None;
        nextState := BeginConnect;
        return Ok;
      }
      nextState := HttpProxyConnectComplete;
      rv := d.result;
    }

    // -------------------------------------------------------------------------
    // The trampoline

    /** One pass of the DoLoop body: take the next state, clear it, run its step. */
    method DoStep(result: int) returns (rv: int)
      requires StepPre(config, Snapshot(), result)
      modifies this
      ensures StepResult(Snapshot(), rv) == Step(config, old(Snapshot()), result)
    {
      var state := nextState;
      nextState := StateNone;
      assert Snapshot().(nextState := state) == old(Snapshot());
      match state
      case BeginConnect => rv := DoBeginConnect();
      case TransportConnect => rv := DoTransportConnect();
      case TransportConnectComplete => rv := DoTransportConnectComplete(result);
      case HttpProxyConnect => rv := DoHttpProxyConnect();
      case HttpProxyConnectComplete => rv := DoHttpProxyConnectComplete(result);
      case SpdyProxyCreateStream => rv := DoSpdyProxyCreateStream();
      case SpdyProxyCreateStreamComplete => rv := DoSpdyProxyCreateStreamComplete(result);
      case QuicProxyCreateSession => rv := DoQuicProxyCreateSession();
      case QuicProxyCreateStream => rv := DoQuicProxyCreateStream(result);
      case QuicProxyCreateStreamComplete => rv := DoQuicProxyCreateStreamComplete(result);
      case RestartWithAuth => rv := DoRestartWithAuth();
      case RestartWithAuthComplete => rv := DoRestartWithAuthComplete(result);
    }

    /**
     * DoLoop: run steps until one returns ERR_IO_PENDING or leaves no next
     * state. The object ends where the recursive specification Loop says.
     */
    method DoLoop(result: int) returns (rv: int)
      requires LoopPre(config, Snapshot(), result)
      modifies this
      ensures StepResult(Snapshot(), rv) == Loop(config, old(Snapshot()), result)
    {
      world := world.(turn := world.turn + 1);
      ghost var goal := Run(config, Snapshot(), result);
      ghost var prev := Snapshot();
      ghost var prevResult := result;
      rv := DoStep(result);
      while rv != ErrIoPending && !nextState.StateNone?
        invariant StepPre(config, prev, prevResult) && Run(config, prev, prevResult) == goal
        invariant StepResult(Snapshot(), rv) == Step(config, prev, prevResult)
        decreases Rank(nextState)
      {
        prev, prevResult := Snapshot(), rv;
        ghost var before := nextState;
        rv := DoStep(rv);
        SuccessorsRankLower(before, nextState);
      }
    }

    // -------------------------------------------------------------------------
    // Entry points

    /** ConnectInternal: start at BeginConnect and run the loop. */
    method Connect() returns (rv: int)
      requires config.Valid() && Inv(config, Snapshot()) && nextState.StateNone? && world.turn == 0
      requires world.queued.None? && !world.awaitingCredentials
      modifies this
      ensures StepResult(Snapshot(), rv) == ConnectSpec(config, old(Snapshot()))
    {
      nextState := BeginConnect;
      rv := DoLoop(Ok);
    }

    /** OnIOComplete: run the loop and notify the delegate unless still pending. */
    method OnIOComplete(result: int)
      requires LoopPre(config, Snapshot(), result) && !nextState.BeginConnect?
      modifies this
      ensures Snapshot() == OnIOCompleteSpec(config, old(Snapshot()), result)
    {
      var rv := DoLoop(result);
      if rv != ErrIoPending {
        world := world.(notified := world.notified + [Completed(rv)]);
      }
    }

    /** OnAuthChallenge: stop the timer and hand the challenge and a restart callback to the delegate. */
    method OnAuthChallenge()
      requires Valid() && world.queued == Some(DeliverAuthChallenge)
      modifies this
      ensures Snapshot() == OnAuthChallengeSpec(config, old(Snapshot()))
    {
      timer := 0;
      world := world.(queued := None, notified := world.notified + [ProxyAuthNeeded], awaitingCredentials := true);
    }

    /** RestartWithAuthCredentials: the delegate's callback; posts the resumption rather than running it. */
    method RestartWithAuthCredentials()
      requires Valid() && world.awaitingCredentials
      modifies this
      ensures Snapshot() == RestartWithAuthCredentialsSpec(config, old(Snapshot()))
    {
      nextState := RestartWithAuth;
      world := world.(awaitingCredentials := false, queued := Some(ResumeAfterAuth));
    }

    /** The message loop runs the work this job posted. */
    method RunQueuedTask()
      requires Valid() && world.queued.Some?
      modifies this
      ensures Snapshot() == RunQueuedSpec(config, old(Snapshot()))
    {
      match world.queued.value
      case DeliverAuthChallenge =>
        OnAuthChallenge();
      case ResumeAfterAuth =>
        world := world.(queued := None);
        OnIOComplete(Ok);
    }

    /** ChangePriority: record the priority and pass it to the nested job and the proxy client socket. */
    method ChangePriority(p: Priority)
      requires Valid()
      modifies this
      ensures Snapshot() == ChangePrioritySpec(config, old(Snapshot()), p)
    {
      priority := p;
      if nestedConnectJob.Some? {
        nestedConnectJob := Some(nestedConnectJob.value.(priority := p));
      }
      if transportSocket.Some? {
        transportSocket := Some(transportSocket.value.(requested := Some(p)));
      }
    }
  }
}
