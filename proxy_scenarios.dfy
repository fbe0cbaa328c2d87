/**
 * Whole connection attempts, from construction to the delegate's last call,
 * for concrete collaborator behaviour.
 */
module ProxyConnectScenarios {
  import opened Wrappers
  import opened NetErrors
  import opened ProxyParams
  import opened ProxyTimeouts
  import opened ProxyResults
  import opened ProxyConnectMachine
  import opened ProxyConnectProperties

  /** A plain HTTP proxy without a tunnel whose TCP connect completes at once. */
  lemma PlainHttpProxySynchronous(c: JobConfig, p: Priority)
    requires c.Valid() && c.params.transport.Some? && !c.params.tunnel
    requires c.env.result(NestedConnect, 1) == Ok
    ensures var o := ConnectSpec(c, Initial(p));
      o.rv == Ok && o.st.nextState.StateNone? &&
      o.st.world.handedOut == Some(PlainProxySocket(TransportJob)) &&
      o.st.world.nestedJobsStarted == 1 && o.st.hasEstablishedConnection &&
      o.st.world.notified == []
  {
    InitialIsValid(c, p);
    var s0 := Initial(p).(nextState := BeginConnect, world := Initial(p).world.(turn := 1));
    var o1 := Step(c, s0, Ok);
    assert o1.st.nextState == TransportConnect;
    var o2 := Step(c, o1.st, Ok);
    assert o2.st.nextState == TransportConnectComplete && o2.rv == Ok;
    var o3 := Step(c, o2.st, Ok);
    assert o3.st.nextState.StateNone?;
    assert ConnectSpec(c, Initial(p)) == Run(c, s0, Ok) == Run(c, o1.st, Ok) == Run(c, o2.st, Ok) == o3;
  }

  /**
   * The same proxy when the TCP connect completes later: Connect reports
   * ERR_IO_PENDING, and the completion hands out the socket and tells the
   * delegate exactly once.
   */
  lemma PlainHttpProxyAsynchronous(c: JobConfig, p: Priority)
    requires c.Valid() && c.params.transport.Some? && !c.params.tunnel
    requires c.env.result(NestedConnect, 1) == ErrIoPending
    ensures var t := Replay(c, Initial(p), [CallConnect, IoCompleted(Ok)]);
      t.Some? && t.value.world.notified == [Completed(Ok)] &&
      t.value.world.handedOut == Some(PlainProxySocket(TransportJob)) && Finished(t.value)
  {
    InitialIsValid(c, p);
    var s0 := Initial(p).(nextState := BeginConnect, world := Initial(p).world.(turn := 1));
    var o1 := Step(c, s0, Ok);
    var o2 := Step(c, o1.st, Ok);
    assert o2.rv == ErrIoPending && o2.st.nextState == TransportConnectComplete;
    assert ConnectSpec(c, Initial(p)) == Run(c, s0, Ok) == Run(c, o1.st, Ok) == o2;
    var a := Apply(c, Initial(p), CallConnect);
    assert a == Some(o2.st);
    var s1 := o2.st.(world := o2.st.world.(turn := 2));
    var o3 := Step(c, s1, Ok);
    assert Loop(c, o2.st, Ok) == Run(c, s1, Ok) == o3;
    assert o3.rv == Ok && o3.st.world.handedOut == Some(PlainProxySocket(TransportJob));
    var b := Apply(c, o2.st, IoCompleted(Ok));
    assert b == Some(OnIOCompleteSpec(c, o2.st, Ok));
    assert Replay(c, Initial(p), [CallConnect, IoCompleted(Ok)]) == Replay(c, o2.st, [IoCompleted(Ok)]);
    assert Replay(c, o2.st, [IoCompleted(Ok)]) == Replay(c, b.value, []);
  }

  /** An HTTPS proxy speaking HTTP/1.1 that asks once for credentials and then accepts the tunnel. */
  predicate OneChallengeProxy(c: JobConfig) {
    c.Valid() && c.params.ssl.Some? && c.params.tunnel && !c.params.isQuic &&
    !SessionAvailable(c, 1) && c.env.result(NestedConnect, 1) == Ok &&
    !c.env.holds(NegotiatedHttp2, 1) &&
    c.env.result(HttpTunnelConnect, 1) == ErrProxyAuthRequested &&
    c.env.result(TunnelRestartWithAuth, 2) == Ok && c.env.holds(TunnelIsConnected, 2)
  }

  /** The job state after Connect against a OneChallengeProxy: the challenge is posted, not delivered. */
  lemma {:induction false} ChallengePosted(c: JobConfig, p: Priority)
    requires OneChallengeProxy(c)
    ensures var o := ConnectSpec(c, Initial(p));
      o.rv == ErrIoPending && o.st.world.queued == Some(DeliverAuthChallenge) &&
      o.st.world.notified == [] && o.st.transportSocket == Some(TunnelSocket(HttpTunnel, None, None)) &&
      o.st.world.turn == 1 && o.st.world.nestedJobsStarted == 1 && !o.st.hasRestarted
  {
    InitialIsValid(c, p);
    var s0 := Initial(p).(nextState := BeginConnect, world := Initial(p).world.(turn := 1));
    var o1 := Step(c, s0, Ok);
    var o2 := Step(c, o1.st, Ok);
    assert o2.st.nextState == TransportConnectComplete && o2.rv == Ok;
    var o3 := Step(c, o2.st, Ok);
    assert o3.st.nextState == HttpProxyConnect;
    var o4 := Step(c, o3.st, Ok);
    assert o4.st.nextState == HttpProxyConnectComplete && o4.rv == ErrProxyAuthRequested;
    var o5 := Step(c, o4.st, o4.rv);
    assert o5.rv == ErrIoPending;
    assert ConnectSpec(c, Initial(p)) == Run(c, s0, Ok) == Run(c, o1.st, Ok) == Run(c, o2.st, Ok)
        == Run(c, o3.st, Ok) == Run(c, o4.st, o4.rv) == o5;
  }

  /**
   * The whole exchange with a OneChallengeProxy: the delegate sees exactly
   * one auth challenge and then one successful completion, the tunnel socket
   * is handed out, and the connection to the proxy is reused.
   */
  lemma {:induction false} OneChallengeThenTunnel(c: JobConfig, p: Priority)
    requires OneChallengeProxy(c)
    ensures var t := Replay(c, Initial(p), [CallConnect, RunPostedTask, SupplyCredentials, RunPostedTask]);
      t.Some? && t.value.world.notified == [ProxyAuthNeeded, Completed(Ok)] &&
      t.value.world.handedOut == Some(ProxyTunnelSocket(HttpTunnel)) &&
      t.value.world.nestedJobsStarted == 1 && Finished(t.value)
  {
    InitialIsValid(c, p);
    ChallengePosted(c, p);
    var s1 := ConnectSpec(c, Initial(p)).st;
    assert Apply(c, Initial(p), CallConnect) == Some(s1);
    var s2 := OnAuthChallengeSpec(c, s1);
    assert Apply(c, s1, RunPostedTask) == Some(s2);
    var s3 := RestartWithAuthCredentialsSpec(c, s2);
    assert Apply(c, s2, SupplyCredentials) == Some(s3);
    var s3a := s3.(world := s3.world.(queued := None));
    ResumedTunnelSucceeds(c, s3a);
    var s4 := OnIOCompleteSpec(c, s3a, Ok);
    assert Apply(c, s3, RunPostedTask) == Some(s4);
    var es := [CallConnect, RunPostedTask, SupplyCredentials, RunPostedTask];
    assert Replay(c, Initial(p), es) == Replay(c, s1, es[1..]);
    assert Replay(c, s1, es[1..]) == Replay(c, s2, es[2..]);
    assert Replay(c, s2, es[2..]) == Replay(c, s3, es[3..]);
    assert Replay(c, s3, es[3..]) == Replay(c, s4, []);
  }

  /** Resuming with credentials against a OneChallengeProxy completes the tunnel on the same connection. */
  lemma {:induction false} ResumedTunnelSucceeds(c: JobConfig, s: JobState)
    requires OneChallengeProxy(c) && LoopPre(c, s, Ok) && s.nextState.RestartWithAuth? && s.world.turn == 1
    requires s.transportSocket == Some(TunnelSocket(HttpTunnel, None, None)) && !s.hasRestarted
    ensures var o := Loop(c, s, Ok);
      o.rv == Ok && o.st.world.handedOut == Some(ProxyTunnelSocket(HttpTunnel)) &&
      o.st.world.nestedJobsStarted == s.world.nestedJobsStarted && o.st.world.notified == s.world.notified
  {
    var r0 := s.(world := s.world.(turn := 2));
    var o1 := Step(c, r0, Ok);
    assert o1.st.nextState == RestartWithAuthComplete && o1.rv == Ok;
    var o2 := Step(c, o1.st, Ok);
    assert o2.st.nextState == HttpProxyConnectComplete && o2.rv == Ok;
    var o3 := Step(c, o2.st, Ok);
    assert Loop(c, s, Ok) == Run(c, r0, Ok) == Run(c, o1.st, Ok) == Run(c, o2.st, Ok) == o3;
  }

  /** A QUIC proxy whose session and stream requests complete at once. */
  lemma {:induction false} QuicProxySynchronous(c: JobConfig, p: Priority)
    requires c.Valid() && c.params.isQuic
    requires c.env.result(QuicSessionRequest, 1) == Ok && c.env.result(QuicStreamRequest, 1) == Ok
    requires c.env.result(QuicTunnelConnect, 1) == Ok
    ensures var o := ConnectSpec(c, Initial(p));
      o.rv == Ok && o.st.world.handedOut == Some(ProxyTunnelSocket(QuicTunnel)) &&
      o.st.world.nestedJobsStarted == 0 && o.st.hasEstablishedConnection
  {
    InitialIsValid(c, p);
    var s0 := Initial(p).(nextState := BeginConnect, world := Initial(p).world.(turn := 1));
    var o1 := Step(c, s0, Ok);
    assert o1.st.nextState == QuicProxyCreateSession;
    var o2 := Step(c, o1.st, Ok);
    assert o2.st.nextState == QuicProxyCreateStream && o2.rv == Ok;
    var o3 := Step(c, o2.st, Ok);
    assert o3.st.nextState == QuicProxyCreateStreamComplete && o3.rv == Ok;
    var o4 := Step(c, o3.st, Ok);
    assert o4.st.nextState == HttpProxyConnectComplete && o4.rv == Ok;
    var o5 := Step(c, o4.st, Ok);
    assert ConnectSpec(c, Initial(p)) == Run(c, s0, Ok) == Run(c, o1.st, Ok) == Run(c, o2.st, Ok)
        == Run(c, o3.st, Ok) == Run(c, o4.st, Ok) == o5;
  }

  /**
   * An HTTPS proxy with no HTTP/2 session in the pool that negotiates HTTP/2:
   * the TLS connection becomes a new session, a stream is created on it and
   * the HTTP/2 tunnel socket is handed out; no HTTP/1.1 CONNECT is made.
   */
  lemma {:induction false} Http2ProxyWithoutSession(c: JobConfig, p: Priority)
    requires c.Valid() && c.params.ssl.Some? && c.params.tunnel && !c.params.isQuic
    requires !SessionAvailable(c, 1) && c.env.result(NestedConnect, 1) == Ok && c.env.holds(NegotiatedHttp2, 1)
    requires c.env.result(SpdyStreamRequestStart, 1) == Ok && c.env.result(SpdyTunnelConnect, 1) == Ok
    ensures var o := ConnectSpec(c, Initial(p));
      o.rv == Ok && o.st.nextState.StateNone? &&
      o.st.world.handedOut == Some(ProxyTunnelSocket(SpdyTunnel)) &&
      o.st.world.spdySessionFromSocket == Some(SslJob) &&
      o.st.world.nestedJobsStarted == 1 && o.st.nestedConnectJob.None? && o.st.spdyStreamRequest.None?
  {
    InitialIsValid(c, p);
    var s0 := Initial(p).(nextState := BeginConnect, world := Initial(p).world.(turn := 1));
    var o1 := Step(c, s0, Ok);
    assert o1.st.nextState == TransportConnect;
    var o2 := Step(c, o1.st, Ok);
    assert o2.st.nextState == TransportConnectComplete && o2.rv == Ok;
    var o3 := Step(c, o2.st, Ok);
    assert o3.st.nextState == SpdyProxyCreateStream && o3.rv == Ok;
    var o4 := Step(c, o3.st, Ok);
    assert o4.st.nextState == SpdyProxyCreateStreamComplete && o4.rv == Ok;
    var o5 := Step(c, o4.st, Ok);
    assert o5.st.nextState == HttpProxyConnectComplete && o5.rv == Ok;
    var o6 := Step(c, o5.st, Ok);
    assert ConnectSpec(c, Initial(p)) == Run(c, s0, Ok) == Run(c, o1.st, Ok) == Run(c, o2.st, Ok)
        == Run(c, o3.st, Ok) == Run(c, o4.st, Ok) == Run(c, o5.st, Ok) == o6;
  }

  /**
   * An HTTPS proxy whose TLS connect fails with a certificate error: the job
   * ends at once with "proxy certificate invalid" and no tunnel is attempted.
   */
  lemma {:induction false} ProxyCertificateErrorFails(c: JobConfig, p: Priority, e: int)
    requires c.Valid() && c.params.ssl.Some? && !c.params.isQuic && IsCertificateError(e)
    requires !(c.params.tunnel && SessionAvailable(c, 1)) && c.env.result(NestedConnect, 1) == e
    ensures var o := ConnectSpec(c, Initial(p));
      o.rv == ErrProxyCertificateInvalid && o.st.nextState.StateNone? &&
      o.st.world.handedOut.None? && o.st.transportSocket.None? &&
      o.st.world.queued.None? && !o.st.hasEstablishedConnection
  {
    InitialIsValid(c, p);
    var s0 := Initial(p).(nextState := BeginConnect, world := Initial(p).world.(turn := 1));
    var o1 := Step(c, s0, Ok);
    assert o1.st.nextState == TransportConnect;
    var o2 := Step(c, o1.st, Ok);
    assert o2.st.nextState == TransportConnectComplete && o2.rv == e;
    var o3 := Step(c, o2.st, e);
    assert o3.st.nextState.StateNone? && o3.rv == ErrProxyCertificateInvalid;
    assert ConnectSpec(c, Initial(p)) == Run(c, s0, Ok) == Run(c, o1.st, Ok) == Run(c, o2.st, e) == o3;
  }
}
