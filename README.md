# HTTP proxy connect job, modelled in Dafny

This project models `HttpProxyConnectJob` from `net/http/http_proxy_connect_job.cc`.
The job opens a connection to a destination through an HTTP, HTTPS or QUIC proxy,
running these phases in order:

1. It connects to the proxy with a nested TCP or TLS connect job, or asks for a QUIC session.
2. If a tunnel is wanted, it establishes the tunnel with an HTTP/1.1 CONNECT, an HTTP/2 stream, or a QUIC stream.
3. It hands the resulting socket to its owner.

The job is a single-threaded state machine. `DoLoop` is a trampoline: on each pass it reads
and clears `next_state_`, then runs one `Do*` step. It stops when a step returns
`ERR_IO_PENDING` or leaves no next state.

The model has three layers:

- **Pure parts** (`ProxyParams`, `ProxyTimeouts`, `ProxyResults`). These cover parameter validation,
  proxy scheme selection, the adaptive transport-phase timeout (integer `TimeDelta` arithmetic with
  int64 saturation written out), and the result-code mappings.
- **The state machine** (`ProxyConnectMachine`). The job's fields form a `JobState` value, and each
  `Do*` step is a pure function on it. `Run` is the recursive specification of `DoLoop`; its
  termination measure is `Rank`. Every step keeps the invariant `Inv` and moves only along the
  transition table `Successors`. Every step also enters a state that starts with `DCHECK_EQ(OK, rv)`
  only with `OK`.
- **The object** (`ProxyConnectJob.HttpProxyConnectJob`). This is a class whose fields are updated
  in place by the `Do*` methods. A `while` loop mirrors the source's do-while. Each method is proved
  to leave the object exactly where the pure machine says.

On top of these, `ProxyConnectProperties` proves the properties of each step and the lifecycle
guarantees over an arbitrary sequence of events. `ProxyConnectScenarios` proves complete connection
attempts for concrete collaborator behaviour.

Collaborators whose code is not part of this model are given as a `Collaborators` value of oracle
functions: the nested connect job, the proxy client sockets, the HTTP/2 session pool and the QUIC
stream factory, and the network quality estimator's HTTP RTT estimate. Their answers are indexed by
the call kind and by `turn`, which counts entries into `DoLoop`. So their answers may change
arbitrarily between loop runs, while the two session-pool lookups made within one synchronous run
agree. Whether an estimator exists at all is fixed for the job (`JobConfig.hasEstimator`). Each
`DoBeginConnect`, including the one after a reconnect for proxy authentication, reads the estimate
afresh (`TransportTimeout(c, turn)`), and `World.rttReadAt` records the turn of the last read so
that the running transport timer can be tied to the timeout computed then.

Tasks posted to the thread's task runner become the `queued` continuation. The restart callback
held by the delegate becomes `awaitingCredentials`. The running timer becomes the `timer` field,
holding the current timeout, where 0 means stopped. Everything the surroundings see of the job is
kept in the `World` record: sockets handed out, delegate notifications, auth-controller resets,
nested jobs started and sockets given to the session pool. Lifetime properties are stated over
`World`.

Error codes use Chromium's numeric values. The proofs depend on the codes being distinct, on `OK`
being zero and every error code being negative (the steps branch on `result < 0`, and a failed
HTTP/2 stream request is reported with a negative code), and on the certificate-error range
`(-219, -200]` plus `ERR_SSL_PINNED_KEY_NOT_IN_CERT_CHAIN` making up `IsCertificateError`.

## Model

| member | source | states |
|---|---|---|
| ProxyParams.NewHttpProxySocketParams | net/http/http_proxy_connect_job.cc:126-159 | parameters are accepted exactly when one of transport/TLS parameters is present, QUIC has TLS parameters, and the proxy destination has no scheme; zero or both descriptors, QUIC without TLS and scheme-qualified destinations are refused |
| ProxyParams.GetProxyServerScheme | net/http/http_proxy_connect_job.cc:326-334 | QUIC exactly when `is_quic`; HTTP exactly when not QUIC and transport parameters are present; HTTPS otherwise |
| ProxyParams.SchemeIsSecureIffSsl | net/http/http_proxy_connect_job.cc:326-334 | for valid parameters the scheme is HTTPS or QUIC exactly when TLS parameters are present |
| ProxyParams.GetDestination | net/http/http_proxy_connect_job.cc:793-805 | the proxy's host/port pair is the destination of whichever transport parameters are present |
| ProxyParams.AuthTargetScheme | net/http/http_proxy_connect_job.cc:191-196 | the auth controller's URL is `https` exactly for a secure (HTTPS or QUIC) proxy, `http` otherwise |
| ProxyTimeouts.InitTimeoutConfig | net/http/http_proxy_connect_job.cc:65-73 | each field-trial parameter falls back to its default: 8s, 30s, multiplier 10 for TLS, 5 otherwise |
| ProxyTimeouts.DefaultConfigIsValid | net/http/http_proxy_connect_job.cc:65-78 | the default configuration meets the initialiser's checks: positive multipliers and 0 <= min <= max |
| ProxyTimeouts.Clamp | net/http/http_proxy_connect_job.cc:307-309 | `base::clamp` lies in [lo, hi], is the value inside the range, and the nearer bound outside it |
| ProxyTimeouts.SaturatedMul | net/http/http_proxy_connect_job.cc:304 | `TimeDelta` times an integer stays within int64 and is the exact product whenever that fits |
| ProxyTimeouts.AlternateNestedConnectionTimeout | net/http/http_proxy_connect_job.cc:277-310 | with no estimator or no RTT estimate: the platform default (10s on Android/iOS, 0 elsewhere); with one: within [min, max] and equal to clamp(multiplier × RTT), the TLS multiplier for an HTTPS proxy |
| ProxyTimeouts.ClampSaturationInvisible | net/http/http_proxy_connect_job.cc:304-309 | clamping the saturated product to int64 bounds gives the clamp of the exact product |
| ProxyTimeouts.TimeoutMonotoneInRtt | net/http/http_proxy_connect_job.cc:301-309 | a larger RTT estimate never gives a shorter timeout |
| ProxyTimeouts.SecureTimeoutAtLeastInsecure | net/http/http_proxy_connect_job.cc:301-309 | when the TLS multiplier is at least the other (as by default), an HTTPS proxy never gets a shorter timeout than an HTTP one |
| ProxyTimeouts.DefaultSecureTimeoutExamples | net/http/http_proxy_connect_job.cc:65-72 | default bounds on a secure proxy: RTT 2s gives 20s, 10s is capped at 30s, 100ms is raised to 8s |
| ProxyResults.TransportFailureResult | net/http/http_proxy_connect_job.cc:468-491 | a failed transport connect reports only three codes: certificate errors become `ERR_PROXY_CERTIFICATE_INVALID`, `ERR_SSL_CLIENT_AUTH_CERT_NEEDED` passes through, everything else becomes `ERR_PROXY_CONNECTION_FAILED` (both directions) |
| ProxyResults.TunnelResult | net/http/http_proxy_connect_job.cc:551-565 | `ERR_HTTP_1_1_REQUIRED` becomes `ERR_PROXY_HTTP_1_1_REQUIRED`, `ERR_BAD_SSL_CLIENT_AUTH_CERT` becomes `ERR_PROXY_CONNECTION_FAILED`, other results pass through; OK and pending are preserved both ways |
| ProxyResults.SpdyStreamFailureResult | net/http/http_proxy_connect_job.cc:608-617 | a failed HTTP/2 stream request stays an error and never reports a bad client certificate, which becomes `ERR_PROXY_CONNECTION_FAILED` |
| ProxyResults.RestartDecision | net/http/http_proxy_connect_job.cc:719-759 | OK on a disconnected socket becomes "unable to reuse"; the closed-connection retry is taken exactly when not yet restarted and the error is closed/reset/aborted/not-connected; reconnect exactly on "unable to reuse" or that retry; OK never reconnects |
| ProxyResults.ClosedRetryAtMostOnce | net/http/http_proxy_connect_job.cc:732-745 | over any series of restart completions the closed-connection retry is taken at most once, never once the flag is set, and exactly when the flag flips |
| ProxyResults.SecondClosedConnectionIsReported | net/http/http_proxy_connect_job.cc:732-758 | a closed connection reconnects the first time; the second time its error is reported as the tunnel result |
| ProxyConnectMachine.SuccessorsRankLower | net/http/http_proxy_connect_job.cc:355-413 | every transition of the table strictly lowers the rank, so `DoLoop` terminates |
| ProxyConnectMachine.InitialIsValid | net/http/http_proxy_connect_job.cc:176-203 | a newly constructed job satisfies the invariant |
| ProxyConnectMachine.BeginConnectStep | net/http/http_proxy_connect_job.cc:415-436 | keeps the invariant, moves along the table, returns OK into states that require it, never notifies |
| ProxyConnectMachine.TransportConnectStep | net/http/http_proxy_connect_job.cc:438-463 | as for every step: invariant kept, table respected, pending only where a completion will follow |
| ProxyConnectMachine.TransportConnectCompleteStep | net/http/http_proxy_connect_job.cc:465-520 | as for every step; success without a next state hands out a socket, a plain one exactly for a non-tunnel non-QUIC proxy |
| ProxyConnectMachine.HttpProxyConnectStep | net/http/http_proxy_connect_job.cc:522-540 | as for every step: invariant kept, table respected; the job then waits on the handshake with a proxy socket present and the tunnel timer running |
| ProxyConnectMachine.HttpProxyConnectCompleteStep | net/http/http_proxy_connect_job.cc:542-566 | as for every step; a pending result leaves a posted auth challenge and nothing next |
| ProxyConnectMachine.SpdyProxyCreateStreamStep | net/http/http_proxy_connect_job.cc:568-605 | as for every step; the stream request carries the tunnel priority |
| ProxyConnectMachine.SpdyProxyCreateStreamCompleteStep | net/http/http_proxy_connect_job.cc:607-631 | as for every step; the HTTP/2 proxy socket keeps the stream's tunnel priority |
| ProxyConnectMachine.QuicProxyCreateSessionStep | net/http/http_proxy_connect_job.cc:633-667 | as for every step; the QUIC stream request carries the tunnel priority |
| ProxyConnectMachine.QuicProxyCreateStreamStep | net/http/http_proxy_connect_job.cc:669-684 | as for every step: invariant kept, table respected; a stream request leaves a QUIC session held and the tunnel timer running |
| ProxyConnectMachine.QuicProxyCreateStreamCompleteStep | net/http/http_proxy_connect_job.cc:686-706 | as for every step; the QUIC proxy socket is set to the tunnel priority |
| ProxyConnectMachine.RestartWithAuthStep | net/http/http_proxy_connect_job.cc:708-717 | as for every step; the job then waits on the restart with the proxy socket present and the tunnel timer running |
| ProxyConnectMachine.RestartWithAuthCompleteStep | net/http/http_proxy_connect_job.cc:719-759 | as for every step; the retry counter equals the has-restarted flag and auth resets happen only with a tunnel |
| ProxyConnectMachine.Step | net/http/http_proxy_connect_job.cc:362-409 | one pass of the loop body keeps the invariant and respects the transition table |
| ProxyConnectMachine.Run | net/http/http_proxy_connect_job.cc:355-413 | the loop terminates and stops only on pending (an operation will complete or an auth challenge is posted) or with nothing next; it never notifies the delegate |
| ProxyConnectMachine.Loop | net/http/http_proxy_connect_job.cc:355-413 | entering the loop from a resumable state runs it to a stopping point as `Run` states |
| ProxyConnectMachine.ConnectSpec | net/http/http_proxy_connect_job.cc:320-324 | connecting starts at BeginConnect and stops where `Run` says, without notifying |
| ProxyConnectMachine.OnIOCompleteSpec | net/http/http_proxy_connect_job.cc:336-342 | the delegate gets at most one new call, a completion, and only once the job is finished |
| ProxyConnectMachine.OnAuthChallengeSpec | net/http/http_proxy_connect_job.cc:782-791 | the timer is stopped, the challenge is delivered and the delegate holds the restart callback |
| ProxyConnectMachine.RestartWithAuthCredentialsSpec | net/http/http_proxy_connect_job.cc:344-353 | restarting never runs inline: the next state is RestartWithAuth and a resumption is posted |
| ProxyConnectMachine.RunQueuedSpec | net/http/http_proxy_connect_job.cc:344-353 | running a posted task keeps the invariant |
| ProxyConnectMachine.ChangePrioritySpec | net/http/http_proxy_connect_job.cc:761-770 | the priority reaches the nested job and is passed to the proxy socket; the HTTP/2 and QUIC stream requests keep the tunnel priority |
| ProxyConnectMachine.GetLoadState | net/http/http_proxy_connect_job.cc:208-233 | the nested job's load state while the transport connects, "establishing proxy tunnel" in every tunnel state, idle otherwise |
| ProxyConnectMachine.HasEstablishedConnection | net/http/http_proxy_connect_job.cc:235-245 | true if the job's flag is set, otherwise the nested job's answer, false without one |
| ProxyConnectMachine.IsSslError | net/http/http_proxy_connect_job.cc:251-253 | true exactly when the job holds a certificate request; `CertRequestOnlyFromProxyClientAuth` shows only the proxy's client-certificate request records one |
| ProxyConnectProperties.BeginConnectBranches | net/http/http_proxy_connect_job.cc:415-436 | returns OK and sets the transport-phase timer from the RTT estimate read in the current turn, recording that turn; QUIC goes to session creation and is established at once; HTTP/HTTPS go to TransportConnect |
| ProxyConnectProperties.ExistingSessionSkipsTransport | net/http/http_proxy_connect_job.cc:447-454 | an HTTPS tunnel with an HTTP/2 session available goes straight to stream creation and changes nothing else |
| ProxyConnectProperties.NoNestedJobAfterTransportConnect | net/http/http_proxy_connect_job.cc:355-413 | once past TransportConnect, the rest of a run starts no nested job |
| ProxyConnectProperties.NoSessionAfterStreamCreation | net/http/http_proxy_connect_job.cc:568-605 | once past stream creation, the rest of a run gives no socket to the session pool |
| ProxyConnectProperties.ExistingSessionMeansNoNewConnection | net/http/http_proxy_connect_job.cc:447-454 | a run that begins while an HTTP/2 session exists starts no nested job and creates no session from a socket |
| ProxyConnectProperties.QuicNeverStartsNestedJob | net/http/http_proxy_connect_job.cc:415-436 | a QUIC proxy starts no nested job and counts as established |
| ProxyConnectProperties.CertRequestOnlyFromProxyClientAuth | net/http/http_proxy_connect_job.cc:481-487 | a step records a certificate request, marked as from the proxy, exactly when a transport connect failed with `ERR_SSL_CLIENT_AUTH_CERT_NEEDED`; every other step leaves the field alone |
| ProxyConnectProperties.CertRequestEndsRun | net/http/http_proxy_connect_job.cc:481-487 | a run that ends with `IsSSLError` true, having started without, ended the job with `ERR_SSL_CLIENT_AUTH_CERT_NEEDED` and a proxy certificate request |
| ProxyConnectProperties.StepTimer | net/http/http_proxy_connect_job.cc:415-717 | BeginConnect sets the adaptive transport-phase timeout; HttpProxyConnect, SpdyProxyCreateStream, QuicProxyCreateSession and RestartWithAuth reset it to the fixed tunnel timeout; no other step touches it |
| ProxyConnectProperties.PendingTimerFitsPhase | net/http/http_proxy_connect_job.cc:415-717 | whenever the loop waits, the timer is the adaptive timeout computed at the last BeginConnect while the nested job runs and the fixed tunnel timeout while the tunnel is being set up |
| ProxyConnectProperties.HttpProxyConnectWrapsNestedSocket | net/http/http_proxy_connect_job.cc:522-540 | HttpProxyConnect resets the timer to the tunnel timeout, releases the nested job, makes the HTTP/1.1 proxy socket the transport socket and returns its Connect result; nothing else changes |
| ProxyConnectProperties.SpdyStreamFailureEndsJob | net/http/http_proxy_connect_job.cc:607-617 | a failed HTTP/2 stream request ends the job: the request is released, a bad client certificate becomes `ERR_PROXY_CONNECTION_FAILED`, any other error is returned as is, and no proxy socket is made |
| ProxyConnectProperties.QuicSessionFailureEndsJob | net/http/http_proxy_connect_job.cc:669-673 | a failed QUIC session request ends the job with that same error and releases the request |
| ProxyConnectProperties.QuicStreamFailureEndsJob | net/http/http_proxy_connect_job.cc:686-688 | a failed QUIC stream request ends the job with that same error and makes no proxy socket |
| ProxyConnectProperties.TransportFailureIsRemapped | net/http/http_proxy_connect_job.cc:468-491 | a failed transport connect ends the job with the remapped error and records a proxy client-certificate request |
| ProxyConnectProperties.TransportSuccessBranches | net/http/http_proxy_connect_job.cc:499-519 | success sets established; without a tunnel the nested socket is handed out; with one, HTTP/2 picks stream creation and HTTP/1.1 picks CONNECT |
| ProxyConnectProperties.TunnelCompletionBranches | net/http/http_proxy_connect_job.cc:542-566 | an auth challenge yields pending plus a posted challenge, never a delegate call; HTTP/1.1-required and bad-client-cert are remapped; OK hands out the tunnel socket |
| ProxyConnectProperties.RestartCompletionBranches | net/http/http_proxy_connect_job.cc:719-759 | "unable to reuse" reconnects without resetting auth; a closed connection reconnects and resets auth only the first time; anything else goes to HttpProxyConnectComplete |
| ProxyConnectProperties.LoadStateWhilePending | net/http/http_proxy_connect_job.cc:208-233 | while the loop waits on anything but the nested job the load state is "establishing proxy tunnel" |
| ProxyConnectProperties.Apply | net/http/http_proxy_connect_job.cc:320-353 | every event that can happen to a job (connect, completion, posted task, credentials, priority change) keeps the invariant |
| ProxyConnectProperties.Replay | net/http/http_proxy_connect_job.cc:320-353 | any sequence of events keeps the invariant |
| ProxyConnectProperties.ApplyKeepsLifecycle | net/http/http_proxy_connect_job.cc:336-353 | every event keeps the lifetime guarantees: at most one completion, and none before the job is finished |
| ProxyConnectProperties.OnIOCompleteKeepsLifecycle | net/http/http_proxy_connect_job.cc:336-342 | an I/O completion on an unfinished job keeps the lifetime guarantees |
| ProxyConnectProperties.LifecycleHolds | net/http/http_proxy_connect_job.cc:336-353 | over any event sequence: at most one closed-connection retry and auth reset, at most one completion and nothing after it, stream requests at the tunnel priority |
| ProxyConnectProperties.InitialLifecycle | net/http/http_proxy_connect_job.cc:176-203 | a new job meets the lifetime guarantees |
| ProxyConnectScenarios.PlainHttpProxySynchronous | net/http/http_proxy_connect_job.cc:438-509 | an HTTP proxy without a tunnel whose TCP connect succeeds at once: Connect returns OK and hands out the TCP socket |
| ProxyConnectScenarios.PlainHttpProxyAsynchronous | net/http/http_proxy_connect_job.cc:336-342 | the same with a later TCP completion: the delegate hears one OK completion and the socket is handed out |
| ProxyConnectScenarios.ChallengePosted | net/http/http_proxy_connect_job.cc:542-549 | against an HTTPS proxy asking for credentials, Connect returns pending with the challenge posted and no delegate call |
| ProxyConnectScenarios.ResumedTunnelSucceeds | net/http/http_proxy_connect_job.cc:708-759 | resuming with credentials on a still-connected socket completes the tunnel without a new connection |
| ProxyConnectScenarios.OneChallengeThenTunnel | net/http/http_proxy_connect_job.cc:344-353 | the delegate sees exactly one challenge then one OK completion, the tunnel socket is handed out, and one nested job was started |
| ProxyConnectScenarios.QuicProxySynchronous | net/http/http_proxy_connect_job.cc:633-706 | a QUIC proxy whose requests succeed at once hands out a QUIC tunnel socket without any nested job |
| ProxyConnectScenarios.Http2ProxyWithoutSession | net/http/http_proxy_connect_job.cc:511-631 | an HTTPS tunnel that negotiates HTTP/2 with no session in the pool turns its TLS socket into a session, creates a stream on it and hands out the HTTP/2 tunnel socket, with one nested job and no HTTP/1.1 CONNECT |
| ProxyConnectScenarios.ProxyCertificateErrorFails | net/http/http_proxy_connect_job.cc:475-480 | an HTTPS proxy whose TLS connect fails with a certificate error ends the job with `ERR_PROXY_CERTIFICATE_INVALID`, hands out nothing and attempts no tunnel |
| ProxyConnectJob.HttpProxyConnectJob.constructor | net/http/http_proxy_connect_job.cc:176-203 | a new job has no next state, no resources, no timer and a valid state |
| ProxyConnectJob.HttpProxyConnectJob.DoBeginConnect | net/http/http_proxy_connect_job.cc:415-436 | updates the fields exactly as `BeginConnectStep` |
| ProxyConnectJob.HttpProxyConnectJob.DoTransportConnect | net/http/http_proxy_connect_job.cc:438-463 | updates the fields exactly as `TransportConnectStep` |
| ProxyConnectJob.HttpProxyConnectJob.DoTransportConnectComplete | net/http/http_proxy_connect_job.cc:465-520 | updates the fields exactly as `TransportConnectCompleteStep` |
| ProxyConnectJob.HttpProxyConnectJob.DoHttpProxyConnect | net/http/http_proxy_connect_job.cc:522-540 | updates the fields exactly as `HttpProxyConnectStep` |
| ProxyConnectJob.HttpProxyConnectJob.DoHttpProxyConnectComplete | net/http/http_proxy_connect_job.cc:542-566 | updates the fields exactly as `HttpProxyConnectCompleteStep` |
| ProxyConnectJob.HttpProxyConnectJob.DoSpdyProxyCreateStream | net/http/http_proxy_connect_job.cc:568-605 | updates the fields exactly as `SpdyProxyCreateStreamStep` |
| ProxyConnectJob.HttpProxyConnectJob.DoSpdyProxyCreateStreamComplete | net/http/http_proxy_connect_job.cc:607-631 | updates the fields exactly as `SpdyProxyCreateStreamCompleteStep` |
| ProxyConnectJob.HttpProxyConnectJob.DoQuicProxyCreateSession | net/http/http_proxy_connect_job.cc:633-667 | updates the fields exactly as `QuicProxyCreateSessionStep` |
| ProxyConnectJob.HttpProxyConnectJob.DoQuicProxyCreateStream | net/http/http_proxy_connect_job.cc:669-684 | updates the fields exactly as `QuicProxyCreateStreamStep` |
| ProxyConnectJob.HttpProxyConnectJob.DoQuicProxyCreateStreamComplete | net/http/http_proxy_connect_job.cc:686-706 | updates the fields exactly as `QuicProxyCreateStreamCompleteStep` |
| ProxyConnectJob.HttpProxyConnectJob.DoRestartWithAuth | net/http/http_proxy_connect_job.cc:708-717 | updates the fields exactly as `RestartWithAuthStep` |
| ProxyConnectJob.HttpProxyConnectJob.DoRestartWithAuthComplete | net/http/http_proxy_connect_job.cc:719-759 | updates the fields exactly as `RestartWithAuthCompleteStep` |
| ProxyConnectJob.HttpProxyConnectJob.DoStep | net/http/http_proxy_connect_job.cc:362-409 | reading and clearing the next state and running its step updates the fields exactly as `Step` |
| ProxyConnectJob.HttpProxyConnectJob.DoLoop | net/http/http_proxy_connect_job.cc:355-413 | the do-while loop terminates and leaves the fields and result exactly as the recursive `Loop` |
| ProxyConnectJob.HttpProxyConnectJob.Connect | net/http/http_proxy_connect_job.cc:320-324 | leaves the job as `ConnectSpec` |
| ProxyConnectJob.HttpProxyConnectJob.OnIOComplete | net/http/http_proxy_connect_job.cc:336-342 | leaves the job as `OnIOCompleteSpec`: the delegate is notified only when the loop did not return pending |
| ProxyConnectJob.HttpProxyConnectJob.OnAuthChallenge | net/http/http_proxy_connect_job.cc:782-791 | leaves the job as `OnAuthChallengeSpec` |
| ProxyConnectJob.HttpProxyConnectJob.RestartWithAuthCredentials | net/http/http_proxy_connect_job.cc:344-353 | leaves the job as `RestartWithAuthCredentialsSpec` |
| ProxyConnectJob.HttpProxyConnectJob.RunQueuedTask | net/http/http_proxy_connect_job.cc:344-353 | running the posted task leaves the job as `RunQueuedSpec` |
| ProxyConnectJob.HttpProxyConnectJob.ChangePriority | net/http/http_proxy_connect_job.cc:761-770 | leaves the job as `ChangePrioritySpec` |

## Left out

- Collaborator internals are not part of this model. This covers the TCP/TLS/QUIC sockets, `SpdySessionPool`, `QuicStreamRequest`, the HTTP/1.1, HTTP/2 and QUIC proxy client sockets (their CONNECT handshakes) and `HttpAuthController`. Each is an oracle answering a result code or a yes/no question.
- Histograms, `NetLog`, `connect_start_time_` and `OnTimedOutInternal` are left out. The latter only records a histogram, and none of them affects behaviour.
- The `ConnectJob` base class's timer firing, socket tags, DNS aliases and `GetUserAgent` are left out. The base-class timeout is represented only by the current timeout value.
- Field-trial string parsing (`GetInt32Param`) is left out. The parsed integers, or their absence, are inputs.
- Task posting and weak pointers are modelled as the `queued` continuation. A destroyed job's cancelled tasks are not modelled.
- The delegate's restart callback is a flag, and the job's destruction is not modelled.
- URL, `SpdySessionKey` and `ProxyServer` construction from the destination is left out. `AuthTargetScheme` keeps only the scheme choice of the auth URL.
- The QUIC version list, certificate-verification flags and session keys passed to the QUIC factory are left out. Only the results of the requests are modelled.
- Debug checks on collaborators' answers are left out, and a collaborator may answer anything. These checks are:
  - that a released HTTP/2 stream exists (line 623);
  - that a certificate error (line 476) or a client-certificate request (line 483) comes only from an HTTPS proxy;
  - that HTTP/2 is negotiated only with an HTTPS proxy (line 514).
- The `DCHECK(params_->tunnel())` of `DoQuicProxyCreateSession` (line 636) is left out. The parameters accept a QUIC proxy without a tunnel, and the invariant allows a proxy socket when `tunnel || isQuic`, so the model runs such a job as the release build would.
- ChangePrioritySpec: what `SetStreamPriority` does to the HTTP/2 or QUIC stream under the proxy socket is internal to that socket and is not modelled. `streamPriority` records only the priority the stream was given when created; the socket's `requested` field records the priority passed on.
- The `DCHECK` that the TLS parameters of an HTTPS proxy describe a direct connection is left out, because the connection type is not modelled.
- `GetLoadState` in `TransportConnect` hits `NOTREACHED()` and falls through to idle. The model returns idle, and the invariant does not exclude that state, because `DoLoop` leaves it only within one synchronous run.
- The `default: NOTREACHED()` branch of `DoLoop` is left out. The model's state type has no other values, and `StateNone` is never run.
- `GetResolveErrorInfo` and `GetCertRequestInfo` are plain field reads, exposed through the snapshot.
- ProxyTimeouts.InitTimeoutConfig: the parsed field-trial values are unbounded integers rather than `int32_t`. Any `int32_t` number of seconds fits in a `TimeDelta`, so no overflow is left unmodelled there.
