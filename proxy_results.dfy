/**
 * The result-code mappings applied inside the proxy connect job's completion
 * steps, and the decision taken when a restart with credentials completes.
 */
module ProxyResults {
  import opened NetErrors

  /**
   * How a failed nested transport connect is reported: certificate errors
   * become "proxy certificate invalid", a client-certificate request passes
   * through, and every other failure becomes "proxy connection failed".
   * The caller never sees any other transport-layer error.
   */
  function TransportFailureResult(result: int): (r: int)
    requires result != Ok
    ensures r == ErrProxyCertificateInvalid || r == ErrSslClientAuthCertNeeded || r == ErrProxyConnectionFailed
    ensures r == ErrProxyCertificateInvalid <==> IsCertificateError(result)
    ensures r == ErrSslClientAuthCertNeeded <==> result == ErrSslClientAuthCertNeeded
  {
    if IsCertificateError(result) then ErrProxyCertificateInvalid
    else if result == ErrSslClientAuthCertNeeded then result
    else ErrProxyConnectionFailed
  }

  /**
   * How a tunnel handshake result (other than an auth challenge) is reported:
   * "HTTP/1.1 required" becomes its proxy variant, a rejected client
   * certificate becomes "proxy connection failed", everything else, success
   * included, passes through.
   */
  function TunnelResult(result: int): (r: int)
    ensures r == Ok <==> result == Ok
    ensures r == ErrIoPending <==> result == ErrIoPending
    ensures result == ErrHttp11Required ==> r == ErrProxyHttp11Required
    ensures result == ErrBadSslClientAuthCert ==> r == ErrProxyConnectionFailed
    ensures result != ErrHttp11Required && result != ErrBadSslClientAuthCert ==> r == result
  {
    if result == ErrHttp11Required then ErrProxyHttp11Required
    else if result == ErrBadSslClientAuthCert then ErrProxyConnectionFailed
    else result
  }

  /** How a failed HTTP/2 stream request is reported: only a rejected client certificate is remapped. */
  function SpdyStreamFailureResult(result: int): (r: int)
    requires result < 0
    ensures r < 0 && r != ErrBadSslClientAuthCert
    ensures result == ErrBadSslClientAuthCert ==> r == ErrProxyConnectionFailed
    ensures result != ErrBadSslClientAuthCert ==> r == result
  {
    if result == ErrBadSslClientAuthCert then ErrProxyConnectionFailed else result
  }

  /** What DoRestartWithAuthComplete decides. */
  datatype RestartOutcome = RestartOutcome(
    reconnect: bool,    // start over from BeginConnect
    closedRetry: bool,  // the one retry after a closed connection is used up now
    result: int)        // the effective result

  /**
   * A restart that "succeeded" on a disconnected socket counts as "unable to
   * reuse the connection"; that always reconnects. A closed, reset, aborted or
   * not-connected connection reconnects only if the job has not restarted yet.
   */
  function RestartDecision(result: int, isConnected: bool, hasRestarted: bool): (d: RestartOutcome)
    ensures d.result == (if result == Ok && !isConnected then ErrUnableToReuseConnectionForProxyAuth else result)
    ensures d.closedRetry <==> !hasRestarted && IsClosedConnectionError(d.result)
    ensures d.reconnect <==> d.result == ErrUnableToReuseConnectionForProxyAuth || d.closedRetry
    ensures d.result == Ok ==> !d.reconnect
  {
    var r := if result == Ok && !isConnected then ErrUnableToReuseConnectionForProxyAuth else result;
    var closedRetry := !hasRestarted && IsClosedConnectionError(r);
    RestartOutcome(r == ErrUnableToReuseConnectionForProxyAuth || closedRetry, closedRetry, r)
  }

  /** One completed restart: the result the socket reported and whether it was still connected. */
  datatype RestartReport = RestartReport(result: int, isConnected: bool)

  /** The has_restarted flag after a series of restart completions. */
  function RestartedAfter(reports: seq<RestartReport>, hasRestarted: bool): bool
  {
    if reports == [] then hasRestarted
    else
      var d := RestartDecision(reports[0].result, reports[0].isConnected, hasRestarted);
      RestartedAfter(reports[1..], hasRestarted || d.closedRetry)
  }

  /** How many of a series of restart completions use the closed-connection retry. */
  function ClosedRetries(reports: seq<RestartReport>, hasRestarted: bool): nat
  {
    if reports == [] then 0
    else
      var d := RestartDecision(reports[0].result, reports[0].isConnected, hasRestarted);
      (if d.closedRetry then 1 else 0) + ClosedRetries(reports[1..], hasRestarted || d.closedRetry)
  }

  /**
   * Whatever results a series of restarts reports, the closed-connection
   * retry happens at most once, never after the flag is set, and exactly
   * when the flag goes from false to true.
   */
  lemma {:induction false} ClosedRetryAtMostOnce(reports: seq<RestartReport>, hasRestarted: bool)
    ensures ClosedRetries(reports, hasRestarted) <= 1
    ensures hasRestarted ==> ClosedRetries(reports, hasRestarted) == 0
    ensures ClosedRetries(reports, hasRestarted) == (if RestartedAfter(reports, hasRestarted) && !hasRestarted then 1 else 0)
  {
    if reports != [] {
      var d := RestartDecision(reports[0].result, reports[0].isConnected, hasRestarted);
      ClosedRetryAtMostOnce(reports[1..], hasRestarted || d.closedRetry);
      if d.closedRetry {
        RestartedStaysSet(reports[1..]);
      }
    }
  }

  lemma {:induction false} RestartedStaysSet(reports: seq<RestartReport>)
    ensures RestartedAfter(reports, true)
  {
    if reports != [] {
      RestartedStaysSet(reports[1..]);
    }
  }

  /**
   * A closed connection reported on every restart still reconnects only the
   * first time; from then on the closed-connection error is reported.
   */
  lemma SecondClosedConnectionIsReported(e: int)
    requires IsClosedConnectionError(e)
    ensures RestartDecision(e, true, false).reconnect && RestartDecision(e, true, false).closedRetry
    ensures !RestartDecision(e, true, true).reconnect && RestartDecision(e, true, true).result == e
  {
  }
}
