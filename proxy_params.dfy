/**
 * The immutable parameters of one proxy connect attempt (HttpProxySocketParams)
 * and the proxy scheme chosen from them.
 */
module ProxyParams {
  import opened Wrappers

  datatype HostPortPair = HostPortPair(host: string, port: int)

  /** A transport destination: a bare host/port pair, or one qualified by a scheme. */
  datatype Destination = HostPort(hostPort: HostPortPair) | SchemeHostPort(scheme: string, hostPort: HostPortPair)

  datatype TransportSocketParams = TransportSocketParams(destination: Destination)

  /** TLS parameters; `direct` are the parameters of the TCP connection under the TLS one. */
  datatype SslSocketParams = SslSocketParams(direct: TransportSocketParams)

  datatype Scheme = SchemeHttp | SchemeHttps | SchemeQuic

  datatype HttpProxySocketParams = HttpProxySocketParams(
    transport: Option<TransportSocketParams>,
    ssl: Option<SslSocketParams>,
    isQuic: bool,
    endpoint: HostPortPair,
    tunnel: bool)
  {
    /** The conditions the constructor asserts. */
    predicate Valid() {
      (transport.Some? || ssl.Some?) &&
      (transport.None? || ssl.None?) &&
      (isQuic ==> ssl.Some?) &&
      (if transport.Some? then transport.value.destination.HostPort?
       else ssl.value.direct.destination.HostPort?)
    }
  }

  /**
   * The constructor of HttpProxySocketParams. Its checks are debug assertions;
   * an argument combination that would fail one of them yields None.
   */
  function NewHttpProxySocketParams(
    transport: Option<TransportSocketParams>, ssl: Option<SslSocketParams>,
    isQuic: bool, endpoint: HostPortPair, tunnel: bool): (r: Option<HttpProxySocketParams>)
    ensures r.Some? ==> r.value.Valid()
    ensures r.Some? ==> r.value.transport == transport && r.value.ssl == ssl &&
                        r.value.isQuic == isQuic && r.value.endpoint == endpoint && r.value.tunnel == tunnel
    // zero or both transport descriptors are refused
    ensures transport.Some? == ssl.Some? ==> r.None?
    // a QUIC proxy needs TLS parameters
    ensures isQuic && ssl.None? ==> r.None?
    // a scheme-qualified proxy destination is not supported yet
    ensures transport.Some? && transport.value.destination.SchemeHostPort? ==> r.None?
    ensures transport.None? && ssl.Some? && ssl.value.direct.destination.SchemeHostPort? ==> r.None?
    // every combination that passes the checks is accepted
    ensures HttpProxySocketParams(transport, ssl, isQuic, endpoint, tunnel).Valid() ==> r.Some?
  {
    var p := HttpProxySocketParams(transport, ssl, isQuic, endpoint, tunnel);
    if p.Valid() then Some(p) else None
  }

  /** QUIC if the QUIC flag is set, otherwise HTTP with plain transport parameters, otherwise HTTPS. */
  function GetProxyServerScheme(p: HttpProxySocketParams): (s: Scheme)
    ensures s == SchemeQuic <==> p.isQuic
    ensures s == SchemeHttp <==> !p.isQuic && p.transport.Some?
  {
    if p.isQuic then SchemeQuic
    else if p.transport.Some? then SchemeHttp
    else SchemeHttps
  }

  /** For valid parameters the scheme is secure (HTTPS or QUIC) exactly when TLS parameters are present. */
  lemma SchemeIsSecureIffSsl(p: HttpProxySocketParams)
    requires p.Valid()
    ensures GetProxyServerScheme(p) != SchemeHttp <==> p.ssl.Some?
    ensures GetProxyServerScheme(p) == SchemeHttp <==> p.transport.Some?
  {
  }

  /** The proxy's own host/port pair, taken from whichever transport parameters are present. */
  function GetDestination(p: HttpProxySocketParams): (d: HostPortPair)
    requires p.Valid()
    ensures p.transport.Some? ==> p.transport == Some(TransportSocketParams(HostPort(d)))
    ensures p.transport.None? ==> p.ssl.value.direct == TransportSocketParams(HostPort(d))
  {
    if p.transport.Some? then p.transport.value.destination.hostPort
    else p.ssl.value.direct.destination.hostPort
  }

  /**
   * The scheme of the URL the proxy auth controller is created for: "https"
   * when TLS parameters are present, "http" otherwise.
   */
  function AuthTargetScheme(p: HttpProxySocketParams): (s: string)
    ensures s == "https" || s == "http"
    ensures p.Valid() ==> (s == "https" <==> GetProxyServerScheme(p) != SchemeHttp)
  {
    if p.ssl.Some? then "https" else "http"
  }
}
