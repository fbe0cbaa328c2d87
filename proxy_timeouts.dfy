/**
 * The adaptive timeout of the nested transport phase: a multiple of the
 * network's HTTP round-trip-time estimate, clamped to configured bounds.
 * Durations are base::TimeDelta values, i.e. signed 64-bit microsecond counts.
 */
module ProxyTimeouts {
  import opened Wrappers
  import opened ProxyParams

  const MicrosPerSecond: int := 1_000_000
  const Int64Max: int := 0x7fff_ffff_ffff_ffff
  const Int64Min: int := -0x8000_0000_0000_0000

  function Seconds(s: int): int { s * MicrosPerSecond }

  datatype Platform = Android | Ios | OtherPlatform

  predicate IsMobile(p: Platform) { p == Android || p == Ios }

  /** Time allowed for the tunnel handshake once the transport is up. */
  function TunnelTimeout(p: Platform): int {
    if IsMobile(p) then Seconds(10) else Seconds(30)
  }

  /** Transport-phase timeout without an RTT estimate: the tunnel timeout on mobile, none elsewhere. */
  function DefaultAlternateTimeout(p: Platform): int {
    if IsMobile(p) then TunnelTimeout(p) else 0
  }

  /** The four integer field-trial parameters, each absent when unset or unparsable. */
  datatype FieldTrialParams = FieldTrialParams(
    minTimeoutSeconds: Option<int>, maxTimeoutSeconds: Option<int>,
    sslRttMultiplier: Option<int>, nonSslRttMultiplier: Option<int>)

  const NoFieldTrial := FieldTrialParams(None, None, None, None)

  datatype TimeoutConfig = TimeoutConfig(
    minTimeout: int, maxTimeout: int, sslRttMultiplier: int, nonSslRttMultiplier: int)
  {
    /** What the configuration's initialiser asserts, and that the bounds are TimeDelta values. */
    predicate Valid() {
      0 < sslRttMultiplier && 0 < nonSslRttMultiplier &&
      0 <= minTimeout <= maxTimeout <= Int64Max
    }
  }

  /** HttpProxyTimeoutExperiments::Init: each parameter falls back to its default. */
  function InitTimeoutConfig(f: FieldTrialParams): (c: TimeoutConfig)
    ensures c.minTimeout == Seconds(if f.minTimeoutSeconds.Some? then f.minTimeoutSeconds.value else 8)
    ensures c.maxTimeout == Seconds(if f.maxTimeoutSeconds.Some? then f.maxTimeoutSeconds.value else 30)
    ensures c.sslRttMultiplier == (if f.sslRttMultiplier.Some? then f.sslRttMultiplier.value else 10)
    ensures c.nonSslRttMultiplier == (if f.nonSslRttMultiplier.Some? then f.nonSslRttMultiplier.value else 5)
  {
    TimeoutConfig(
      Seconds(f.minTimeoutSeconds.GetOr(8)), Seconds(f.maxTimeoutSeconds.GetOr(30)),
      f.sslRttMultiplier.GetOr(10), f.nonSslRttMultiplier.GetOr(5))
  }

  /** Without field-trial overrides the configuration is valid, with bounds [8s, 30s] and multipliers 10 and 5. */
  lemma DefaultConfigIsValid()
    ensures InitTimeoutConfig(NoFieldTrial).Valid()
    ensures InitTimeoutConfig(NoFieldTrial) == TimeoutConfig(Seconds(8), Seconds(30), 10, 5)
  {
  }

  /** base::clamp(v, lo, hi). */
  function Clamp(v: int, lo: int, hi: int): (r: int)
    requires lo <= hi
    ensures lo <= r <= hi
    ensures lo <= v <= hi ==> r == v
    ensures v < lo ==> r == lo
    ensures hi < v ==> r == hi
  {
    if v < lo then lo else if hi < v then hi else v
  }

  /** TimeDelta multiplication by an integer, which saturates at the int64 bounds. */
  function SaturatedMul(m: int, d: int): (r: int)
    ensures Int64Min <= r <= Int64Max
    ensures Int64Min <= m * d <= Int64Max ==> r == m * d
  {
    var p := m * d;
    if p > Int64Max then Int64Max else if p < Int64Min then Int64Min else p
  }

  /** The network quality estimator; its HTTP RTT estimate may be absent. */
  datatype QualityEstimator = QualityEstimator(httpRtt: Option<int>)

  function RttEstimate(nqe: Option<QualityEstimator>): Option<int> {
    if nqe.Some? then nqe.value.httpRtt else None
  }

  function RttMultiplier(c: TimeoutConfig, isHttps: bool): int {
    if isHttps then c.sslRttMultiplier else c.nonSslRttMultiplier
  }

  /**
   * The timeout of the nested transport phase. With an RTT estimate it is the
   * multiplier (SSL one for an HTTPS proxy) times the estimate, clamped to the
   * configured bounds; without an estimator or an estimate it is the platform
   * default. Saturation of the multiplication is invisible after clamping.
   */
  function AlternateNestedConnectionTimeout(
    c: TimeoutConfig, platform: Platform, params: HttpProxySocketParams,
    nqe: Option<QualityEstimator>): (t: int)
    requires c.Valid()
    ensures RttEstimate(nqe).None? ==> t == DefaultAlternateTimeout(platform)
    ensures RttEstimate(nqe).Some? ==> c.minTimeout <= t <= c.maxTimeout
    ensures RttEstimate(nqe).Some? ==>
      t == Clamp(RttMultiplier(c, params.ssl.Some?) * RttEstimate(nqe).value, c.minTimeout, c.maxTimeout)
  {
    var isHttps := params.ssl.Some?;
    if nqe.None? then DefaultAlternateTimeout(platform)
    else if nqe.value.httpRtt.None? then DefaultAlternateTimeout(platform)
    else
      var timeout := SaturatedMul(RttMultiplier(c, isHttps), nqe.value.httpRtt.value);
      ClampSaturationInvisible(RttMultiplier(c, isHttps), nqe.value.httpRtt.value, c.minTimeout, c.maxTimeout);
      Clamp(timeout, c.minTimeout, c.maxTimeout)
  }

  /** Clamping to bounds inside the int64 range gives the same value for the saturated and the exact product. */
  lemma ClampSaturationInvisible(m: int, d: int, lo: int, hi: int)
    requires Int64Min <= lo <= hi <= Int64Max
    ensures Clamp(SaturatedMul(m, d), lo, hi) == Clamp(m * d, lo, hi)
  {
  }

  /** A larger RTT estimate never gives a shorter transport-phase timeout. */
  lemma TimeoutMonotoneInRtt(
    c: TimeoutConfig, platform: Platform, params: HttpProxySocketParams, rtt1: int, rtt2: int)
    requires c.Valid() && 0 <= rtt1 <= rtt2
    ensures AlternateNestedConnectionTimeout(c, platform, params, Some(QualityEstimator(Some(rtt1))))
         <= AlternateNestedConnectionTimeout(c, platform, params, Some(QualityEstimator(Some(rtt2))))
  {
    var m := RttMultiplier(c, params.ssl.Some?);
    assert m * rtt1 <= m * rtt2 by {
      MulMonotone(m, rtt1, rtt2);
    }
  }

  lemma MulMonotone(m: int, a: int, b: int)
    requires 0 < m && a <= b
    ensures m * a <= m * b
  {
  }

  /**
   * When the SSL multiplier is at least the non-SSL one (as with the
   * defaults), an HTTPS proxy never gets a shorter timeout than an HTTP proxy
   * for the same RTT estimate.
   */
  lemma SecureTimeoutAtLeastInsecure(
    c: TimeoutConfig, platform: Platform, https: HttpProxySocketParams, http: HttpProxySocketParams, rtt: int)
    requires c.Valid() && 0 <= rtt && c.nonSslRttMultiplier <= c.sslRttMultiplier
    requires https.ssl.Some? && http.ssl.None?
    ensures AlternateNestedConnectionTimeout(c, platform, http, Some(QualityEstimator(Some(rtt))))
         <= AlternateNestedConnectionTimeout(c, platform, https, Some(QualityEstimator(Some(rtt))))
  {
    assert c.nonSslRttMultiplier * rtt <= c.sslRttMultiplier * rtt by {
      MulMonotoneLeft(c.nonSslRttMultiplier, c.sslRttMultiplier, rtt);
    }
  }

  lemma MulMonotoneLeft(m1: int, m2: int, d: int)
    requires m1 <= m2 && 0 <= d
    ensures m1 * d <= m2 * d
  {
  }

  /**
   * With the default configuration and a secure proxy: an RTT of 2s gives
   * 20s, an RTT of 10s is clamped to 30s, an RTT of 100ms is raised to 8s.
   */
  lemma DefaultSecureTimeoutExamples(platform: Platform, params: HttpProxySocketParams)
    requires params.ssl.Some?
    ensures AlternateNestedConnectionTimeout(InitTimeoutConfig(NoFieldTrial), platform, params,
              Some(QualityEstimator(Some(Seconds(2))))) == Seconds(20)
    ensures AlternateNestedConnectionTimeout(InitTimeoutConfig(NoFieldTrial), platform, params,
              Some(QualityEstimator(Some(Seconds(10))))) == Seconds(30)
    ensures AlternateNestedConnectionTimeout(InitTimeoutConfig(NoFieldTrial), platform, params,
              Some(QualityEstimator(Some(100_000)))) == Seconds(8)
  {
  }
}
