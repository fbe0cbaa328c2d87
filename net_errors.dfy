/**
 * The network error codes the proxy connect job reads or produces.
 * The numeric values follow Chromium's net/base/net_error_list.h, which is
 * not part of this model; the proofs rely only on the codes being distinct,
 * on OK being zero and on every error being negative.
 */
module NetErrors {
  const Ok: int := 0
  const ErrIoPending: int := -1
  const ErrFailed: int := -2
  const ErrSocketNotConnected: int := -15
  const ErrConnectionClosed: int := -100
  const ErrConnectionReset: int := -101
  const ErrConnectionAborted: int := -103
  const ErrSslClientAuthCertNeeded: int := -110
  const ErrBadSslClientAuthCert: int := -117
  const ErrProxyAuthRequested: int := -127
  const ErrProxyConnectionFailed: int := -130
  const ErrProxyCertificateInvalid: int := -136
  const ErrSslPinnedKeyNotInCertChain: int := -150
  const ErrUnableToReuseConnectionForProxyAuth: int := -170
  /** First certificate error code (inclusive); codes run downwards from here. */
  const ErrCertBegin: int := -200
  /** Just past the last certificate error code (exclusive). */
  const ErrCertEnd: int := -219
  const ErrHttp11Required: int := -365
  const ErrProxyHttp11Required: int := -366

  /** Certificate errors: the range [ErrCertBegin, ErrCertEnd) counted downwards, plus the pinning error. */
  predicate IsCertificateError(e: int) {
    (ErrCertEnd < e <= ErrCertBegin) || e == ErrSslPinnedKeyNotInCertChain
  }

  /** The errors after which a restart with credentials retries once on a new connection. */
  predicate IsClosedConnectionError(e: int) {
    e == ErrConnectionClosed || e == ErrConnectionReset ||
    e == ErrConnectionAborted || e == ErrSocketNotConnected
  }
}
