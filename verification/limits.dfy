/** The fixed sizes the proxy is built around. */
module Limits {

  /** MAX_CACHE_SIZE: total bytes of responses the cache may hold (proxy.c:4, proxy-2.c:9). */
  const MaxCacheSize: nat := 1049000

  /** MAX_OBJECT_SIZE: the largest response the relay buffers for the cache (proxy.c:5, proxy-2.c:10). */
  const MaxObjectSize: nat := 102400

  /** MAXLINE from the CS:APP header csapp.h: the size of every line and request buffer. */
  const MaxLine: nat := 8192

  /** MAXBUF from the CS:APP header csapp.h: the size of the error-page body buffer. */
  const MaxBuf: nat := 8192
}
