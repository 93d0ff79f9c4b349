# Caching web proxy: request pipeline model

This project models the request pipeline of a small multithreaded HTTP
proxy with a response cache. The proxy exists in two variants, `proxy.c`
and `proxy-2.c`. Each variant has its own version of five pieces:

- the URI resolver `parse_uri`, which splits a request target into host,
  port and path;
- the shared response cache, a singly linked list with a running
  `total_size`, and its `cache_search` and `cache_add`;
- `relay_response`, which streams the origin's answer to the client and
  keeps a copy of at most `MAX_OBJECT_SIZE` bytes for the cache;
- the request side of `doit`, which splits the request line with
  `sscanf`, rewrites it, and appends header lines up to the blank line;
- `clienterror`, which writes an HTML error page with a
  `Content-length` header.

`doit` itself is modelled for both variants. Sockets are sequences:
- the client is a request line plus header lines;
- the origin is a success flag for `open_clientfd` plus the chunks it
  answers with;
- what the client and the origin receive is returned.

Modules, one file each:

- `Options` holds an option type.
- `Limits` holds `MAX_CACHE_SIZE`, `MAX_OBJECT_SIZE`, `MAXLINE` and `MAXBUF`.
- `Text` models the C string routines the code calls: `strchr`,
  `strpbrk`, `strstr`, the NUL terminator, `%[0-9]` and `%d`.
- `UriProxy` models `parse_uri` of `proxy.c`, a pure function.
- `UriProxy2` models `parse_uri` of `proxy-2.c`. That version writes NULs
  into an array, so the model is a method over the array.
- `ProxyCache` models the cache as a class holding a head-first `seq` of
  items and `totalSize`.
- `Relay` models `relay_response`; its loop fills a `MAX_OBJECT_SIZE` array.
- `Request` models request-line splitting, the rewrite and the header
  loop.
- `ErrorPage` models `clienterror`.
- `Worker` models `doit` of both variants.

Behaviour of the code that the model keeps and proves:

- **Eviction order.** `cache_add` pushes new items at the head and also
  evicts from the head, so the most recently added items go first. The
  code comments say the oldest go first (`ProxyCache.EvictsNewestFirst`).
- **Partial buffering.** The relay skips a chunk that does not fit the
  remaining room and may still keep a later, smaller one. The cached
  copy can therefore splice non-adjacent bytes (`Relay.Splices`). A
  response larger than `MAX_OBJECT_SIZE` is still offered to the cache,
  truncated (`Relay.OversizedStillOffered`).
- **Empty responses.** `proxy.c` calls `cache_add` even when nothing was
  buffered, so it caches an empty response. `proxy-2.c` caches only
  when `response_size > 0`.
- **Cache key in `proxy-2.c`.** `parse_uri` writes NULs into the `uri`
  buffer, so the response is cached under the URI cut after the host.
  A request for `http://a.com/x` is stored under `http://a.com`
  (`Worker.CacheKey2Example`, `Worker.CacheKey2Iff`).
- **Forwarded byte count.** `total_bytes` starts from the length of the
  request line as read, not as rewritten. The count sent to the origin
  therefore differs from the assembled request's length by the
  difference between those two (`Request.ForwardedCount`).

## Model

| member | source | states |
|---|---|---|
| `UriProxy.ParseUri` | proxy.c:170-211 | A target containing "http://" anywhere gets a host starting 7 characters in and port "80". Failing that, one containing "https://" gets an offset of 8 and port "443"; otherwise offset 0 and port "80". The host is the longest prefix free of '/' and ':'. The path is the suffix from the first '/', else "/". |
| `UriProxy.SplitHost` | proxy.c:186-208 | After the host start: the host is cut at the first '/' or ':'. A ':' followed by digits makes the port the maximal digit run; otherwise the default port stays. The path is the suffix from the first '/', or "/". |
| `UriProxy.HostOf` | proxy.c:186-199 | The hostname is the longest prefix of the text after the host start holding neither '/' nor ':'. |
| `UriProxy.PortAfter` | proxy.c:193-196 | After a ':' that starts a run of digits, the port is that whole run. Otherwise, including a ':' followed by no digit, the default port stays. |
| `UriProxy.PathFrom` | proxy.c:203-208 | The path is the suffix from the first '/', or "/" when there is none. |
| `UriProxy.DescribesOnlyParseUri` | proxy.c:170-211 | The resolution rules admit exactly one target, the one `ParseUri` returns. |
| `UriProxy.ExampleWithPort` | proxy.c:193-199 | "http://a.com:8080/x" resolves to host "a.com", port "8080", path "/x". |
| `UriProxy.ExampleBareHost` | proxy.c:180-183 | "a.com/x", with no scheme, resolves to host "a.com", port "80", path "/x". |
| `UriProxy.ExampleNoPath` | proxy.c:186-191 | "http://a.com", with no '/' or ':' after the host, resolves to host "a.com" and path "/". |
| `UriProxy2.HostStart` | proxy-2.c:226-230 | The host starts 3 characters after the first "://", or at 0 when there is none. |
| `UriProxy2.Resolve` | proxy-2.c:223-247 | The port defaults to "80". The path is the suffix from the first '/' after the host start, else "/". In the text before it, the first ':' ends the host, and everything after that ':' is the port, digits or not. |
| `UriProxy2.DescribesOnlyResolve` | proxy-2.c:223-247 | The proxy-2.c rules admit exactly one target, the one `Resolve` returns. |
| `UriProxy2.SplitPath` | proxy-2.c:233-238 | The path is the suffix from the first '/' after the host start, else "/". The host segment is what precedes it. |
| `UriProxy2.SplitPort` | proxy-2.c:241-244 | The first ':' of the host segment ends the hostname, and everything after it is the port. Without a ':' the port is "80". |
| `UriProxy2.ParseUriInPlace` | proxy-2.c:208-248 | Returns `Resolve` of the C string in the buffer. Afterwards the buffer holds the text before the host followed by the hostname. The buffer changed only at the '/' and ':' positions, which now hold NUL. |
| `UriProxy2.TerminatePath` | proxy-2.c:233-238 | Copies the path from the first '/' after the host start and writes a NUL there, and nothing else. |
| `UriProxy2.TerminatePort` | proxy-2.c:241-247 | Cuts the host segment at its first ':'. The port is the rest of the segment; the hostname is what remains. |
| `UriProxy2.CutPort` | proxy-2.c:241-243 | Writing NUL over the ':' changes only that cell. The port copied after it is the segment's text up to the NUL that ends it. |
| `ProxyCache.Lookup` | proxy.c:306-316 | The result is an item at the first index whose URI matches, or none when no item matches. |
| `ProxyCache.LookupFirstMatch` | proxy.c:306-316 | `Lookup` returns the item at the first index holding the URI. |
| `ProxyCache.EvictCount` | proxy.c:327-334 | The number of head pops never exceeds the list's length, so the loop never pops an empty list. |
| `ProxyCache.EvictCountFits` | proxy.c:327-334 | After the pops, the remaining items plus the new object fit within `MAX_CACHE_SIZE`. |
| `ProxyCache.EvictCountMinimal` | proxy-2.c:401-411 | With fewer pops the new object would not fit, so no item is evicted without need. |
| `ProxyCache.EvictsNewestFirst` | proxy-2.c:401-411 | The pops take the items nearest the head, the most recently added. With a 600000-byte newer item and a 400000-byte older one, adding 500000 bytes evicts the newer and keeps the older. |
| `ProxyCache.Cache.constructor` | proxy.c:298-302 | `cache_init`: an empty list with total 0, which satisfies the invariant. |
| `ProxyCache.Cache.Search` | proxy.c:306-316 | `cache_search` walks from the head and returns exactly `Lookup`: the first item with that URI. |
| `ProxyCache.Cache.Add` | proxy.c:320-345 | Keeps `totalSize` equal to the sum of sizes and at most `MAX_CACHE_SIZE`. An object over `MAX_CACHE_SIZE` leaves the list unchanged. Otherwise the new list is the new item followed by the old list minus its first `EvictCount` items, and a search for the URI returns the new item. |
| `Relay.Accepted` | proxy.c:229-236 | The chunks let in by `total + n <= MAX_OBJECT_SIZE`, in order. Together they never exceed `MAX_OBJECT_SIZE`. |
| `Relay.RelayResponse` | proxy.c:214-251 | Every chunk is forwarded unchanged and in order. The candidate is the accepted chunks concatenated, or none when that is empty. |
| `Relay.Append` | proxy.c:232-233 | The buffer's first `total` bytes are followed by the chunk, and `total` grows by its length. The cells past the new `total` keep their old contents. |
| `Relay.AcceptedAllIff` | proxy.c:229-236 | The buffer keeps every chunk exactly when the whole response fits `MAX_OBJECT_SIZE`. |
| `Relay.Splices` | proxy-2.c:279-289 | A chunk that does not fit is skipped, and a later chunk that fits is still appended. |
| `Relay.OversizedStillOffered` | proxy-2.c:279-302 | A response over `MAX_OBJECT_SIZE` still leaves a non-empty buffer that is shorter than the response. |
| `Request.ScanRequestLine` | proxy.c:96 | The URI word `sscanf` stores is no longer than the line and holds no NUL. |
| `Request.RewriteRequestLine` | proxy.c:113 | The rewritten line is below `MAXLINE` and is a prefix of "method path version\r\n". It is all of it when that fits, and exactly its first `MAXLINE`-1 characters when it does not. |
| `Request.ScanRewriteRoundTrip` | proxy.c:113 | Splitting the rewritten line gives back its method, path and version, when these are words and the line fits. |
| `Request.ReadHeaders` | proxy.c:117-141 | The header loop ends as `Assemble` says. |
| `Request.AssembleMatches` | proxy.c:117-141 | The loop's outcome depends only on the lines up to the first blank one. If their bytes bring the count to `MAXLINE` the answer is 413; otherwise a blank line yields the request followed by those lines, and no blank line yields 400. |
| `Request.AssembleOutcome` | proxy-2.c:153-176 | The loop forwards exactly when a "\r\n" line arrives and the lines up to it keep the count below `MAXLINE`. The request is then the rewritten line followed by those lines in order. It answers 413 exactly when those lines reach `MAXLINE`, and 400 exactly when the stream ends first. |
| `Request.ForwardedCount` | proxy.c:114-153 | On success `total_bytes < MAXLINE`. It exceeds the request's length by the request line's length as read minus its length as rewritten. |
| `ErrorPage.ErrorResponse` | proxy.c:256-281 | The response ends with the page body. |
| `ErrorPage.ReadErrorResponse` | proxy-2.c:310-332 | Reading the response back gives the status line, "Content-type: text/html" and exactly the page body. The Content-length equals the number of body bytes sent. |
| `Text.DecimalRoundTrip` | proxy.c:277 | The digits `%d` prints for a count read back as that count. |
| `Worker.FailurePage` | proxy.c:93-148 | Each of doit's four error pages is a non-empty response. Its arguments fit the `MAXBUF` body buffer and the `MAXLINE` status line buffer. |
| `Worker.ReadFailurePage` | proxy.c:93-148 | A client reading any of doit's four error pages gets its status line, "Content-type: text/html" and exactly the page body. The Content-length equals the number of body bytes sent. |
| `Worker.Doit` | proxy.c:77-165 | An empty first read gives 400. A cache hit sends the cached bytes and changes nothing. On a miss, a 400 or 413 from the header loop, or a failed connect (500), leaves the cache unchanged. Otherwise the origin gets the rewritten request and its count, the client gets every response byte, and the buffered copy, empty or not, is added under the URI. |
| `Worker.Doit2` | proxy-2.c:96-202 | As `Doit`, with proxy-2.c's resolver and pages. The copy is added only when non-empty, under `CacheKey2` of the URI. |
| `Worker.ParseInUriBuffer` | proxy-2.c:141 | Running `parse_uri` on doit's `uri` array gives `Resolve(uri)`, and leaves the array holding `CacheKey2(uri)`. |
| `Worker.CBuffer` | proxy-2.c:124 | The `uri` array after `sscanf` holds the word as its C string. |
| `Worker.CachedAsStreamed` | proxy.c:157-163 | After a miss whose response fits `MAX_OBJECT_SIZE`, looking the URI up returns exactly the bytes the client was sent. |
| `Worker.CacheKey2Iff` | proxy-2.c:197 | The proxy-2.c key equals the URI exactly when no '/' or ':' follows the host start. |
| `Worker.CacheKey2Example` | proxy-2.c:197 | "http://a.com/x" is cached under "http://a.com". |

## Left out

- `main`, the accept loop, `thread_function` and the pthread mutex are left out. They are concurrency and socket plumbing, and each cache call is modelled as one atomic step.
- `ProxyCache.Cache.Search` returns the item's value rather than a pointer into the list. The pointer can be freed by another thread's eviction before `doit` reads it, but that needs concurrency, which is not modelled.
- `Rio_readlineb`, `Rio_readn`, `Rio_writen`, `open_clientfd` and `Close` are replaced by sequences. The client is an optional request line plus header lines. The origin is a connect flag plus chunks. What is written is returned.
- `Relay.RelayResponse` accepts chunks of any size from 1 to `MAXLINE`. `Rio_readn` in fact returns full `MAXLINE` chunks until the last one, so the model covers more inputs than occur.
- `Request.HeaderLine` lines hold no NUL byte. A NUL-bearing line would make `strcmp` and `strcat` see a shorter string than `bytes2` counts; that case is not modelled.
- `Request.ScanRequestLine` gives the empty string for a word the line runs out before. In C that word's array keeps whatever it held.
- `Request.ReadHeaders` tests the line it has just read. The source's first test compares `line_buf` before anything was read into it, which reads uninitialised memory.
- `Request.ReadHeaders` appends to an unbounded string. It does not model `request_buf`'s `MAXLINE` capacity, which `strcat` can overrun when the rewritten line is longer than the line as read.
- `Worker.Doit` reports the forwarded request and its byte count. It does not model the stale buffer bytes `Rio_writen` sends past the string when the count is larger.
- `ErrorPage.ErrorResponse` requires the page to fit `body[MAXBUF]` and the status line to fit `buf[MAXLINE]`. With longer arguments `sizeof(body) - body_length` wraps around in the source. Every call in `doit` passes short constants (`Worker.FailurePage`).
- Failure of `malloc` and `realloc` in `relay_response`, and of `malloc` and `strdup` in `cache_add`, is not modelled; allocation always succeeds.
- `printf` and `perror` diagnostics are left out.
- The C byte buffers (`char` arrays, the cached objects, the relayed chunks) are modelled as Dafny `string`s and `char` arrays. A length is a count of `char`s, which here stands for a count of bytes. Dafny's `char` is wider than a byte, but no modelled operation depends on a character's value beyond comparing it with ASCII constants.
- `MAXLINE` and `MAXBUF` come from `csapp.h`, which is not part of this model. Both are taken as 8192.
- `tiny/cgi-bin/adder.c` and `.proxy/tiny.c` are the origin-side example server, not part of the proxy.
