/**
 * doit of proxy.c (proxy.c:77-165) and of proxy-2.c (proxy-2.c:96-202):
 * one request/response transaction on one client connection. The client
 * socket is the request line (none when the first read returns 0) and the
 * header lines after it; the origin is whether open_clientfd succeeds and
 * the chunks it answers with. What the client receives is returned as a
 * string, and what is sent to the origin as a Forwarded value.
 */
module Worker {
  import opened Options
  import opened Limits
  import opened Text
  import opened UriProxy
  import opened UriProxy2
  import opened ProxyCache
  import opened Relay
  import opened Request
  import opened ErrorPage

  /** What goes to the origin: the address open_clientfd is given, and request_buf with the count Rio_writen sends. */
  datatype Forwarded = Forwarded(host: string, port: string, request: string, count: nat)

  /** The four clienterror calls of doit. */
  datatype Failure = NoRequestData | ReadFailed | HeadersTooLarge | CannotConnect

  /** The arguments of one clienterror call: cause, errnum, shortmsg, longmsg. */
  datatype ErrorText = ErrorText(cause: string, errnum: string, shortmsg: string, longmsg: string)

  /** What doit passes to clienterror for `f` (proxy.c:93, 129, 139, 148; proxy-2.c:118, 162, 173, 185). */
  function FailureText(f: Failure): (e: ErrorText)
    ensures |e.cause| < 30 && |e.errnum| < 30 && |e.shortmsg| < 30 && |e.longmsg| < 40
  {
    match f
    case NoRequestData => ErrorText("No request data", "400", "Bad Request", "Please submit a valid request")
    case ReadFailed => ErrorText("Failed reading request", "400", "Bad Request", "Error reading your request")
    case HeadersTooLarge => ErrorText("Request too large", "413", "Request Entity Too Large", "Your request headers are too long")
    case CannotConnect => ErrorText("Cannot connect", "500", "Internal Server Error", "Could not connect to target server")
  }

  /** The page clienterror sends for `f`, in the look of branding `b`. */
  function FailurePage(b: Branding, f: Failure): (r: string)
    requires b == TinyBranding || b == ProxyBranding
    ensures var e := FailureText(f); Fits(b, e.cause, e.errnum, e.shortmsg, e.longmsg)
    ensures |r| > 0
  {
    var e := FailureText(f);
    BrandingLength(b);
    BodyLength(b, e.cause, e.errnum, e.shortmsg, e.longmsg);
    ErrorResponse(b, e.cause, e.errnum, e.shortmsg, e.longmsg)
  }

  /**
   * A client reading any of doit's error pages gets its status line, the
   * HTML content type and exactly the page body: the Content-length sent is
   * the number of body bytes sent.
   */
  lemma ReadFailurePage(b: Branding, f: Failure)
    requires b == TinyBranding || b == ProxyBranding
    ensures var e := FailureText(f);
      ReadResponse(FailurePage(b, f)) ==
        Some(Reply("HTTP/1.0 " + e.errnum + " " + e.shortmsg, "Content-type: text/html", Body(b, e.cause, e.errnum, e.shortmsg, e.longmsg)))
  {
    var e := FailureText(f);
    StatusHasNoReturn(f);
    ReadErrorResponse(b, e.cause, e.errnum, e.shortmsg, e.longmsg);
  }

  /** None of doit's status codes and reason phrases holds a '\r'. */
  lemma StatusHasNoReturn(f: Failure)
    ensures '\r' !in FailureText(f).errnum && '\r' !in FailureText(f).shortmsg
  {
    match f
    case NoRequestData => NoReturnIn("400"); NoReturnIn("Bad Request");
    case ReadFailed => NoReturnIn("400"); NoReturnIn("Bad Request");
    case HeadersTooLarge => NoReturnIn("413"); NoReturnIn("Request Entity Too Large");
    case CannotConnect => NoReturnIn("500"); NoReturnIn("Internal Server Error");
  }

  lemma NoReturnIn(s: string)
    requires forall i :: 0 <= i < |s| ==> s[i] != '\r'
    ensures '\r' !in s
  {
  }

  /**
   * How the header loop ends for a request whose line was read as `line`
   * and rewritten with the path `path`: total_bytes starts from the length
   * of `line`.
   */
  function HeadersOutcome(line: string, path: string, headers: seq<HeaderLine>): HeaderOutcome
  {
    var rl := ScanRequestLine(line);
    Assemble(|line|, RewriteRequestLine(rl.httpMethod, path, rl.version), headers)
  }

  /** The page sent when the header loop gives up, by its outcome. */
  function HeaderFailure(outcome: HeaderOutcome): Failure
  {
    if outcome == TooLarge then HeadersTooLarge else ReadFailed
  }

  /**
   * doit of proxy.c. A cache hit on the request's URI is answered from the
   * cache. On a miss the request line is rewritten with the path parse_uri
   * finds, the headers are appended, the request goes to the origin and the
   * response is relayed; then whatever was buffered is added to the cache
   * under the URI, even when nothing was (cache_add is called with size 0).
   */
  method Doit(cache: Cache, firstLine: Option<RequestLineText>, headers: seq<HeaderLine>, connects: bool, origin: seq<Chunk>)
    returns (toClient: string, forwarded: Option<Forwarded>)
    requires cache.Valid()
    modifies cache
    ensures cache.Valid()
    ensures firstLine.None? ==>
      toClient == FailurePage(TinyBranding, NoRequestData) && forwarded == None && cache.items == old(cache.items)
    ensures firstLine.Some? && Lookup(old(cache.items), ScanRequestLine(firstLine.value).uri).Some? ==>
      toClient == Lookup(old(cache.items), ScanRequestLine(firstLine.value).uri).value.response &&
      forwarded == None && cache.items == old(cache.items)
    ensures firstLine.Some? && Lookup(old(cache.items), ScanRequestLine(firstLine.value).uri).None? ==>
      var uri := ScanRequestLine(firstLine.value).uri;
      var t := ParseUri(uri);
      var outcome := HeadersOutcome(firstLine.value, t.path, headers);
      if !outcome.Forward? then
        toClient == FailurePage(TinyBranding, HeaderFailure(outcome)) && forwarded == None && cache.items == old(cache.items)
      else if !connects then
        toClient == FailurePage(TinyBranding, CannotConnect) && forwarded == None && cache.items == old(cache.items)
      else
        var kept := Flatten(Accepted(origin));
        forwarded == Some(Forwarded(t.host, t.port, outcome.request, outcome.totalBytes)) &&
        toClient == Flatten(origin) &&
        cache.items == [CachedItem(uri, kept, |kept|)] + old(cache.items)[EvictCount(old(cache.items), |kept|)..]
  {
    if firstLine.None? {
      return FailurePage(TinyBranding, NoRequestData), None;
    }
    var line := firstLine.value;
    var rl := ScanRequestLine(line);
    var item := cache.Search(rl.uri);
    if item.Some? {
      return item.value.response, None;
    }
    var t := ParseUri(rl.uri);
    var rewritten := RewriteRequestLine(rl.httpMethod, t.path, rl.version);
    var outcome := ReadHeaders(rewritten, |line|, headers);
    if !outcome.Forward? {
      return FailurePage(TinyBranding, HeaderFailure(outcome)), None;
    }
    if !connects {
      return FailurePage(TinyBranding, CannotConnect), None;
    }
    forwarded := Some(Forwarded(t.host, t.port, outcome.request, outcome.totalBytes));
    var candidate;
    toClient, candidate := RelayResponse(origin);
    var response := if candidate.Some? then candidate.value else "";
    cache.Add(rl.uri, response);
  }

  /** The key proxy-2.c caches a response under: what parse_uri leaves of the URI in its buffer. */
  function CacheKey2(uri: string): string
  {
    uri[..HostStart(uri)] + Resolve(uri).host
  }

  /**
   * doit of proxy-2.c. As in proxy.c, except that parse_uri cuts the URI in
   * its own buffer, so the response is cached under what is left of it, and
   * only when something was buffered (proxy-2.c:195-199).
   */
  method Doit2(cache: Cache, firstLine: Option<RequestLineText>, headers: seq<HeaderLine>, connects: bool, origin: seq<Chunk>)
    returns (toClient: string, forwarded: Option<Forwarded>)
    requires cache.Valid()
    modifies cache
    ensures cache.Valid()
    ensures firstLine.None? ==>
      toClient == FailurePage(ProxyBranding, NoRequestData) && forwarded == None && cache.items == old(cache.items)
    ensures firstLine.Some? && Lookup(old(cache.items), ScanRequestLine(firstLine.value).uri).Some? ==>
      toClient == Lookup(old(cache.items), ScanRequestLine(firstLine.value).uri).value.response &&
      forwarded == None && cache.items == old(cache.items)
    ensures firstLine.Some? && Lookup(old(cache.items), ScanRequestLine(firstLine.value).uri).None? ==>
      var uri := ScanRequestLine(firstLine.value).uri;
      var t := Resolve(uri);
      var outcome := HeadersOutcome(firstLine.value, t.path, headers);
      if !outcome.Forward? then
        toClient == FailurePage(ProxyBranding, HeaderFailure(outcome)) && forwarded == None && cache.items == old(cache.items)
      else if !connects then
        toClient == FailurePage(ProxyBranding, CannotConnect) && forwarded == None && cache.items == old(cache.items)
      else
        var kept := Flatten(Accepted(origin));
        forwarded == Some(Forwarded(t.host, t.port, outcome.request, outcome.totalBytes)) &&
        toClient == Flatten(origin) &&
        cache.items == if kept == "" then old(cache.items)
          else [CachedItem(CacheKey2(uri), kept, |kept|)] + old(cache.items)[EvictCount(old(cache.items), |kept|)..]
  {
    if firstLine.None? {
      return FailurePage(ProxyBranding, NoRequestData), None;
    }
    var line := firstLine.value;
    var rl := ScanRequestLine(line);
    var item := cache.Search(rl.uri);
    if item.Some? {
      return item.value.response, None;
    }
    var t, key := ParseInUriBuffer(rl.uri);
    var rewritten := RewriteRequestLine(rl.httpMethod, t.path, rl.version);
    var outcome := ReadHeaders(rewritten, |line|, headers);
    if !outcome.Forward? {
      return FailurePage(ProxyBranding, HeaderFailure(outcome)), None;
    }
    if !connects {
      return FailurePage(ProxyBranding, CannotConnect), None;
    }
    forwarded := Some(Forwarded(t.host, t.port, outcome.request, outcome.totalBytes));
    var candidate;
    toClient, candidate := RelayResponse(origin);
    if candidate.Some? {
      cache.Add(key, candidate.value);
    }
  }

  /**
   * parse_uri of proxy-2.c run on doit's own `uri` array: the target, and
   * the C string the array holds afterwards, which is the cache key.
   */
  method ParseInUriBuffer(uri: string) returns (t: Target, key: string)
    requires |uri| < MaxLine && '\0' !in uri
    ensures t == Resolve(uri) && key == CacheKey2(uri)
  {
    var uriBuf := CBuffer(uri);
    t := ParseUriInPlace(uriBuf);
    key := CStr(uriBuf[..]);
  }

  /** The MAXLINE-byte `uri` array after sscanf has stored the word `s` and its NUL in it. */
  method CBuffer(s: string) returns (a: array<char>)
    requires |s| < MaxLine && '\0' !in s
    ensures fresh(a) && a.Length == MaxLine
    ensures '\0' in a[..] && CStr(a[..]) == s
  {
    a := new char[MaxLine];
    forall i | 0 <= i <= |s| {
      a[i] := if i < |s| then s[i] else '\0';
    }
    assert a[..][..|s|] == s;
    CStrEndsAt(a[..], |s|);
  }

  /**
   * A second request for a URI proxy.c has just fetched, with a response
   * that fits MAX_OBJECT_SIZE, finds the cache entry the first one left,
   * holding the bytes the client was sent the first time.
   */
  lemma CachedAsStreamed(old_items: seq<CachedItem>, uri: string, origin: seq<Chunk>)
    requires |Flatten(origin)| <= MaxObjectSize
    ensures var kept := Flatten(Accepted(origin));
      Lookup([CachedItem(uri, kept, |kept|)] + old_items[EvictCount(old_items, |kept|)..], uri) ==
      Some(CachedItem(uri, Flatten(origin), |Flatten(origin)|))
  {
    AcceptedAllIff(origin);
  }

  /**
   * proxy-2.c's key is the URI itself exactly when nothing after the host
   * start is a '/' or a ':'; any path or port is cut off the key.
   */
  lemma CacheKey2Iff(uri: string)
    ensures CacheKey2(uri) == uri <==> '/' !in uri[HostStart(uri)..] && ':' !in uri[HostStart(uri)..]
  {
    var start := HostStart(uri);
    var rest := uri[start..];
    var t := Resolve(uri);
    assert UriProxy2.Describes(uri, t);
    var seg := if '/' in rest then rest[..|rest| - |t.path|] else rest;
    if '/' !in rest && ':' !in rest {
      assert t.host == rest;
      assert uri[..start] + rest == uri;
    } else {
      assert '/' in rest ==> |t.host| <= |seg| < |rest|;
      assert '/' !in rest ==> seg == rest && ':' in seg;
      assert |CacheKey2(uri)| < |uri|;
    }
  }

  /** A request for "http://a.com/x" is cached by proxy-2.c under "http://a.com", so asking again misses. */
  lemma CacheKey2Example(uri: string)
    requires uri == "http://a.com/x"
    ensures CacheKey2(uri) == "http://a.com"
  {
    HostStartExample(uri);
    ResolveExample(uri);
    assert uri[..7] + "a.com" == "http://a.com";
  }

  lemma HostStartExample(uri: string)
    requires uri == "http://a.com/x"
    ensures HostStart(uri) == 7
  {
    assert OccursAt(uri, "://", 4);
    forall j: nat | j < 4
      ensures !OccursAt(uri, "://", j)
    {
      assert uri[j..j + 3][0] == uri[j] != ':';
    }
  }

  lemma ResolveExample(uri: string)
    requires uri == "http://a.com/x"
    ensures Resolve(uri) == Target("a.com", "80", "/x")
  {
    HostStartExample(uri);
    var rest := uri[7..];
    assert rest == "a.com/x";
    var t := Target("a.com", "80", "/x");
    assert rest[5..] == "/x" && rest[..5] == "a.com";
    assert Splits(rest, t);
    DescribesOnlyResolve(uri, t);
  }
}
