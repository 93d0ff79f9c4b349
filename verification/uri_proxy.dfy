/**
 * parse_uri of proxy.c: splits a request target into hostname, port and
 * pathname without touching the target itself, so it is a function here.
 */
module UriProxy {
  import opened Options
  import opened Text

  /** Where a request goes: the hostname, the port (as text) and the pathname. */
  datatype Target = Target(host: string, port: string, path: string)

  /**
   * The resolution rules of proxy.c:170-211. "http://" anywhere in the target
   * puts the host seven characters from the start with port 80; failing that,
   * "https://" anywhere puts it eight characters in with port 443; otherwise
   * the host starts at the beginning with port 80.
   */
  ghost predicate Describes(uri: string, t: Target)
  {
    if Contains(uri, "http://") then SplitsAt(uri, 7, "80", t)
    else if Contains(uri, "https://") then SplitsAt(uri, 8, "443", t)
    else SplitsAt(uri, 0, "80", t)
  }

  /** `t` is what the rules read from `uri` when the host begins at `start` and the default port is `defaultPort`. */
  ghost predicate SplitsAt(uri: string, start: nat, defaultPort: string, t: Target)
  {
    start <= |uri| &&
    var rest := uri[start..];
    HostPrefix(rest, t.host) && PathOf(rest, t.path) && PortOf(rest[|t.host|..], defaultPort, t.port)
  }

  /** The host is the longest prefix of `rest` holding neither '/' nor ':'. */
  ghost predicate HostPrefix(rest: string, host: string)
  {
    |host| <= |rest| && host == rest[..|host|] && '/' !in host && ':' !in host &&
    (|host| < |rest| ==> rest[|host|] == '/' || rest[|host|] == ':')
  }

  /** The path is the suffix from the first '/' of `rest`, or "/" when there is none. */
  ghost predicate PathOf(rest: string, path: string)
  {
    if '/' in rest then
      0 < |path| <= |rest| && path == rest[|rest| - |path|..] && path[0] == '/' &&
      '/' !in rest[..|rest| - |path|]
    else path == "/"
  }

  /**
   * `after` is what follows the host. A ':' followed by at least one digit
   * makes the port the whole run of digits; anything else keeps the default.
   */
  ghost predicate PortOf(after: string, defaultPort: string, port: string)
  {
    if 1 < |after| && after[0] == ':' && IsDigit(after[1]) then
      0 < |port| < |after| && port == after[1..|port| + 1] && AllDigits(port) &&
      (|port| + 1 < |after| ==> !IsDigit(after[|port| + 1]))
    else port == defaultPort
  }

  /** parse_uri (proxy.c:170-211). */
  function ParseUri(uri: string): (t: Target)
    ensures Describes(uri, t)
  {
    if Find(uri, "http://").Some? then SplitHost(uri[7..], "80")
    else if Find(uri, "https://").Some? then SplitHost(uri[8..], "443")
    else SplitHost(uri, "80")
  }

  /** The part of parse_uri after the host start is known (proxy.c:186-208). */
  function SplitHost(rest: string, defaultPort: string): (t: Target)
    ensures HostPrefix(rest, t.host)
    ensures PathOf(rest, t.path)
    ensures PortOf(rest[|t.host|..], defaultPort, t.port)
  {
    var host := HostOf(rest);
    Target(host, PortAfter(rest[|host|..], defaultPort), PathFrom(rest))
  }

  /** strpbrk(hostbegin, "/:"): the hostname runs up to the first '/' or ':'. */
  function HostOf(rest: string): (host: string)
    ensures HostPrefix(rest, host)
  {
    match IndexOfEither(rest, '/', ':')
    case None => rest
    case Some(e) => rest[..e]
  }

  /** strchr(hostbegin, '/'): the path is the suffix from the first '/', else "/". */
  function PathFrom(rest: string): (path: string)
    ensures PathOf(rest, path)
  {
    match IndexOf(rest, '/')
    case None => "/"
    case Some(p) => rest[p..]
  }

  /** sscanf(hostend + 1, "%[0-9]", port): the digits after a ':', or the default when there are none. */
  function PortAfter(after: string, defaultPort: string): (port: string)
    ensures PortOf(after, defaultPort, port)
  {
    if after != [] && after[0] == ':' then
      var digits := DigitRun(after[1..]);
      if digits == "" then defaultPort else digits
    else defaultPort
  }

  /** The rules leave no choice: ParseUri is the only target they describe. */
  lemma DescribesOnlyParseUri(uri: string, t: Target)
    requires Describes(uri, t)
    ensures t == ParseUri(uri)
  {
    var start := if Contains(uri, "http://") then 7 else if Contains(uri, "https://") then 8 else 0;
    var rest := uri[start..];
    var p := ParseUri(uri);
    assert SplitsAt(uri, start, if start == 8 then "443" else "80", p);
    HostPrefixUnique(rest, t.host, p.host);
    PathOfUnique(rest, t.path, p.path);
    PortOfUnique(rest[|t.host|..], if start == 8 then "443" else "80", t.port, p.port);
  }

  lemma HostPrefixUnique(rest: string, h1: string, h2: string)
    requires HostPrefix(rest, h1) && HostPrefix(rest, h2)
    ensures h1 == h2
  {
    assert forall k :: 0 <= k < |h1| ==> h1[k] == rest[k];
    assert forall k :: 0 <= k < |h2| ==> h2[k] == rest[k];
  }

  lemma PathOfUnique(rest: string, p1: string, p2: string)
    requires PathOf(rest, p1) && PathOf(rest, p2)
    ensures p1 == p2
  {
    if '/' in rest {
      assert rest[|rest| - |p1|] == '/' && rest[|rest| - |p2|] == '/';
      assert forall k :: 0 <= k < |rest| - |p1| ==> rest[k] != '/';
      assert forall k :: 0 <= k < |rest| - |p2| ==> rest[k] != '/';
    }
  }

  lemma PortOfUnique(after: string, defaultPort: string, p1: string, p2: string)
    requires PortOf(after, defaultPort, p1) && PortOf(after, defaultPort, p2)
    ensures p1 == p2
  {
    if 1 < |after| && after[0] == ':' && IsDigit(after[1]) {
      assert forall k :: 0 <= k < |p1| ==> p1[k] == after[k + 1];
      assert forall k :: 0 <= k < |p2| ==> p2[k] == after[k + 1];
    }
  }

  /** An absolute URI with a port and a path. */
  lemma ExampleWithPort(uri: string)
    requires uri == "http://a.com:8080/x"
    ensures ParseUri(uri) == Target("a.com", "8080", "/x")
  {
    assert OccursAt(uri, "http://", 0);
    var rest := uri[7..];
    assert rest == "a.com:8080/x";
    ExampleWithPortParts(rest);
    DescribesOnlyParseUri(uri, Target("a.com", "8080", "/x"));
  }

  lemma ExampleWithPortParts(rest: string)
    requires rest == "a.com:8080/x"
    ensures HostPrefix(rest, "a.com") && PathOf(rest, "/x") && PortOf(rest[5..], "80", "8080")
  {
    assert rest[..5] == "a.com";
    assert rest[10..] == "/x" && '/' !in rest[..10];
    var after := rest[5..];
    assert after[1..5] == rest[6..10];
    assert rest[6..10] == "8080";
    assert after[0] == ':' && after[5] == '/';
  }

  /** A bare host with a path keeps port 80. */
  lemma ExampleBareHost(uri: string)
    requires uri == "a.com/x"
    ensures ParseUri(uri) == Target("a.com", "80", "/x")
  {
    forall j: nat
      ensures !OccursAt(uri, "http://", j) && !OccursAt(uri, "https://", j)
    {
      if j == 0 {
        assert uri[0..7][0] == uri[0];
      }
    }
    assert uri[..5] == "a.com" && uri[5..] == "/x";
    DescribesOnlyParseUri(uri, Target("a.com", "80", "/x"));
  }

  /** An absolute URI without a path gets path "/". */
  lemma ExampleNoPath(uri: string)
    requires uri == "http://a.com"
    ensures ParseUri(uri) == Target("a.com", "80", "/")
  {
    assert OccursAt(uri, "http://", 0);
    assert uri[7..] == "a.com";
    DescribesOnlyParseUri(uri, Target("a.com", "80", "/"));
  }
}
