/**
 * parse_uri of proxy-2.c: the same split into hostname, port and pathname,
 * with different rules, done by writing NUL characters into the caller's
 * request-target buffer. The buffer is an array here, and the method says
 * what the caller's C string holds afterwards.
 */
module UriProxy2 {
  import opened Options
  import opened Text
  import opened UriProxy

  /** Where the host begins: three characters after the first "://", or at the start (proxy-2.c:226-230). */
  function HostStart(s: string): (start: nat)
    ensures start <= |s|
    ensures Contains(s, "://") ==> 3 <= start && OccursAt(s, "://", start - 3)
    ensures Contains(s, "://") ==> forall j: nat :: j < start - 3 ==> !OccursAt(s, "://", j)
    ensures !Contains(s, "://") ==> start == 0
  {
    match Find(s, "://")
    case Some(i) => i + 3
    case None => 0
  }

  /**
   * The rules of proxy-2.c:223-247 for the text `rest` after the host start:
   * the path is the suffix from the first '/', else "/"; in what comes before
   * that '/', the first ':' ends the host and EVERYTHING after it is the
   * port (digits or not); without a ':' the port is "80".
   */
  ghost predicate Splits(rest: string, t: Target)
  {
    PathOf(rest, t.path) && HostPortOf(SegmentOf(rest, t.path), t.host, t.port)
  }

  /** The host segment: what precedes the path, or all of `rest` when it has no '/'. */
  function SegmentOf(rest: string, path: string): string
  {
    if '/' in rest && |path| <= |rest| then rest[..|rest| - |path|] else rest
  }

  /** In the host segment the first ':' ends the host and the rest is the port; without one the port is "80". */
  ghost predicate HostPortOf(seg: string, host: string, port: string)
  {
    if ':' in seg then
      |host| < |seg| && host == seg[..|host|] && ':' !in host && seg[|host|] == ':' && port == seg[|host| + 1..]
    else host == seg && port == "80"
  }

  /** What the rules of proxy-2.c read from the target `s`. */
  ghost predicate Describes(s: string, t: Target)
  {
    Splits(s[HostStart(s)..], t)
  }

  /** The target proxy-2.c's rules read from `s`, computed on the string without touching a buffer. */
  function Resolve(s: string): (t: Target)
    ensures Describes(s, t)
  {
    var rest := s[HostStart(s)..];
    var sp := SplitPath(rest);
    var hp := SplitPort(sp.0);
    Target(hp.0, hp.1, sp.1)
  }

  /** The host segment and the path: split at the first '/', else all segment and path "/". */
  function SplitPath(rest: string): (r: (string, string))
    ensures PathOf(rest, r.1) && r.0 == SegmentOf(rest, r.1)
  {
    match IndexOf(rest, '/')
    case Some(p) => (rest[..p], rest[p..])
    case None => (rest, "/")
  }

  /** The hostname and the port: split at the first ':' of the segment, else all hostname and port "80". */
  function SplitPort(seg: string): (r: (string, string))
    ensures HostPortOf(seg, r.0, r.1)
  {
    match IndexOf(seg, ':')
    case Some(q) => (seg[..q], seg[q + 1..])
    case None => (seg, "80")
  }

  /** The rules leave no choice: Resolve is the only target they describe for `s`. */
  lemma DescribesOnlyResolve(s: string, t: Target)
    requires Describes(s, t)
    ensures t == Resolve(s)
  {
    var rest := s[HostStart(s)..];
    var r := Resolve(s);
    PathOfUnique(rest, t.path, r.path);
    HostPortUnique(SegmentOf(rest, t.path), t.host, t.port, r.host, r.port);
  }

  lemma HostPortUnique(seg: string, h1: string, p1: string, h2: string, p2: string)
    requires HostPortOf(seg, h1, p1) && HostPortOf(seg, h2, p2)
    ensures h1 == h2 && p1 == p2
  {
    if ':' in seg {
      FirstColonUnique(seg, h1, h2);
    }
  }

  lemma FirstColonUnique(seg: string, h1: string, h2: string)
    requires |h1| < |seg| && h1 == seg[..|h1|] && ':' !in h1 && seg[|h1|] == ':'
    requires |h2| < |seg| && h2 == seg[..|h2|] && ':' !in h2 && seg[|h2|] == ':'
    ensures h1 == h2
  {
    assert forall k :: 0 <= k < |h1| ==> h1[k] == seg[k];
    assert forall k :: 0 <= k < |h2| ==> h2[k] == seg[k];
  }

  /**
   * parse_uri (proxy-2.c:208-248). `uri` holds the caller's C string; on
   * return the hostname, port and pathname are those the rules describe, and
   * the caller's string has been cut to the text before the host plus the
   * hostname, because NULs were written over the path's '/' and the port's ':'
   * (at the string's end, where there is none of them: that cell already holds NUL).
   */
  method ParseUriInPlace(uri: array<char>) returns (t: Target)
    requires '\0' in uri[..]
    modifies uri
    ensures t == Resolve(old(CStr(uri[..])))
    ensures CStr(uri[..]) == old(CStr(uri[..]))[..HostStart(old(CStr(uri[..])))] + t.host
    ensures var s := old(CStr(uri[..])); var start := HostStart(s); var segEnd := SegmentEnd(s, start);
      uri[..] == old(uri[..])[segEnd := '\0'][HostEnd(s, start, segEnd) := '\0']
  {
    ghost var orig := uri[..];
    var s := CStr(uri[..]);
    var start := HostStart(s);
    var path, segEnd := TerminatePath(uri, s, start);
    var host, port, hostEnd := TerminatePort(uri, s, start, segEnd);
    t := Target(host, port, path);
    assert CStr(uri[..]) == s[..hostEnd] by {
      CStrOfCopy(uri[..], s, 0, hostEnd);
    }
    assert t == Resolve(s) && s[..hostEnd] == s[..start] + t.host by {
      CutsResolve(s, start, segEnd, hostEnd, t);
    }
  }

  /** Where the host segment ends: at the first '/' from `start`, or at the end of `s`. */
  function SegmentEnd(s: string, start: nat): nat
    requires start <= |s|
  {
    match IndexOf(s[start..], '/') case Some(p) => start + p case None => |s|
  }

  /** Where the hostname ends: at the first ':' of `s[start..segEnd]`, or at `segEnd`. */
  function HostEnd(s: string, start: nat, segEnd: nat): nat
    requires start <= segEnd <= |s|
  {
    match IndexOf(s[start..segEnd], ':') case Some(q) => start + q case None => segEnd
  }

  /**
   * The first half of parse_uri in proxy-2.c (proxy-2.c:233-238): copy the
   * path from the first '/' after the host start, then end the string there.
   * `segEnd` is where the host segment now ends.
   */
  method TerminatePath(uri: array<char>, s: string, start: nat) returns (path: string, segEnd: nat)
    requires s == CStr(uri[..]) && |s| < uri.Length && start <= |s|
    modifies uri
    ensures start <= segEnd <= |s|
    ensures segEnd == SegmentEnd(s, start)
    ensures path == if segEnd < |s| then s[segEnd..] else "/"
    ensures uri[..] == old(uri[..])[segEnd := '\0']
  {
    path, segEnd := "/", |s|;
    var slash := IndexOf(s[start..], '/');
    if slash.Some? {
      segEnd := start + slash.value;
      path := CStr(uri[segEnd..]);
      CStrOfCopy(uri[..], s, segEnd, |s|);
      uri[segEnd] := '\0';
    } else {
      assert uri[..] == old(uri[..])[segEnd := '\0'];
    }
  }

  /**
   * The second half of parse_uri in proxy-2.c (proxy-2.c:241-247): in the
   * host segment `s[start..segEnd]`, whose end already holds a NUL, the first
   * ':' becomes a NUL and the port is everything after it; the hostname is
   * what is left from the host start.
   */
  method TerminatePort(uri: array<char>, s: string, start: nat, segEnd: nat)
    returns (host: string, port: string, hostEnd: nat)
    requires start <= segEnd <= |s| < uri.Length && '\0' !in s && uri[segEnd] == '\0'
    requires forall i :: start <= i < segEnd ==> uri[i] == s[i]
    modifies uri
    ensures start <= hostEnd <= segEnd
    ensures hostEnd == HostEnd(s, start, segEnd)
    ensures host == s[start..hostEnd]
    ensures port == if hostEnd < segEnd then s[hostEnd + 1..segEnd] else "80"
    ensures uri[..] == old(uri[..])[hostEnd := '\0']
  {
    ghost var before := uri[..];
    var seg := CStr(uri[start..]);
    assert seg == s[start..segEnd] by {
      CStrOfCopy(before, s, start, segEnd);
    }
    var colon := IndexOf(seg, ':');
    if colon.Some? {
      hostEnd := start + colon.value;
      port := CutPort(uri, s, hostEnd, segEnd);
    } else {
      port, hostEnd := "80", segEnd;
      assert uri[..] == before[hostEnd := '\0'];
    }
    host := CStr(uri[start..]);
    assert host == s[start..hostEnd] by {
      CStrOfCopy(uri[..], s, start, hostEnd);
    }
  }

  /** The ':' at `hostEnd` becomes a NUL; the port is the C string after it, up to the NUL at `segEnd`. */
  method CutPort(uri: array<char>, s: string, hostEnd: nat, segEnd: nat) returns (port: string)
    requires hostEnd < segEnd <= |s| < uri.Length && '\0' !in s && uri[segEnd] == '\0'
    requires forall i :: hostEnd < i < segEnd ==> uri[i] == s[i]
    modifies uri
    ensures port == s[hostEnd + 1..segEnd]
    ensures uri[..] == old(uri[..])[hostEnd := '\0']
  {
    uri[hostEnd] := '\0';
    CStrOfCopy(uri[..], s, hostEnd + 1, segEnd);
    port := CStr(uri[hostEnd + 1..]);
  }

  /** The pieces the two halves cut out of `s` are the target Resolve describes. */
  lemma CutsResolve(s: string, start: nat, segEnd: nat, hostEnd: nat, t: Target)
    requires start == HostStart(s) && start <= hostEnd <= segEnd <= |s|
    requires segEnd == SegmentEnd(s, start)
    requires t.path == if segEnd < |s| then s[segEnd..] else "/"
    requires hostEnd == HostEnd(s, start, segEnd)
    requires t.host == s[start..hostEnd]
    requires t.port == if hostEnd < segEnd then s[hostEnd + 1..segEnd] else "80"
    ensures t == Resolve(s)
    ensures s[..hostEnd] == s[..start] + t.host
  {
    SliceFacts(s, start, hostEnd, segEnd);
    PathCut(s, start, segEnd);
    PortCut(s, start, hostEnd, segEnd);
  }

  /** The first '/' from `start` splits the rest into the host segment and the path. */
  lemma PathCut(s: string, start: nat, segEnd: nat)
    requires start <= |s| && segEnd == SegmentEnd(s, start)
    ensures start <= segEnd <= |s|
    ensures SplitPath(s[start..]) == (s[start..segEnd], if segEnd < |s| then s[segEnd..] else "/")
  {
    var rest := s[start..];
    match IndexOf(rest, '/') {
      case Some(p) =>
        assert rest[..p] == s[start..segEnd] && rest[p..] == s[segEnd..];
      case None =>
        assert rest == s[start..segEnd];
    }
  }

  /** The first ':' of the host segment, when there is one, splits it into hostname and port. */
  lemma PortCut(s: string, start: nat, hostEnd: nat, segEnd: nat)
    requires start <= segEnd <= |s| && hostEnd == HostEnd(s, start, segEnd)
    ensures start <= hostEnd <= segEnd
    ensures SplitPort(s[start..segEnd]) == (s[start..hostEnd], if hostEnd < segEnd then s[hostEnd + 1..segEnd] else "80")
  {
    var seg := s[start..segEnd];
    match IndexOf(seg, ':') {
      case Some(q) =>
        assert seg[..q] == s[start..hostEnd] && seg[q + 1..] == s[hostEnd + 1..segEnd];
      case None =>
        assert seg == s[start..hostEnd];
    }
  }

  lemma SliceFacts(s: string, start: nat, hostEnd: nat, segEnd: nat)
    requires start <= hostEnd <= segEnd <= |s|
    ensures s[..hostEnd] == s[..start] + s[start..hostEnd]
    ensures s[start..segEnd] == s[start..][..segEnd - start]
    ensures s[start..hostEnd] == s[start..segEnd][..hostEnd - start]
    ensures hostEnd < segEnd ==> s[hostEnd + 1..segEnd] == s[start..segEnd][hostEnd - start + 1..]
  {
  }

  /**
   * A buffer that agrees with the NUL-free string `s` from `from` up to a NUL
   * at `to` holds, from `from` on, the C string `s[from..to]`.
   */
  lemma CStrOfCopy(buf: seq<char>, s: string, from: nat, to: nat)
    requires from <= to <= |s| && to < |buf| && buf[to] == '\0' && '\0' !in s
    requires forall i :: from <= i < to ==> buf[i] == s[i]
    ensures CStr(buf[from..]) == s[from..to]
  {
    assert buf[from..][..to - from] == s[from..to];
    CStrEndsAt(buf[from..], to - from);
  }
}
