/**
 * The request side of doit (proxy.c:89-142, proxy-2.c:114-176): splitting
 * the request line with sscanf("%s %s %s"), rewriting it for the origin with
 * snprintf, and the loop that appends header lines to request_buf until the
 * blank line. The client socket is a sequence of lines, each what one
 * Rio_readlineb call returns.
 */
module Request {
  import opened Options
  import opened Limits
  import opened Text

  /** What Rio_readlineb(&rio, request_buf, MAXLINE) returns when it reads anything: 1 to MAXLINE-1 bytes. */
  type RequestLineText = l: string | 0 < |l| < MaxLine witness "x"

  /**
   * What Rio_readlineb(&rio, line_buf, MAXLINE - 1) returns when it reads
   * anything: 1 to MAXLINE-2 bytes, here without NUL bytes, so that the
   * C string strcmp and strcat see is the whole line.
   */
  type HeaderLine = l: string | 0 < |l| <= MaxLine - 2 && '\0' !in l witness "x"

  /** The three words of a request line. */
  datatype RequestLine = RequestLine(httpMethod: string, uri: string, version: string)

  /** The text after the white space `s` starts with, as "%s" skips it. */
  function SkipSpace(s: string): (r: string)
    ensures |r| <= |s| && r == s[|s| - |r|..]
    ensures forall i :: 0 <= i < |s| - |r| ==> IsSpace(s[i])
    ensures r != [] ==> !IsSpace(r[0])
  {
    if s != [] && IsSpace(s[0]) then SkipSpace(s[1..]) else s
  }

  /** The longest prefix of `s` free of white space: what one "%s" stores. */
  function Word(s: string): (w: string)
    ensures |w| <= |s| && w == s[..|w|]
    ensures forall i :: 0 <= i < |w| ==> !IsSpace(w[i])
    ensures |w| < |s| ==> IsSpace(s[|w|])
  {
    if s == [] || IsSpace(s[0]) then "" else [s[0]] + Word(s[1..])
  }

  /**
   * sscanf(request_buf, "%s %s %s", method, uri, version) on the C string in
   * request_buf. A word the line runs out before is left unassigned by
   * sscanf; the model gives it the empty string.
   */
  function ScanRequestLine(line: string): (r: RequestLine)
    ensures |r.uri| <= |line| && '\0' !in r.uri
  {
    var text := CStr(line);
    var a := SkipSpace(text);
    var m := Word(a);
    var b := SkipSpace(a[|m|..]);
    var u := Word(b);
    var c := SkipSpace(b[|u|..]);
    assert '\0' !in u by {
      NulFreeSlice(text, |text| - |a|, |text|);
      NulFreeSlice(a, |m|, |a|);
      NulFreeSlice(a[|m|..], |a[|m|..]| - |b|, |a[|m|..]|);
      NulFreeSlice(b, 0, |u|);
    }
    RequestLine(m, u, Word(c))
  }

  /** A piece of a string without NUL holds no NUL. */
  lemma NulFreeSlice(s: string, i: nat, j: nat)
    requires '\0' !in s && i <= j <= |s|
    ensures '\0' !in s[i..j]
  {
    assert forall k :: i <= k < j ==> s[i..j][k - i] == s[k];
  }

  /** The request line snprintf writes into the MAXLINE-byte request_buf, cut to MAXLINE-1 characters. */
  function RewriteRequestLine(httpMethod: string, path: string, version: string): (r: string)
    ensures |r| < MaxLine
    ensures |r| <= |httpMethod + " " + path + " " + version + "\r\n"|
    ensures r == (httpMethod + " " + path + " " + version + "\r\n")[..|r|]
    ensures |httpMethod + " " + path + " " + version + "\r\n"| < MaxLine ==> r == httpMethod + " " + path + " " + version + "\r\n"
    ensures MaxLine <= |httpMethod + " " + path + " " + version + "\r\n"| ==> |r| == MaxLine - 1
  {
    var full := httpMethod + " " + path + " " + version + "\r\n";
    if |full| < MaxLine then full else full[..MaxLine - 1]
  }

  /** A word as "%s" reads it: non-empty, no white space, no NUL. */
  predicate IsWord(w: string)
  {
    w != [] && '\0' !in w && forall i :: 0 <= i < |w| ==> !IsSpace(w[i])
  }

  /**
   * Splitting the rewritten line gives back the method, path and version it
   * was built from, when they are words and the line fits request_buf.
   */
  lemma ScanRewriteRoundTrip(httpMethod: string, path: string, version: string)
    requires IsWord(httpMethod) && IsWord(path) && IsWord(version)
    requires |httpMethod| + |path| + |version| + 4 < MaxLine
    ensures ScanRequestLine(RewriteRequestLine(httpMethod, path, version)) == RequestLine(httpMethod, path, version)
  {
    var c := version + "\r\n";
    var b := path + " " + c;
    var line := httpMethod + " " + b;
    RewriteFits(httpMethod, path, version);
    WordsOfLine(httpMethod, path, version, c, b, line);
    ScanOfWords(line, httpMethod, b, path, c, version);
  }

  /** Where each "%s" of sscanf starts and stops in "method path version\r\n". */
  lemma WordsOfLine(httpMethod: string, path: string, version: string, c: string, b: string, line: string)
    requires IsWord(httpMethod) && IsWord(path) && IsWord(version)
    requires c == version + "\r\n" && b == path + " " + c && line == httpMethod + " " + b
    ensures CStr(line) == line && SkipSpace(line) == line
    ensures Word(line) == httpMethod && SkipSpace(line[|httpMethod|..]) == b
    ensures Word(b) == path && SkipSpace(b[|path|..]) == c
    ensures Word(c) == version
  {
    LastWord(version, c);
    SplitWord(path, c, b);
    SplitWord(httpMethod, b, line);
    CStrWhole(line);
  }

  /** The last word and the line end: "%s" reads the word; the text starts with it and holds no NUL. */
  lemma LastWord(w: string, c: string)
    requires IsWord(w) && c == w + "\r\n"
    ensures Word(c) == w && c != [] && !IsSpace(c[0]) && '\0' !in c
  {
    WordThenSpace(w, "\r\n");
  }

  /** sscanf's three words, given where each one ends and the next begins. */
  lemma ScanOfWords(line: string, m: string, b: string, u: string, c: string, v: string)
    requires CStr(line) == line && SkipSpace(line) == line
    requires Word(line) == m && SkipSpace(line[|m|..]) == b
    requires Word(b) == u && SkipSpace(b[|u|..]) == c
    requires Word(c) == v
    ensures ScanRequestLine(line) == RequestLine(m, u, v)
  {
  }

  /** The rewritten line, when it fits, regrouped from the right. */
  lemma RewriteFits(httpMethod: string, path: string, version: string)
    requires |httpMethod| + |path| + |version| + 4 < MaxLine
    ensures RewriteRequestLine(httpMethod, path, version) == httpMethod + " " + (path + " " + (version + "\r\n"))
  {
    var full := httpMethod + " " + path + " " + version + "\r\n";
    assert |full| < MaxLine;
    assert full == httpMethod + " " + (path + " " + (version + "\r\n"));
  }

  /**
   * A word, one space and text that does not start with white space: "%s"
   * reads the word, then skips to the text; the whole starts with the word
   * and holds no NUL when the text holds none.
   */
  lemma SplitWord(w: string, x: string, line: string)
    requires IsWord(w) && x != [] && !IsSpace(x[0]) && '\0' !in x && line == w + " " + x
    ensures Word(line) == w && SkipSpace(line) == line
    ensures SkipSpace(line[|w|..]) == x
    ensures line != [] && !IsSpace(line[0]) && '\0' !in line
  {
    var rest := " " + x;
    assert line == w + rest;
    WordThenSpace(w, rest);
    assert line[|w|..] == rest;
    assert rest[1..] == x;
  }

  /** A word followed by white space reads as that word. */
  lemma {:induction false} WordThenSpace(w: string, rest: string)
    requires forall i :: 0 <= i < |w| ==> !IsSpace(w[i])
    requires rest != [] && IsSpace(rest[0])
    ensures Word(w + rest) == w
    ensures w != [] ==> SkipSpace(w + rest) == w + rest
  {
    if w != [] {
      assert (w + rest)[1..] == w[1..] + rest;
      WordThenSpace(w[1..], rest);
    }
  }

  /** How the header loop ends. */
  datatype HeaderOutcome =
    | Forward(request: string, totalBytes: nat)  // the blank line arrived: request_buf and total_bytes
    | BadRequest                                  // a read returned 0 before the blank line: 400
    | TooLarge                                    // a line would bring total_bytes to MAXLINE: 413

  /**
   * The header loop read as reading a line, then testing it (see the note
   * on line_buf in ReadHeaders): a line that keeps `total` below MAXLINE
   * is appended to `acc`, and the loop stops after appending
   * the line "\r\n".
   */
  function Assemble(total: nat, acc: string, lines: seq<HeaderLine>): HeaderOutcome
    decreases |lines|
  {
    if lines == [] then BadRequest
    else if total + |lines[0]| < MaxLine then
      if lines[0] == "\r\n" then Forward(acc + lines[0], total + |lines[0]|)
      else Assemble(total + |lines[0]|, acc + lines[0], lines[1..])
    else TooLarge
  }

  /**
   * The header loop of doit (proxy.c:117-141, proxy-2.c:153-176).
   * `request` is the rewritten request line already in request_buf and
   * `bytes1` what the first Rio_readlineb returned: total_bytes starts from
   * the length of the line as READ, not as rewritten. In the source the
   * first test compares line_buf before anything was read into it; the
   * model reads first and tests the line just read.
   */
  method ReadHeaders(request: string, bytes1: nat, lines: seq<HeaderLine>) returns (outcome: HeaderOutcome)
    ensures outcome == Assemble(bytes1, request, lines)
  {
    var buf := request;
    var total: nat := bytes1;
    var i := 0;
    while true
      invariant 0 <= i <= |lines|
      invariant Assemble(total, buf, lines[i..]) == Assemble(bytes1, request, lines)
      decreases |lines| - i
    {
      if i == |lines| {
        return BadRequest;
      }
      var line := lines[i];
      assert lines[i..][1..] == lines[i + 1..];
      if total + |line| < MaxLine {
        buf := buf + line;
        total := total + |line|;
      } else {
        return TooLarge;
      }
      if line == "\r\n" {
        return Forward(buf, total);
      }
      i := i + 1;
    }
  }

  /** The sum of the byte counts of `lines`. */
  function Bytes(lines: seq<string>): nat
  {
    if lines == [] then 0 else |lines[0]| + Bytes(lines[1..])
  }

  /** `lines` one after the other, as strcat appends them. */
  function Joined(lines: seq<string>): string
  {
    if lines == [] then "" else lines[0] + Joined(lines[1..])
  }

  /** The index of the first line "\r\n". */
  function FirstBlank(lines: seq<string>): (r: Option<nat>)
    ensures r.Some? ==> r.value < |lines|
  {
    if lines == [] then None
    else if lines[0] == "\r\n" then Some(0)
    else match FirstBlank(lines[1..]) case None => None case Some(k) => Some(k + 1)
  }

  /** FirstBlank finds the first "\r\n" line, and finds none only when there is none. */
  lemma {:induction false} FirstBlankIsFirst(lines: seq<string>)
    ensures var r := FirstBlank(lines);
      r.Some? ==> r.value < |lines| && lines[r.value] == "\r\n" && forall j :: 0 <= j < r.value ==> lines[j] != "\r\n"
    ensures FirstBlank(lines).None? ==> forall j :: 0 <= j < |lines| ==> lines[j] != "\r\n"
  {
    if lines != [] && lines[0] != "\r\n" {
      FirstBlankIsFirst(lines[1..]);
      assert forall j :: 1 <= j < |lines| ==> lines[j] == lines[1..][j - 1];
    }
  }

  /** The lines up to and including the first blank one, or all of them. */
  function Scanned(lines: seq<string>): seq<string>
  {
    match FirstBlank(lines) case Some(k) => lines[..k + 1] case None => lines
  }

  /**
   * How the header loop ends, decided by the lines up to the first blank
   * one: 413 when their bytes bring the count to MAXLINE, otherwise the
   * request followed by those lines when a blank line arrives, otherwise 400.
   */
  function Outcome(total: nat, acc: string, lines: seq<string>): HeaderOutcome
  {
    var s := Scanned(lines);
    if total + Bytes(s) >= MaxLine then TooLarge
    else if FirstBlank(lines).Some? then Forward(acc + Joined(s), total + Bytes(s))
    else BadRequest
  }

  /** The header loop ends as Outcome says. */
  lemma {:induction false} AssembleMatches(total: nat, acc: string, lines: seq<HeaderLine>)
    requires total < MaxLine
    decreases |lines|
    ensures Assemble(total, acc, lines) == Outcome(total, acc, lines)
  {
    if lines == [] {
      assert Scanned(lines) == [];
    } else if lines[0] == "\r\n" {
      AssembleBlank(total, acc, lines);
    } else if total + |lines[0]| < MaxLine {
      AssembleMatches(total + |lines[0]|, acc + lines[0], lines[1..]);
      OutcomeCons(total, acc, lines);
    } else {
      ScannedCons(lines);
    }
  }

  /** A line that is not blank and fits moves from the stream to the request without changing the outcome. */
  lemma OutcomeCons(total: nat, acc: string, lines: seq<string>)
    requires lines != [] && lines[0] != "\r\n"
    ensures Outcome(total + |lines[0]|, acc + lines[0], lines[1..]) == Outcome(total, acc, lines)
  {
    var l, rest := lines[0], lines[1..];
    ScannedCons(lines);
    assert (acc + l) + Joined(Scanned(rest)) == acc + Joined(Scanned(lines));
  }

  /**
   * How the header loop ends, stated without the loop: it forwards exactly
   * when a blank line arrives and the lines up to it keep the count below
   * MAXLINE, and then request_buf is the request line followed by those
   * lines in order; it answers 413 exactly when those lines (or all of
   * them, with no blank line) reach MAXLINE; otherwise the stream ended
   * first and it answers 400.
   */
  lemma AssembleOutcome(total: nat, acc: string, lines: seq<HeaderLine>)
    requires total < MaxLine
    ensures Assemble(total, acc, lines).Forward? <==>
      FirstBlank(lines).Some? && total + Bytes(Scanned(lines)) < MaxLine
    ensures Assemble(total, acc, lines).Forward? ==>
      Assemble(total, acc, lines) == Forward(acc + Joined(Scanned(lines)), total + Bytes(Scanned(lines)))
    ensures Assemble(total, acc, lines) == TooLarge <==> total + Bytes(Scanned(lines)) >= MaxLine
    ensures Assemble(total, acc, lines) == BadRequest <==>
      FirstBlank(lines).None? && total + Bytes(lines) < MaxLine
  {
    AssembleMatches(total, acc, lines);
  }

  /** The blank line comes first: it is forwarded alone or, when it does not fit, refused. */
  lemma AssembleBlank(total: nat, acc: string, lines: seq<HeaderLine>)
    requires lines != [] && lines[0] == "\r\n"
    ensures FirstBlank(lines) == Some(0)
    ensures Scanned(lines) == [lines[0]] && Bytes(Scanned(lines)) == 2 && Joined(Scanned(lines)) == "\r\n"
    ensures Assemble(total, acc, lines) == if total + 2 < MaxLine then Forward(acc + "\r\n", total + 2) else TooLarge
  {
    ConsFacts(lines[0], []);
  }

  lemma ScannedCons(lines: seq<string>)
    requires lines != [] && lines[0] != "\r\n"
    ensures Scanned(lines) == [lines[0]] + Scanned(lines[1..])
    ensures Bytes(Scanned(lines)) == |lines[0]| + Bytes(Scanned(lines[1..]))
    ensures Joined(Scanned(lines)) == lines[0] + Joined(Scanned(lines[1..]))
    ensures FirstBlank(lines).Some? <==> FirstBlank(lines[1..]).Some?
  {
    var rest := lines[1..];
    var f := FirstBlank(rest);
    assert FirstBlank(lines) == match f case None => None case Some(k) => Some(k + 1);
    if f.None? {
      assert Scanned(lines) == lines && Scanned(rest) == rest;
      assert lines == [lines[0]] + rest;
    } else {
      var k := f.value;
      assert Scanned(lines) == lines[..k + 2] && Scanned(rest) == rest[..k + 1];
      assert lines[..k + 2] == [lines[0]] + rest[..k + 1];
    }
    ConsFacts(lines[0], Scanned(rest));
  }

  /** One more line in front adds its bytes to the count and its text to the join. */
  lemma ConsFacts(l: string, t: seq<string>)
    ensures Bytes([l] + t) == |l| + Bytes(t)
    ensures Joined([l] + t) == l + Joined(t)
  {
    assert ([l] + t)[1..] == t;
  }

  /**
   * On success the count that is forwarded is below MAXLINE, and it differs
   * from the length of the assembled request by exactly what the rewrite
   * changed in the request line's length.
   */
  lemma {:induction false} ForwardedCount(bytes1: nat, request: string, lines: seq<HeaderLine>)
    requires bytes1 < MaxLine
    requires Assemble(bytes1, request, lines).Forward?
    ensures Assemble(bytes1, request, lines).totalBytes < MaxLine
    ensures |Assemble(bytes1, request, lines).request| + bytes1 == Assemble(bytes1, request, lines).totalBytes + |request|
  {
    AssembleOutcome(bytes1, request, lines);
    JoinedLength(Scanned(lines));
  }

  lemma {:induction false} JoinedLength(lines: seq<string>)
    ensures |Joined(lines)| == Bytes(lines)
  {
    if lines != [] {
      JoinedLength(lines[1..]);
    }
  }
}
