/**
 * clienterror (proxy.c:256-281, proxy-2.c:310-332): the HTML error page and
 * the three header lines written before it. The two variants differ only in
 * the page title and the footer.
 */
module ErrorPage {
  import opened Options
  import opened Limits
  import opened Text

  /** The page title and the footer line of one variant. */
  datatype Branding = Branding(title: string, footer: string)

  /** proxy.c's page (proxy.c:261, proxy.c:268). */
  const TinyBranding := Branding("Tiny Error", "The Tiny Web server")

  /** proxy-2.c's page (proxy-2.c:315, proxy-2.c:322). */
  const ProxyBranding := Branding("Proxy Error", "The Cached, Session-based Proxy Server")

  /** The body the five snprintf calls write into `body`, when it fits. */
  function Body(b: Branding, cause: string, errnum: string, shortmsg: string, longmsg: string): string
  {
    "<html><title>" + b.title + "</title>" +
    "<body bgcolor=ffffff>\r\n" +
    errnum + ": " + shortmsg + "\r\n" +
    "<p>" + longmsg + ": " + cause + "\r\n" +
    "<hr><em>" + b.footer + "</em>\r\n"
  }

  /** The page adds 70 bytes of markup to its six texts. */
  lemma BodyLength(b: Branding, cause: string, errnum: string, shortmsg: string, longmsg: string)
    ensures |Body(b, cause, errnum, shortmsg, longmsg)| ==
      70 + |b.title| + |b.footer| + |cause| + |errnum| + |shortmsg| + |longmsg|
  {
  }

  /** Both variants' titles and footers are short. */
  lemma BrandingLength(b: Branding)
    requires b == TinyBranding || b == ProxyBranding
    ensures |b.title| <= 11 && |b.footer| <= 38
  {
  }

  /**
   * The page fits the MAXBUF-byte body buffer, and the status line
   * "HTTP/1.0 errnum shortmsg\r\n" (twelve characters besides the two texts)
   * fits the MAXLINE-byte `buf` with its NUL.
   */
  predicate Fits(b: Branding, cause: string, errnum: string, shortmsg: string, longmsg: string)
  {
    |Body(b, cause, errnum, shortmsg, longmsg)| < MaxBuf && |errnum| + |shortmsg| + 12 <= MaxLine - 1
  }

  /**
   * Everything clienterror writes to the client (proxy.c:271-280,
   * proxy-2.c:325-331): the status line, the content type, a Content-length
   * holding body_length, the blank line and body_length bytes of body. body_length adds up what each snprintf
   * reports, which is the body's length when the body fits.
   */
  function ErrorResponse(b: Branding, cause: string, errnum: string, shortmsg: string, longmsg: string): (r: string)
    requires Fits(b, cause, errnum, shortmsg, longmsg)
    ensures var body := Body(b, cause, errnum, shortmsg, longmsg);
      |body| < |r| && r[|r| - |body|..] == body
  {
    var body := Body(b, cause, errnum, shortmsg, longmsg);
    FramedEndsWithBody("HTTP/1.0 " + errnum + " " + shortmsg, Decimal(|body|), body);
    Framed("HTTP/1.0 " + errnum + " " + shortmsg, Decimal(|body|), body)
  }

  /** What a client reads back from an error response. */
  datatype Reply = Reply(status: string, contentType: string, body: string)

  /** The text before the first '\r' of `r`, when "\r\n" follows it, and what comes after. */
  function SplitLine(r: string): Option<(string, string)>
  {
    match IndexOf(r, '\r')
    case None => None
    case Some(i) => if i + 1 < |r| && r[i + 1] == '\n' then Some((r[..i], r[i + 2..])) else None
  }

  /**
   * A client's reading of an error response: three header lines and a
   * blank one, then a body exactly as long as the Content-length header
   * says.
   */
  function ReadResponse(r: string): Option<Reply>
  {
    match SplitLine(r)
    case None => None
    case Some((status, r1)) =>
      match SplitLine(r1)
      case None => None
      case Some((contentType, r2)) =>
        match SplitLine(r2)
        case None => None
        case Some((lengthLine, r3)) =>
          match SplitLine(r3)
          case None => None
          case Some((blank, body)) =>
            var tag := "Content-length: ";
            if blank == "" && |tag| < |lengthLine| && lengthLine[..|tag|] == tag &&
               AllDigits(lengthLine[|tag|..]) && DecimalValue(lengthLine[|tag|..]) == |body|
            then Some(Reply(status, contentType, body))
            else None
  }

  /**
   * The Content-length clienterror sends is the number of body bytes it
   * sends: a client reading the response gets the status line, the content
   * type and exactly the page body (when the status words hold no '\r').
   */
  lemma ReadErrorResponse(b: Branding, cause: string, errnum: string, shortmsg: string, longmsg: string)
    requires Fits(b, cause, errnum, shortmsg, longmsg)
    requires '\r' !in errnum && '\r' !in shortmsg
    ensures ReadResponse(ErrorResponse(b, cause, errnum, shortmsg, longmsg)) ==
      Some(Reply("HTTP/1.0 " + errnum + " " + shortmsg, "Content-type: text/html", Body(b, cause, errnum, shortmsg, longmsg)))
  {
    var body := Body(b, cause, errnum, shortmsg, longmsg);
    var status := "HTTP/1.0 " + errnum + " " + shortmsg;
    var digits := Decimal(|body|);
    DecimalRoundTrip(|body|);
    ReadFramed(status, digits, body);
  }

  /** Status line, content type, Content-length holding `digits`, blank line, body. */
  function Framed(status: string, digits: string, body: string): string
  {
    status + "\r\n" + ("Content-type: text/html" + "\r\n" + (("Content-length: " + digits) + "\r\n" + ("\r\n" + body)))
  }

  lemma FramedEndsWithBody(status: string, digits: string, body: string)
    ensures |body| < |Framed(status, digits, body)|
    ensures var r := Framed(status, digits, body); r[|r| - |body|..] == body
  {
    var head := status + "\r\n" + ("Content-type: text/html" + "\r\n" + (("Content-length: " + digits) + "\r\n" + "\r\n"));
    assert Framed(status, digits, body) == head + body;
    assert (head + body)[|head|..] == body;
  }

  /** A framed response whose Content-length states the body's length reads back as its parts. */
  lemma ReadFramed(status: string, digits: string, body: string)
    requires '\r' !in status && digits != [] && AllDigits(digits) && DecimalValue(digits) == |body|
    ensures ReadResponse(Framed(status, digits, body)) == Some(Reply(status, "Content-type: text/html", body))
  {
    var lengthLine := "Content-length: " + digits;
    var r3 := "\r\n" + body;
    var r2 := lengthLine + "\r\n" + r3;
    var r1 := "Content-type: text/html" + "\r\n" + r2;
    SplitLineAt(status, r1);
    SplitLineAt("Content-type: text/html", r2);
    DigitsHaveNoReturn(digits);
    SplitLineAt(lengthLine, r3);
    SplitLineAt("", body);
    assert "" + "\r\n" + body == r3;
    assert lengthLine[|"Content-length: "|..] == digits;
  }

  /** A line free of '\r', then "\r\n", splits off as that line. */
  lemma SplitLineAt(line: string, rest: string)
    requires '\r' !in line
    ensures SplitLine(line + "\r\n" + rest) == Some((line, rest))
  {
    var r := line + "\r\n" + rest;
    assert r[|line|] == '\r' && r[..|line|] == line;
    assert r[|line| + 2..] == rest;
  }

  lemma DigitsHaveNoReturn(digits: string)
    requires AllDigits(digits)
    ensures '\r' !in ("Content-length: " + digits)
  {
    assert forall i :: 0 <= i < |digits| ==> digits[i] != '\r';
  }
}
