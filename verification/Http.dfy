/** The incremental HTTP request parser (muduo/net/http/HttpContext.cpp, HttpContext.h, HttpRequest.h)
    and the server callback that drives it (muduo/net/http/HttpServer.cpp: onMessage). */
module Http {
  import opened Buffers
  import opened Common

  datatype Method = InvalidMethod | Get | Post | Head | Put | Delete
  datatype Version = UnknownVersion | Http10 | Http11

  /** HttpRequest, without its receive time. */
  datatype Request = Request(verb: Method, version: Version, path: string, query: string, headers: map<string, string>)

  datatype ParseState = ExpectRequestLine | ExpectHeaders | ExpectBody | GotAll

  datatype Context = Context(state: ParseState, request: Request)

  const NO_REQUEST: Request := Request(InvalidMethod, UnknownVersion, "", "", map[])
  const FRESH_CONTEXT: Context := Context(ExpectRequestLine, NO_REQUEST)

  // ---- Pieces -----------------------------------------------------------------------------------------

  /** std::find from `from`: where `c` first is, or the end. */
  function IndexOf(s: string, c: char, from: nat): (i: nat)
    requires from <= |s|
    ensures from <= i <= |s|
    ensures i < |s| ==> s[i] == c
    ensures forall j | from <= j < i :: s[j] != c
    decreases |s| - from
  {
    if from == |s| || s[from] == c then from else IndexOf(s, c, from + 1)
  }

  function MethodOf(m: string): Method {
    if m == "GET" then Get
    else if m == "POST" then Post
    else if m == "HEAD" then Head
    else if m == "PUT" then Put
    else if m == "DELETE" then Delete
    else InvalidMethod
  }

  function MethodString(m: Method): string {
    match m
    case Get => "GET"
    case Post => "POST"
    case Head => "HEAD"
    case Put => "PUT"
    case Delete => "DELETE"
    case InvalidMethod => "UNKNOWN"
  }

  /** setMethod undoes methodString, on every method but kInvalid. */
  lemma MethodRoundTrip(m: Method)
    ensures MethodOf(MethodString(m)) == m
  {
    if m == InvalidMethod {
      var u := "UNKNOWN";
      assert |u| == 7;
    }
  }

  predicate IsSpace(c: char) {
    c == ' ' || ('\t' <= c && c <= '\r')
  }

  function TrimLeft(s: string): (r: string)
    ensures |r| <= |s|
  {
    if s != "" && IsSpace(s[0]) then TrimLeft(s[1..]) else s
  }

  function TrimRight(s: string): (r: string)
    ensures |r| <= |s|
  {
    if s != "" && IsSpace(s[|s| - 1]) then TrimRight(s[..|s| - 1]) else s
  }

  function HeaderAdded(q: Request, line: string, colon: nat): Request
    requires colon < |line|
  {
    q.(headers := q.headers[line[..colon] := TrimRight(TrimLeft(line[colon + 1..]))])
  }

  function VersionOf(s: string): Version {
    if |s| != 8 || s[..7] != "HTTP/1." then UnknownVersion
    else if s[7] == '1' then Http11
    else if s[7] == '0' then Http10
    else UnknownVersion
  }

  datatype LineResult = LineResult(ok: bool, request: Request)

  /** setPath and setQuery. */
  function TargetSet(q: Request, line: string, start: nat, space: nat): Request
    requires start <= space <= |line|
  {
    var question := IndexOf(line[..space], '?', start);
    if question != space then q.(path := line[start..question], query := line[question..space])
    else q.(path := line[start..space])
  }

  /** processRequestLine: what it has set before it fails stays set. */
  function RequestLine(q: Request, line: string): LineResult {
    var space := IndexOf(line, ' ', 0);
    if space == |line| then LineResult(false, q) else
    var q1 := q.(verb := MethodOf(line[..space]));
    if q1.verb == InvalidMethod then LineResult(false, q1) else
    var start := space + 1;
    var space2 := IndexOf(line, ' ', start);
    if space2 == |line| then LineResult(false, q1) else
    var q2 := TargetSet(q1, line, start, space2);
    var version := VersionOf(line[space2 + 1..]);
    if version == UnknownVersion then LineResult(false, q2) else LineResult(true, q2.(version := version))
  }

  // ---- parseRequest ---------------------------------------------------------------------------------------

  datatype Outcome = Outcome(ok: bool, ctx: Context, rest: string)

  predicate InProgress(ctx: Context) {
    ctx.state == ExpectRequestLine || ctx.state == ExpectHeaders
  }

  /** What parseRequest makes of `s`.  In the other two states its loop would not end. */
  function Parse(ctx: Context, s: string): (r: Outcome)
    requires InProgress(ctx)
    ensures |r.rest| <= |s|
    ensures r.ok && r.ctx.state == GotAll ==> |r.rest| < |s|
    ensures InProgress(r.ctx) || (r.ok && r.ctx.state == GotAll)
    decreases |s|
  {
    var crlf := FirstCrlf(s);
    if crlf == -1 then Outcome(true, ctx, s)
    else if ctx.state == ExpectRequestLine then
      var r := RequestLine(ctx.request, s[..crlf]);
      if r.ok then Parse(Context(ExpectHeaders, r.request), s[crlf + 2..])
      else Outcome(false, ctx.(request := r.request), s)
    else
      var colon := IndexOf(s[..crlf], ':', 0);
      if colon < crlf then Parse(ctx.(request := HeaderAdded(ctx.request, s[..crlf], colon)), s[crlf + 2..])
      else Outcome(true, ctx.(state := GotAll), s[crlf + 2..])
  }

  lemma ParseOnce(ctx: Context, s: string)
    requires InProgress(ctx)
    ensures var crlf := FirstCrlf(s);
      if crlf == -1 then Parse(ctx, s) == Outcome(true, ctx, s)
      else if ctx.state == ExpectRequestLine then
        var r := RequestLine(ctx.request, s[..crlf]);
        if r.ok then Parse(ctx, s) == Parse(Context(ExpectHeaders, r.request), s[crlf + 2..])
        else Parse(ctx, s) == Outcome(false, Context(ExpectRequestLine, r.request), s)
      else
        var colon := IndexOf(s[..crlf], ':', 0);
        if colon < crlf
        then Parse(ctx, s) == Parse(Context(ExpectHeaders, HeaderAdded(ctx.request, s[..crlf], colon)), s[crlf + 2..])
        else Parse(ctx, s) == Outcome(true, Context(GotAll, ctx.request), s[crlf + 2..])
  {
  }

  lemma FirstCrlfStable(a: string, b: string)
    requires FirstCrlf(a) != -1
    ensures FirstCrlf(a + b) == FirstCrlf(a)
  {
    var i, j := FirstCrlf(a), FirstCrlf(a + b);
    assert CrlfAt(a + b, i);
    assert CrlfAt(a, j);
  }

  /** Parsing `a` and then its leftover with `b` behind it is parsing `a + b`: the split may be
      anywhere, between the CR and the LF included. */
  lemma {:induction false} ParseSplits(ctx: Context, a: string, b: string)
    requires InProgress(ctx)
    ensures var r := Parse(ctx, a);
            if r.ok && InProgress(r.ctx) then Parse(ctx, a + b) == Parse(r.ctx, r.rest + b)
            else Parse(ctx, a + b) == r.(rest := r.rest + b)
    decreases |a|
  {
    var crlf := FirstCrlf(a);
    if crlf != -1 {
      FirstCrlfStable(a, b);
      assert (a + b)[..crlf] == a[..crlf];
      assert (a + b)[crlf + 2..] == a[crlf + 2..] + b;
      if ctx.state == ExpectRequestLine {
        var r := RequestLine(ctx.request, a[..crlf]);
        if r.ok { ParseSplits(Context(ExpectHeaders, r.request), a[crlf + 2..], b); }
      } else {
        var colon := IndexOf(a[..crlf], ':', 0);
        if colon < crlf {
          ParseSplits(ctx.(request := HeaderAdded(ctx.request, a[..crlf], colon)), a[crlf + 2..], b);
        }
      }
    }
  }

  /** An unfinished parse has used up every line it was given. */
  lemma {:induction false} UnfinishedIsFixed(ctx: Context, s: string)
    requires InProgress(ctx)
    ensures var r := Parse(ctx, s); r.ok && InProgress(r.ctx) ==> Parse(r.ctx, r.rest) == r
  {
    ParseSplits(ctx, s, "");
    assert s + "" == s;
    var r := Parse(ctx, s);
    assert r.rest + "" == r.rest;
  }

  function Flatten(chunks: seq<string>): string {
    if chunks == [] then "" else chunks[0] + Flatten(chunks[1..])
  }

  /** Parsing chunk by chunk, until the request is complete or bad. */
  function Feed(ctx: Context, left: string, chunks: seq<string>): Outcome
    requires InProgress(ctx)
    decreases |chunks|
  {
    if chunks == [] then Outcome(true, ctx, left) else
    var r := Parse(ctx, left + chunks[0]);
    if r.ok && InProgress(r.ctx) then Feed(r.ctx, r.rest, chunks[1..])
    else r.(rest := r.rest + Flatten(chunks[1..]))
  }

  /** However a request's bytes are cut into chunks, the outcome is that of parsing them whole. */
  lemma {:induction false} ChunkingIsIrrelevant(ctx: Context, left: string, chunks: seq<string>)
    requires InProgress(ctx) && Parse(ctx, left) == Outcome(true, ctx, left)
    ensures Feed(ctx, left, chunks) == Parse(ctx, left + Flatten(chunks))
    decreases |chunks|
  {
    if chunks == [] {
      assert left + "" == left;
    } else {
      var a, b := left + chunks[0], Flatten(chunks[1..]);
      assert left + Flatten(chunks) == a + b;
      ParseSplits(ctx, a, b);
      UnfinishedIsFixed(ctx, a);
      var r := Parse(ctx, a);
      if r.ok && InProgress(r.ctx) {
        ChunkingIsIrrelevant(r.ctx, r.rest, chunks[1..]);
      }
    }
  }

  // ---- HttpServer::onMessage ---------------------------------------------------------------------------------

  /** One connection: its HttpContext, its input buffer, what it has handed to onRequest, and whether
      it has answered 400. */
  datatype Session = Session(ctx: Context, buf: string, delivered: seq<Request>, failed: bool)

  const NEW_SESSION: Session := Session(FRESH_CONTEXT, "", [], false)

  /** onMessage, after `chunk` has arrived: at most one request per call, then reset. */
  function Message(st: Session, chunk: string): (r: Session)
    requires InProgress(st.ctx)
    ensures InProgress(r.ctx)
  {
    var r := Parse(st.ctx, st.buf + chunk);
    if r.ctx.state == GotAll then Session(FRESH_CONTEXT, r.rest, st.delivered + [r.ctx.request], st.failed)
    else Session(r.ctx, r.rest, st.delivered, st.failed || !r.ok)
  }

  function Messages(st: Session, chunks: seq<string>): (r: Session)
    requires InProgress(st.ctx)
    ensures InProgress(r.ctx)
    decreases |chunks|
  {
    if chunks == [] then st else Messages(Message(st, chunks[0]), chunks[1..])
  }

  /** The requests in a stream, up to the first bad or unfinished one. */
  function Requests(ctx: Context, s: string): seq<Request>
    requires InProgress(ctx)
    decreases |s|
  {
    var r := Parse(ctx, s);
    if r.ok && r.ctx.state == GotAll then [r.ctx.request] + Requests(FRESH_CONTEXT, r.rest) else []
  }

  lemma BadLineStaysBad(q: Request, q': Request, line: string)
    ensures RequestLine(q, line).ok == RequestLine(q', line).ok
  {
  }

  lemma {:induction false} BadStaysBad(ctx: Context, s: string, t: string)
    requires InProgress(ctx) && !Parse(ctx, s).ok
    ensures var r := Parse(ctx, s); !Parse(r.ctx, r.rest + t).ok
    decreases |s|
  {
    var crlf := FirstCrlf(s);
    if ctx.state == ExpectRequestLine {
      var r := RequestLine(ctx.request, s[..crlf]);
      if r.ok {
        BadStaysBad(Context(ExpectHeaders, r.request), s[crlf + 2..], t);
      } else {
        FirstCrlfStable(s, t);
        assert (s + t)[..crlf] == s[..crlf];
        BadLineStaysBad(ctx.request, r.request, s[..crlf]);
      }
    } else {
      var colon := IndexOf(s[..crlf], ':', 0);
      BadStaysBad(ctx.(request := HeaderAdded(ctx.request, s[..crlf], colon)), s[crlf + 2..], t);
    }
  }

  /** One call moves requests from the stream to the delivered ones, and loses none. */
  lemma MessageAccounts(st: Session, chunk: string, t: string)
    requires InProgress(st.ctx)
    ensures var st' := Message(st, chunk);
            st.delivered + Requests(st.ctx, st.buf + chunk + t) == st'.delivered + Requests(st'.ctx, st'.buf + t)
  {
    hide Parse;
    var s := st.buf + chunk;
    ParseSplits(st.ctx, s, t);
    if !Parse(st.ctx, s).ok {
      BadStaysBad(st.ctx, s, t);
    }
  }

  /** Whatever the chunks, what onMessage has delivered and what is still to be parsed are together
      exactly the requests of the whole stream; so it has delivered a prefix of them, and all of
      them just when no complete request is left waiting in the buffer. */
  lemma {:induction false} DeliversInOrder(st: Session, chunks: seq<string>, t: string)
    requires InProgress(st.ctx)
    ensures var r := Messages(st, chunks);
      st.delivered + Requests(st.ctx, st.buf + Flatten(chunks) + t) == r.delivered + Requests(r.ctx, r.buf + t)
    decreases |chunks|
  {
    hide Parse;
    hide Message;
    hide Requests;
    if chunks == [] {
      assert st.buf + "" + t == st.buf + t;
    } else {
      var later := Flatten(chunks[1..]) + t;
      MessageAccounts(st, chunks[0], later);
      assert st.buf + chunks[0] + later == st.buf + Flatten(chunks) + t;
      var st' := Message(st, chunks[0]);
      DeliversInOrder(st', chunks[1..], t);
      assert st'.buf + Flatten(chunks[1..]) + t == st'.buf + later;
    }
  }

  lemma DeliversAPrefix(chunks: seq<string>)
    ensures var r := Messages(NEW_SESSION, chunks); var all := Requests(FRESH_CONTEXT, Flatten(chunks));
      && r.delivered <= all
      && (r.delivered == all <==> Requests(r.ctx, r.buf) == [])
  {
    hide Parse;
    hide Requests;
    DeliversInOrder(NEW_SESSION, chunks, "");
    var r := Messages(NEW_SESSION, chunks);
    assert "" + Flatten(chunks) + "" == Flatten(chunks) && r.buf + "" == r.buf;
    assert [] + Requests(FRESH_CONTEXT, Flatten(chunks)) == Requests(FRESH_CONTEXT, Flatten(chunks));
  }

  /** One call leaves no complete request behind exactly if at most one was there. */
  lemma MessageEmptiesExactly(st: Session, chunk: string)
    requires InProgress(st.ctx)
    ensures var all, r := Requests(st.ctx, st.buf + chunk), Message(st, chunk);
      && |r.delivered| == |st.delivered| + (if all == [] then 0 else 1)
      && (Requests(r.ctx, r.buf) == [] <==> |all| <= 1)
  {
    MessageAccounts(st, chunk, "");
    var r := Message(st, chunk);
    assert st.buf + chunk + "" == st.buf + chunk && r.buf + "" == r.buf;
    hide Parse;
  }

  lemma {:induction false} MessagesAppend(st: Session, chunks: seq<string>, chunk: string)
    requires InProgress(st.ctx)
    ensures Messages(st, chunks + [chunk]) == Message(Messages(st, chunks), chunk)
    ensures Flatten(chunks + [chunk]) == Flatten(chunks) + chunk
    decreases |chunks|
  {
    hide Message;
    if chunks == [] {
      assert [] + [chunk] == [chunk] && [chunk][1..] == [];
      assert chunk + "" == chunk == "" + chunk;
    } else {
      assert (chunks + [chunk])[0] == chunks[0] && (chunks + [chunk])[1..] == chunks[1..] + [chunk];
      MessagesAppend(Message(st, chunks[0]), chunks[1..], chunk);
      assert chunks[0] + (Flatten(chunks[1..]) + chunk) == chunks[0] + Flatten(chunks[1..]) + chunk;
    }
  }

  /** How many requests are complete once the first `n` chunks are in. */
  function Arrived(chunks: seq<string>, n: nat): nat
    requires n <= |chunks|
  {
    |Requests(FRESH_CONTEXT, Flatten(chunks[..n]))|
  }

  function Served(chunks: seq<string>, n: nat): nat
    requires n <= |chunks|
  {
    |Messages(NEW_SESSION, chunks[..n]).delivered|
  }

  /** Each call serves one request, if there is one. */
  lemma ServedOnce(chunks: seq<string>, n: nat)
    requires n < |chunks|
    ensures Served(chunks, n + 1) == if Arrived(chunks, n + 1) > Served(chunks, n) then Served(chunks, n) + 1
                                     else Arrived(chunks, n + 1)
  {
    hide Parse, Message, Messages, Requests, Flatten;
    var st := Messages(NEW_SESSION, chunks[..n]);
    var now := Flatten(chunks[..n]) + chunks[n];
    assert chunks[..n + 1] == chunks[..n] + [chunks[n]];
    MessagesAppend(NEW_SESSION, chunks[..n], chunks[n]);
    assert Arrived(chunks, n + 1) == |Requests(FRESH_CONTEXT, now)|;
    assert Served(chunks, n + 1) == |Message(st, chunks[n]).delivered| && Served(chunks, n) == |st.delivered|;
    hide Arrived, Served;
    MessageEmptiesExactly(st, chunks[n]);
    StreamAccounts(chunks[..n], chunks[n]);
  }

  lemma StreamAccounts(chunks: seq<string>, t: string)
    ensures var r := Messages(NEW_SESSION, chunks);
      |Requests(FRESH_CONTEXT, Flatten(chunks) + t)| == |r.delivered| + |Requests(r.ctx, r.buf + t)|
  {
    hide Parse, Message, Messages, Requests, Flatten;
    DeliversInOrder(NEW_SESSION, chunks, t);
    assert "" + Flatten(chunks) + t == Flatten(chunks) + t;
  }

  lemma NothingArrives(chunks: seq<string>)
    ensures Arrived(chunks, 0) == 0 && Served(chunks, 0) == 0
  {
    assert chunks[..0] == [] && FirstCrlf("") == -1;
    ParseOnce(FRESH_CONTEXT, "");
    hide Parse;
  }

  /** What has been served is the least that some of the last calls, one request each, could add. */
  lemma {:induction false} ServedIsLeast(chunks: seq<string>, n: nat) returns (k: nat)
    requires n <= |chunks|
    ensures forall j | 0 <= j <= n :: Served(chunks, n) <= Arrived(chunks, j) + (n - j)
    ensures k <= n && Served(chunks, n) == Arrived(chunks, k) + (n - k)
  {
    hide Served, Arrived;
    if n == 0 {
      k := 0;
      NothingArrives(chunks);
    } else {
      k := ServedIsLeast(chunks, n - 1);
      ServedOnce(chunks, n - 1);
      if Arrived(chunks, n) <= Served(chunks, n - 1) { k := n; }
    }
  }

  /** All requests of the stream have been delivered exactly if, at every point, the chunks that were still
      to come complete no more requests than they are. */
  lemma DeliversAllExactly(chunks: seq<string>)
    ensures Messages(NEW_SESSION, chunks).delivered == Requests(FRESH_CONTEXT, Flatten(chunks)) <==>
      forall j | 0 <= j <= |chunks| :: Arrived(chunks, |chunks|) - Arrived(chunks, j) <= |chunks| - j
  {
    DeliversAPrefix(chunks);
    assert chunks[..|chunks|] == chunks;
    var k := ServedIsLeast(chunks, |chunks|);
    hide Requests, Messages;
  }

  /** setMethod's assertion, wherever parseRequest on `s` would reach it. */
  predicate MethodUnset(ctx: Context, s: string) {
    var crlf := FirstCrlf(s);
    ctx.state == ExpectRequestLine && crlf != -1 && IndexOf(s[..crlf], ' ', 0) < crlf ==>
      ctx.request.verb == InvalidMethod
  }

  /** The line starts with one of the five methods and a space. */
  predicate HasMethod(line: string) {
    var space := IndexOf(line, ' ', 0);
    space < |line| && MethodOf(line[..space]) != InvalidMethod
  }

  /** After a failure the bad line is still at the front, and the next call meets the assertion exactly
      when that line has no method; if it has one, the next call aborts, whatever has arrived. */
  lemma MethodUnsetUntilFailure(ctx: Context, s: string, t: string)
    requires InProgress(ctx) && (ctx.state == ExpectRequestLine ==> ctx.request.verb == InvalidMethod)
    ensures var r := Parse(ctx, s);
      !r.ok ==> FirstCrlf(s) != -1 && r.rest == s && (MethodUnset(r.ctx, r.rest + t) <==> !HasMethod(s[..FirstCrlf(s)]))
  {
    ParseOnce(ctx, s);
    var crlf := FirstCrlf(s);
    if crlf != -1 {
      if ctx.state == ExpectRequestLine {
        var r := RequestLine(ctx.request, s[..crlf]);
        if r.ok {
          HeadersNeverFail(Context(ExpectHeaders, r.request), s[crlf + 2..]);
        } else {
          FirstCrlfStable(s, t);
          assert (s + t)[..crlf] == s[..crlf];
          BadLineKeepsMethod(ctx.request, s[..crlf]);
        }
      } else {
        HeadersNeverFail(ctx, s);
      }
    }
    hide Parse, RequestLine, IndexOf, FirstCrlf;
  }

  lemma BadLineKeepsMethod(q: Request, line: string)
    requires q.verb == InvalidMethod
    ensures RequestLine(q, line).request.verb != InvalidMethod <==> HasMethod(line)
  {
    hide IndexOf, VersionOf;
  }

  lemma HeadersNeverFail(ctx: Context, s: string)
    requires ctx.state == ExpectHeaders
    ensures Parse(ctx, s).ok
  {
    RequestLineUntouched(ctx, s);
  }

  /** Such a line: a known method, and a version that is not one. */
  lemma BadVersionAborts(t: string)
    ensures var r := Parse(FRESH_CONTEXT, "GET / X\r\n");
      !r.ok && r.rest == "GET / X\r\n" && !MethodUnset(r.ctx, r.rest + t)
  {
    var line, s := "GET / X", "GET / X\r\n";
    NoCrlfIn(line);
    assert s == line + "\r\n" + "";
    CrlfEndsLine(line, "");
    IndexOfIs(line, ' ', 0, 3);
    IndexOfIs(line, ' ', 4, 5);
    assert line[..3] == "GET" && line[6..] == "X";
    assert VersionOf("X") == UnknownVersion;
    ParseOnce(FRESH_CONTEXT, s);
    hide IndexOf, FirstCrlf, Parse;
    MethodUnsetUntilFailure(FRESH_CONTEXT, s, t);
  }

  lemma NoCrlfIn(s: string)
    requires Lacks(s, '\r')
    ensures FirstCrlf(s) == -1
  {
  }

  /** A line, and what follows it. */
  datatype LineAt = LineAt(line: string, rest: string)

  /** The first complete line that is `wanted`. */
  function FirstLine(s: string, wanted: string -> bool): (r: Option<LineAt>)
    ensures r.Some? ==> wanted(r.value.line) && |r.value.rest| < |s|
    decreases |s|
  {
    var crlf := FirstCrlf(s);
    if crlf == -1 then None
    else if wanted(s[..crlf]) then Some(LineAt(s[..crlf], s[crlf + 2..]))
    else FirstLine(s[crlf + 2..], wanted)
  }

  predicate Plain(line: string) {
    ':' !in line
  }

  predicate Empty(line: string) {
    line == ""
  }

  /** The headers end behind the first line without ':', be it empty or not; and where they should, behind
      the first empty line, exactly if it is. */
  lemma {:induction false} HeadersEndExactly(ctx: Context, s: string)
    requires ctx.state == ExpectHeaders
    ensures var r := Parse(ctx, s);
      match FirstLine(s, Plain)
      case None => r.ctx.state == ExpectHeaders
      case Some(at) =>
        && r.ctx.state == GotAll && r.rest == at.rest
        && ((FirstLine(s, Empty).Some? && FirstLine(s, Empty).value.rest == r.rest) <==> at.line == "")
    decreases |s|
  {
    hide Parse, IndexOf, FirstCrlf, FirstLine;
    ParseOnce(ctx, s);
    FirstLineOnce(s, Plain);
    FirstLineOnce(s, Empty);
    var crlf := FirstCrlf(s);
    if crlf != -1 && IndexOf(s[..crlf], ':', 0) < crlf {
      var colon := IndexOf(s[..crlf], ':', 0);
      assert s[..crlf][colon] == ':';
      HeadersEndExactly(ctx.(request := HeaderAdded(ctx.request, s[..crlf], colon)), s[crlf + 2..]);
    }
  }

  lemma FirstLineOnce(s: string, wanted: string -> bool)
    ensures var crlf := FirstCrlf(s);
      FirstLine(s, wanted) == if crlf == -1 then None
                              else if wanted(s[..crlf]) then Some(LineAt(s[..crlf], s[crlf + 2..]))
                              else FirstLine(s[crlf + 2..], wanted)
  {
    hide FirstCrlf;
  }

  /** A header line without ':' completes the request, and the header after it is left for the next. */
  lemma JunkEndsHeaders(q: Request)
    ensures Parse(Context(ExpectHeaders, q), "junk\r\nA: b\r\n\r\n") ==
        Outcome(true, Context(GotAll, q), "A: b\r\n\r\n")
  {
    var line, rest := "junk", "A: b\r\n\r\n";
    NoCrlfIn(line);
    assert "junk\r\nA: b\r\n\r\n" == line + "\r\n" + rest;
    CrlfEndsLine(line, rest);
    assert IndexOf(line, ':', 0) == |line|;
    ParseOnce(Context(ExpectHeaders, q), line + "\r\n" + rest);
    hide Parse, FirstCrlf, IndexOf;
  }

  /** Without a failure the assertion is met at every call. */
  lemma {:induction false} MethodUnsetAlways(st: Session, chunks: seq<string>, t: string)
    requires InProgress(st.ctx) && (st.ctx.state == ExpectRequestLine ==> st.ctx.request.verb == InvalidMethod)
    requires !Messages(st, chunks).failed
    ensures MethodUnset(Messages(st, chunks).ctx, t)
    decreases |chunks|
  {
    if chunks != [] {
      if Message(st, chunks[0]).failed { FailureStays(Message(st, chunks[0]), chunks[1..]); }
      RequestLineUntouched(st.ctx, st.buf + chunks[0]);
      MethodUnsetAlways(Message(st, chunks[0]), chunks[1..], t);
    }
  }

  lemma {:induction false} FailureStays(st: Session, chunks: seq<string>)
    requires InProgress(st.ctx) && st.failed
    ensures Messages(st, chunks).failed
    decreases |chunks|
  {
    if chunks != [] { FailureStays(Message(st, chunks[0]), chunks[1..]); }
  }

  lemma {:induction false} RequestLineUntouched(ctx: Context, s: string)
    requires InProgress(ctx)
    ensures var r := Parse(ctx, s); r.ok && r.ctx.state == ExpectRequestLine ==> r.ctx == ctx
    ensures ctx.state == ExpectHeaders ==> Parse(ctx, s).ctx.state != ExpectRequestLine && Parse(ctx, s).ok
    decreases |s|
  {
    var crlf := FirstCrlf(s);
    if crlf != -1 {
      if ctx.state == ExpectRequestLine {
        var r := RequestLine(ctx.request, s[..crlf]);
        if r.ok { RequestLineUntouched(Context(ExpectHeaders, r.request), s[crlf + 2..]); }
      } else {
        var colon := IndexOf(s[..crlf], ':', 0);
        if colon < crlf {
          RequestLineUntouched(ctx.(request := HeaderAdded(ctx.request, s[..crlf], colon)), s[crlf + 2..]);
        }
      }
    }
  }

  // ---- Print, then parse -----------------------------------------------------------------------------------------

  /** A header field, with the white space that may stand before and behind its value. */
  datatype Field = Field(name: string, lead: string, value: string, trail: string)

  /** What isspace accepts in the C locale. */
  const WHITE: set<char> := {' ', '\t', '\n', '\U{0B}', '\U{0C}', '\r'}

  predicate White(s: string) {
    forall i | 0 <= i < |s| :: s[i] in WHITE
  }

  /** No white space at either end. */
  predicate Bare(s: string) {
    s == "" || (s[0] !in WHITE && s[|s| - 1] !in WHITE)
  }

  function VersionString(v: Version): string {
    if v == Http11 then "HTTP/1.1" else "HTTP/1.0"
  }

  function RenderLine(q: Request): string {
    MethodString(q.verb) + " " + q.path + q.query + " " + VersionString(q.version)
  }

  function RenderFields(fields: seq<Field>): string {
    if fields == [] then "" else FieldLine(fields[0]) + "\r\n" + RenderFields(fields[1..])
  }

  /** A request in the syntax of section 3 of RFC 7230, its header fields in the given order. */
  function Render(q: Request, fields: seq<Field>): string {
    RenderLine(q) + "\r\n" + RenderFields(fields) + "\r\n"
  }

  /** The header map that storing the fields in order gives. */
  function Stored(fields: seq<Field>, m: map<string, string>): map<string, string>
    decreases |fields|
  {
    if fields == [] then m else Stored(fields[1..], m[fields[0].name := fields[0].value])
  }

  predicate Lacks(s: string, c: char) {
    forall i | 0 <= i < |s| :: s[i] != c
  }

  /** The pieces of a request line. */
  predicate LineForm(q: Request) {
    && q.verb != InvalidMethod && q.version != UnknownVersion
    && Lacks(q.path, ' ') && Lacks(q.path, '?')
    && Lacks(q.query, ' ') && (q.query == "" || q.query[0] == '?')
  }

  predicate LineWellFormed(q: Request) {
    LineForm(q) && FirstCrlf(q.path) == -1 && FirstCrlf(q.query) == -1
  }

  /** A name without ':', a bare value, white space around it, and no line break in it all. */
  predicate FieldWellFormed(f: Field) {
    && Lacks(f.name, ':') && White(f.lead) && Bare(f.value) && White(f.trail)
    && FirstCrlf(FieldLine(f)) == -1 && FieldLine(f)[|FieldLine(f)| - 1] != '\r'
  }

  lemma IndexOfIs(s: string, c: char, from: nat, i: nat)
    requires from <= i < |s| && s[i] == c && forall j | from <= j < i :: s[j] != c
    ensures IndexOf(s, c, from) == i
  {
  }

  /** No CRLF arises where two pieces meet, unless the first ends in CR and the second starts with LF. */
  lemma NoCrlfAcross(a: string, b: string)
    requires FirstCrlf(a) == -1 && FirstCrlf(b) == -1
    requires a == "" || a[|a| - 1] != '\r' || b == "" || b[0] != '\n'
    ensures FirstCrlf(a + b) == -1
  {
    var i := FirstCrlf(a + b);
    assert CrlfAt(a + b, i) && i + 1 < |a| ==> CrlfAt(a, i);
    assert CrlfAt(a + b, i) && i >= |a| ==> CrlfAt(b, i - |a|);
  }

  lemma CrlfEndsLine(line: string, rest: string)
    requires FirstCrlf(line) == -1 && (line == "" || line[|line| - 1] != '\r')
    ensures FirstCrlf(line + "\r\n" + rest) == |line|
    ensures (line + "\r\n" + rest)[..|line|] == line && (line + "\r\n" + rest)[|line| + 2..] == rest
  {
    var s := line + "\r\n" + rest;
    assert CrlfAt(s, |line|);
    var i := FirstCrlf(s);
    if i + 1 < |line| { assert CrlfAt(line, i); }
  }

  /** Where processRequestLine finds the pieces of a line put together from them. */
  lemma PiecesFound(m: string, path: string, query: string, v: string)
    requires Lacks(m, ' ') && Lacks(path, ' ') && Lacks(path, '?') && Lacks(query, ' ')
    requires query == "" || query[0] == '?'
    ensures var line, start, space2 := m + " " + path + query + " " + v, |m| + 1, |m| + 1 + |path| + |query|;
      && IndexOf(line, ' ', 0) == |m| && line[..|m|] == m
      && IndexOf(line, ' ', start) == space2 && line[space2 + 1..] == v
      && IndexOf(line[..space2], '?', start) == start + |path|
      && line[start..start + |path|] == path && line[start + |path|..space2] == query
  {
    hide IndexOf;
    var line, start, space2 := m + " " + path + query + " " + v, |m| + 1, |m| + 1 + |path| + |query|;
    assert line[..|m|] == m && line[|m|] == ' ';
    assert line[start..start + |path|] == path && line[start + |path|..space2] == query;
    assert line[space2] == ' ' && line[space2 + 1..] == v;
    IndexOfIs(line, ' ', 0, |m|);
    assert forall j | start <= j < space2 :: line[j] == (path + query)[j - start];
    IndexOfIs(line, ' ', start, space2);
    var cut := line[..space2];
    if query == "" {
      assert forall j | start <= j < space2 :: cut[j] == path[j - start];
      assert IndexOf(cut, '?', start) == space2;
    } else {
      assert cut[start + |path|] == query[0];
      IndexOfIs(cut, '?', start, start + |path|);
    }
  }

  lemma PiecesUsed(q0: Request, q: Request, line: string, m: string, v: string)
    requires q.verb != InvalidMethod && q.verb == MethodOf(m) && q0.query == ""
        && |m| + |q.path| + |q.query| + 2 <= |line|
    requires var start, space2 := |m| + 1, |m| + 1 + |q.path| + |q.query|;
      && IndexOf(line, ' ', 0) == |m| && line[..|m|] == m
      && space2 < |line| && IndexOf(line, ' ', start) == space2 && line[space2 + 1..] == v
      && IndexOf(line[..space2], '?', start) == start + |q.path|
      && line[start..start + |q.path|] == q.path && line[start + |q.path|..space2] == q.query
    requires q.version != UnknownVersion && VersionOf(v) == q.version
    ensures RequestLine(q0, line) == LineResult(true, q.(headers := q0.headers))
  {
    hide IndexOf, MethodOf, VersionOf;
    var start, space2 := |m| + 1, |m| + 1 + |q.path| + |q.query|;
    if q.query == "" {
      assert q.query == q0.query;
    } else {
      assert start + |q.path| != space2;
    }
  }

  lemma RequestLineReadsBack(q0: Request, q: Request)
    requires LineForm(q) && q0.query == ""
    ensures RequestLine(q0, RenderLine(q)) == LineResult(true, q.(headers := q0.headers))
  {
    hide IndexOf, RequestLine;
    var m, v := MethodString(q.verb), VersionString(q.version);
    PiecesFound(m, q.path, q.query, v);
    MethodRoundTrip(q.verb);
    VersionReadsBack(q.version);
    hide MethodOf, MethodString, VersionString, Lacks, FirstCrlf;
    PiecesUsed(q0, q, RenderLine(q), m, v);
  }

  /** What processRequestLine accepts: the rendered lines, and each as the request it renders. */
  lemma RequestLineExactly(q0: Request, line: string, q: Request)
    requires q0.query == "" && q.headers == q0.headers
    ensures RequestLine(q0, line) == LineResult(true, q) <==> LineForm(q) && line == RenderLine(q)
    ensures RequestLine(q0, line).ok <==> exists q1: Request ::
        q1.headers == q0.headers && LineForm(q1) && line == RenderLine(q1)
  {
    var r := RequestLine(q0, line);
    if r.ok {
      AcceptedIsRendered(q0, line);
      assert LineForm(r.request) && line == RenderLine(r.request);
    }
    if LineForm(q) && line == RenderLine(q) { RequestLineReadsBack(q0, q); }
    hide RequestLine, RenderLine, LineForm;
    forall q1: Request | q1.headers == q0.headers && LineForm(q1) && line == RenderLine(q1) ensures r.ok {
      RequestLineReadsBack(q0, q1);
    }
  }

  lemma CutUp(line: string, space: nat, question: nat, space2: nat)
    requires space < question <= space2 < |line| && line[space] == ' ' && line[space2] == ' '
    ensures line == line[..space] + " " + line[space + 1..question] + line[question..space2] + " " + line[space2 + 1..]
  {
  }

  lemma AcceptedPieces(q0: Request, line: string)
    requires RequestLine(q0, line).ok
    ensures var space := IndexOf(line, ' ', 0);
      && space < |line| && MethodOf(line[..space]) != InvalidMethod
      && var space2 := IndexOf(line, ' ', space + 1);
      && space2 < |line| && VersionOf(line[space2 + 1..]) != UnknownVersion
      && RequestLine(q0, line).request ==
           TargetSet(q0.(verb := MethodOf(line[..space])), line, space + 1, space2)
             .(version := VersionOf(line[space2 + 1..]))
  {
    hide IndexOf, MethodOf, VersionOf, TargetSet;
  }

  lemma TargetIs(q: Request, line: string, start: nat, space: nat)
    requires start <= space <= |line| && q.query == "" && forall j | start <= j < space :: line[j] != ' '
    ensures var question, t := IndexOf(line[..space], '?', start), TargetSet(q, line, start, space);
      && t == q.(path := line[start..question], query := line[question..space])
      && Lacks(t.path, ' ') && Lacks(t.path, '?') && Lacks(t.query, ' ') && (t.query == "" || t.query[0] == '?')
  {
    hide IndexOf;
    assert forall j | start <= j < space :: line[..space][j] == line[j];
  }

  lemma AcceptedIsRendered(q0: Request, line: string)
    requires q0.query == "" && RequestLine(q0, line).ok
    ensures var q := RequestLine(q0, line).request; LineForm(q) && line == RenderLine(q) && q.headers == q0.headers
  {
    AcceptedPieces(q0, line);
    hide IndexOf, MethodOf, VersionOf, MethodString, VersionString, RequestLine, TargetSet, Lacks;
    var space := IndexOf(line, ' ', 0);
    var space2 := IndexOf(line, ' ', space + 1);
    KnownMethod(line[..space]);
    KnownVersion(line[space2 + 1..]);
    TargetIs(q0.(verb := MethodOf(line[..space])), line, space + 1, space2);
    CutUp(line, space, IndexOf(line[..space2], '?', space + 1), space2);
  }

  lemma KnownMethod(m: string)
    requires MethodOf(m) != InvalidMethod
    ensures m == MethodString(MethodOf(m))
  {
  }

  lemma KnownVersion(v: string)
    requires VersionOf(v) != UnknownVersion
    ensures v == VersionString(VersionOf(v))
  {
    assert v == v[..7] + [v[7]];
  }

  /** A connection is answered 400 exactly if its request line is there whole and renders no request. */
  lemma FailsExactly(st: Session, chunk: string)
    requires InProgress(st.ctx) && (st.ctx.state == ExpectRequestLine ==> st.ctx.request == NO_REQUEST)
    ensures var s := st.buf + chunk;
      Message(st, chunk).failed <==>
        || st.failed
        || (st.ctx.state == ExpectRequestLine && FirstCrlf(s) != -1
            && forall q: Request | q.headers == map[] && LineForm(q) :: s[..FirstCrlf(s)] != RenderLine(q))
  {
    var s := st.buf + chunk;
    var crlf := FirstCrlf(s);
    hide Parse, RequestLine, RenderLine, LineForm, FirstCrlf, IndexOf;
    if st.ctx.state == ExpectHeaders {
      HeadersNeverFail(st.ctx, s);
    } else {
      ParseOnce(st.ctx, s);
      if crlf != -1 {
        var r := RequestLine(NO_REQUEST, s[..crlf]);
        RequestLineExactly(NO_REQUEST, s[..crlf], NO_REQUEST);
        if r.ok { HeadersNeverFail(Context(ExpectHeaders, r.request), s[crlf + 2..]); }
      }
    }
  }

  lemma VersionReadsBack(v: Version)
    requires v != UnknownVersion
    ensures VersionOf(VersionString(v)) == v && FirstCrlf(VersionString(v)) == -1 && VersionString(v) != ""
    ensures VersionString(v)[|VersionString(v)| - 1] != '\r' && VersionString(v)[0] != '\n'
  {
  }

  /** A rendered request line has no CRLF in it and does not end in CR. */
  lemma LineHasNoCrlf(q: Request)
    requires LineWellFormed(q)
    ensures FirstCrlf(RenderLine(q)) == -1 && RenderLine(q)[|RenderLine(q)| - 1] != '\r'
  {
    var m, v := MethodString(q.verb), VersionString(q.version);
    NoCrlfAcross(m, " ");
    NoCrlfAcross(m + " ", q.path);
    NoCrlfAcross(m + " " + q.path, q.query);
    NoCrlfAcross(m + " " + q.path + q.query, " ");
    VersionReadsBack(q.version);
    NoCrlfAcross(m + " " + q.path + q.query + " ", v);
  }

  function FieldLine(f: Field): (line: string)
    ensures line != ""
  {
    f.name + ":" + f.lead + f.value + f.trail
  }

  lemma SpaceIs(c: char)
    ensures IsSpace(c) <==> c in WHITE
  {
  }

  lemma {:induction false} TrimsLeft(l: string, v: string)
    requires White(l) && (v == "" || v[0] !in WHITE)
    ensures TrimLeft(l + v) == v
    decreases |l|
  {
    if l == "" {
      assert l + v == v;
      if v != "" { SpaceIs(v[0]); }
    } else {
      SpaceIs(l[0]);
      TrimsLeft(l[1..], v);
      assert (l + v)[1..] == l[1..] + v;
    }
  }

  lemma {:induction false} TrimsRight(v: string, r: string)
    requires White(r) && (v == "" || v[|v| - 1] !in WHITE)
    ensures TrimRight(v + r) == v
    decreases |r|
  {
    if r == "" {
      assert v + r == v;
      if v != "" { SpaceIs(v[|v| - 1]); }
    } else {
      var n := |r| - 1;
      SpaceIs(r[n]);
      TrimsRight(v, r[..n]);
      assert (v + r)[..|v + r| - 1] == v + r[..n];
    }
  }

  /** Trimming takes off all white space around a value, and nothing else. */
  lemma Trims(l: string, v: string, r: string)
    requires White(l) && Bare(v) && White(r)
    ensures TrimRight(TrimLeft(l + v + r)) == v
  {
    if v == "" {
      TrimsLeft(l + r, "");
      assert l + v + r == l + r + "" && TrimRight("") == "";
    } else {
      TrimsLeft(l, v + r);
      assert l + v + r == l + (v + r);
      TrimsRight(v, r);
    }
  }

  lemma FieldReadsBack(q: Request, f: Field)
    requires FieldWellFormed(f)
    ensures IndexOf(FieldLine(f), ':', 0) == |f.name|
    ensures HeaderAdded(q, FieldLine(f), |f.name|) == q.(headers := q.headers[f.name := f.value])
  {
    var line := FieldLine(f);
    assert line[|f.name|] == ':' && line[..|f.name|] == f.name;
    IndexOfIs(line, ':', 0, |f.name|);
    assert line[|f.name| + 1..] == f.lead + f.value + f.trail;
    Trims(f.lead, f.value, f.trail);
    hide IndexOf, TrimLeft, TrimRight;
  }

  lemma {:induction false} FieldsReadBack(q: Request, fields: seq<Field>, tail: string)
    requires forall f | f in fields :: FieldWellFormed(f)
    ensures Parse(Context(ExpectHeaders, q), RenderFields(fields) + "\r\n" + tail)
         == Outcome(true, Context(GotAll, q.(headers := Stored(fields, q.headers))), tail)
    decreases |fields|
  {
    var s := RenderFields(fields) + "\r\n" + tail;
    if fields == [] {
      CrlfEndsLine("", tail);
      assert s == "" + "\r\n" + tail;
    } else {
      var f, rest := fields[0], RenderFields(fields[1..]) + "\r\n" + tail;
      FieldReadsBack(q, f);
      CrlfEndsLine(FieldLine(f), rest);
      assert s == FieldLine(f) + "\r\n" + rest;
      FieldsReadBack(q.(headers := q.headers[f.name := f.value]), fields[1..], tail);
    }
  }

  /** `fields` lists the header map `h`, each name once, in some order. */
  ghost predicate Enumerates(fields: seq<Field>, h: map<string, string>) {
    && (forall i, j | 0 <= i < j < |fields| :: fields[i].name != fields[j].name)
    && (forall f | f in fields :: f.name in h && h[f.name] == f.value)
    && (forall k | k in h :: exists f: Field :: f in fields && f.name == k)
  }

  lemma {:induction false} StoredIs(fields: seq<Field>, m: map<string, string>)
    requires forall i, j | 0 <= i < j < |fields| :: fields[i].name != fields[j].name
    ensures forall f | f in fields :: f.name in Stored(fields, m) && Stored(fields, m)[f.name] == f.value
    ensures forall k | k in Stored(fields, m) :: k in m || exists f: Field :: f in fields && f.name == k
    ensures forall k | k in m && (forall f | f in fields :: f.name != k) ::
        k in Stored(fields, m) && Stored(fields, m)[k] == m[k]
    decreases |fields|
  {
    if fields != [] {
      var rest, m' := fields[1..], m[fields[0].name := fields[0].value];
      StoredIs(rest, m');
      assert forall f | f in fields :: f == fields[0] || f in rest;
      assert forall f | f in rest :: f in fields;
    }
  }

  lemma StoredAll(fields: seq<Field>, h: map<string, string>)
    requires Enumerates(fields, h)
    ensures Stored(fields, map[]) == h
  {
    StoredIs(fields, map[]);
  }

  /** Rendering a well-formed request, its header map in any order, and parsing the result gives the
      request back and leaves what follows it. */
  lemma PrintThenParse(q: Request, fields: seq<Field>, tail: string)
    requires LineWellFormed(q) && Enumerates(fields, q.headers)
    requires forall f | f in fields :: FieldWellFormed(f)
    ensures Parse(FRESH_CONTEXT, Render(q, fields) + tail) == Outcome(true, Context(GotAll, q), tail)
  {
    var line, rest := RenderLine(q), RenderFields(fields) + "\r\n" + tail;
    var s := Render(q, fields) + tail;
    assert s == line + "\r\n" + rest;
    LineHasNoCrlf(q);
    CrlfEndsLine(line, rest);
    RequestLineReadsBack(NO_REQUEST, q);
    FieldsReadBack(q.(headers := map[]), fields, tail);
    StoredAll(fields, q.headers);
    hide RequestLine, RenderLine, RenderFields, Stored, FirstCrlf, LineWellFormed, FieldWellFormed, Enumerates;
    assert s[..|line|] == line && s[|line| + 2..] == rest;
    assert Parse(FRESH_CONTEXT, s) == Parse(Context(ExpectHeaders, q.(headers := map[])), rest);
  }

  lemma OneRequestParsed(q: Request, s: string, rest: string, done: seq<Request>)
    requires Parse(FRESH_CONTEXT, s) == Outcome(true, Context(GotAll, q), rest)
    ensures Requests(FRESH_CONTEXT, s) == [q] + Requests(FRESH_CONTEXT, rest)
    ensures Message(Session(FRESH_CONTEXT, "", done, false), s) == Session(FRESH_CONTEXT, rest, done + [q], false)
    ensures Message(Session(FRESH_CONTEXT, s, done, false), "") == Session(FRESH_CONTEXT, rest, done + [q], false)
    ensures Requests(FRESH_CONTEXT, "") == []
  {
    assert "" + s == s && s + "" == s;
    assert Parse(FRESH_CONTEXT, "").ctx == FRESH_CONTEXT;
    hide Parse;
  }

  /** Two requests in one chunk: the second is answered only when more bytes arrive, and those that
      arrive may be none. */
  lemma PipelinedRequestWaits(q1: Request, f1: seq<Field>, q2: Request, f2: seq<Field>)
    requires LineWellFormed(q1) && Enumerates(f1, q1.headers) && forall f | f in f1 :: FieldWellFormed(f)
    requires LineWellFormed(q2) && Enumerates(f2, q2.headers) && forall f | f in f2 :: FieldWellFormed(f)
    ensures var both := Render(q1, f1) + Render(q2, f2);
      && Requests(FRESH_CONTEXT, both) == [q1, q2]
      && Message(NEW_SESSION, both) == Session(FRESH_CONTEXT, Render(q2, f2), [q1], false)
      && Message(Message(NEW_SESSION, both), "") == Session(FRESH_CONTEXT, "", [q1, q2], false)
  {
    var one, two := Render(q1, f1), Render(q2, f2);
    PrintThenParse(q1, f1, two);
    PrintThenParse(q2, f2, "");
    assert two + "" == two;
    OneRequestParsed(q1, one + two, two, []);
    OneRequestParsed(q2, two, "", [q1]);
    hide *;
    assert [q1] + [q2] + [] == [q1, q2] && [] + [q1] == [q1];
  }

  // ---- The class -------------------------------------------------------------------------------------------

  class HttpContext {
    var state: ParseState
    var request: Request

    function Snapshot(): Context reads this { Context(state, request) }

    constructor ()
      ensures Snapshot() == FRESH_CONTEXT
    {
      state, request := ExpectRequestLine, NO_REQUEST;
    }

    function GotAllOfIt(): bool reads this { state == GotAll }

    method Reset()
      modifies this
      ensures Snapshot() == FRESH_CONTEXT
    {
      state := ExpectRequestLine;
      request := NO_REQUEST;
    }

    /** HttpRequest::setMethod, with its assertion. */
    method SetMethod(m: string) returns (known: bool)
      requires request.verb == InvalidMethod
      modifies this`request
      ensures request == old(request).(verb := MethodOf(m)) && (known <==> MethodOf(m) != InvalidMethod)
    {
      request := request.(verb := MethodOf(m));
      known := request.verb != InvalidMethod;
    }

    /** HttpRequest::addHeader: skips leading white space, then pops trailing white space. */
    method AddHeader(line: string, colon: nat)
      requires colon < |line|
      modifies this`request
      ensures request == HeaderAdded(old(request), line, colon)
      ensures forall l, v, r | White(l) && Bare(v) && White(r) && line[colon + 1..] == l + v + r ::
                request == old(request).(headers := old(request).headers[line[..colon] := v])
    {
      var start := colon + 1;
      while start < |line| && IsSpace(line[start])
        invariant colon + 1 <= start <= |line|
        invariant TrimLeft(line[start..]) == TrimLeft(line[colon + 1..])
      {
        assert line[start..][1..] == line[start + 1..];
        start := start + 1;
      }
      var value := line[start..];
      while value != "" && IsSpace(value[|value| - 1])
        invariant TrimRight(value) == TrimRight(line[start..])
        decreases |value|
      {
        value := value[..|value| - 1];
      }
      request := request.(headers := request.headers[line[..colon] := value]);
      forall l, v, r | White(l) && Bare(v) && White(r) && line[colon + 1..] == l + v + r ensures value == v {
        Trims(l, v, r);
      }
    }

    method ProcessRequestLine(line: string) returns (succeed: bool)
      requires IndexOf(line, ' ', 0) < |line| ==> request.verb == InvalidMethod
      modifies this`request
      ensures LineResult(succeed, request) == RequestLine(old(request), line)
    {
      hide IndexOf, MethodOf;
      succeed := false;
      var start := 0;
      var space := IndexOf(line, ' ', start);
      if space != |line| {
        var known := SetMethod(line[start..space]);
        if known {
          start := space + 1;
          space := IndexOf(line, ' ', start);
          if space != |line| {
            var question := IndexOf(line[..space], '?', start);
            if question != space {
              request := request.(path := line[start..question]);
              request := request.(query := line[question..space]);
            } else {
              request := request.(path := line[start..space]);
            }
            start := space + 1;
            succeed := |line| - start == 8 && line[start..|line| - 1] == "HTTP/1.";
            assert |line| - start == 8 ==> line[start..][..7] == line[start..|line| - 1];
            if succeed {
              if line[|line| - 1] == '1' {
                request := request.(version := Http11);
              } else if line[|line| - 1] == '0' {
                request := request.(version := Http10);
              } else {
                succeed := false;
              }
            }
          }
        }
      }
    }

    /** The branch of kExpectRequestLine, a CRLF having been found. */
    method TakeRequestLine(buf: Buffer, crlf: nat) returns (ok: bool)
      requires buf.Valid() && state == ExpectRequestLine && crlf == FirstCrlf(buf.Contents())
      requires MethodUnset(Snapshot(), buf.Contents())
      modifies this, buf`readerIndex, buf`writerIndex
      ensures buf.Valid()
      ensures var r := RequestLine(old(request), old(buf.Contents())[..crlf]);
        && ok == r.ok && Snapshot() == Context(if ok then ExpectHeaders else ExpectRequestLine, r.request)
        && buf.Contents() == if ok then old(buf.Contents())[crlf + 2..] else old(buf.Contents())
    {
      ok := ProcessRequestLine(buf.Contents()[..crlf]);
      hide RequestLine;
      if ok {
        buf.Retrieve(crlf + 2);
        state := ExpectHeaders;
      }
    }

    /** The branch of kExpectHeaders, a CRLF having been found. */
    method TakeHeaderLine(buf: Buffer, crlf: nat) returns (hasMore: bool)
      requires buf.Valid() && state == ExpectHeaders && crlf == FirstCrlf(buf.Contents())
      modifies this, buf`readerIndex, buf`writerIndex
      ensures buf.Valid() && buf.Contents() == old(buf.Contents())[crlf + 2..]
      ensures var line := old(buf.Contents())[..crlf]; var colon := IndexOf(line, ':', 0);
        if colon < crlf then hasMore && Snapshot() == Context(ExpectHeaders, HeaderAdded(old(request), line, colon))
        else !hasMore && Snapshot() == Context(GotAll, old(request))
    {
      hasMore := true;
      var line := buf.Contents()[..crlf];
      var colon := IndexOf(line, ':', 0);
      hide HeaderAdded, IndexOf;
      if colon != crlf {
        AddHeader(line, colon);
      } else {
        state := GotAll;
        hasMore := false;
      }
      buf.Retrieve(crlf + 2);
    }

    /** One turn of the loop, a CRLF having been found: what is left to parse gives the same outcome. */
    method TakeLine(buf: Buffer, crlf: nat) returns (ok: bool, hasMore: bool)
      requires buf.Valid() && InProgress(Snapshot()) && MethodUnset(Snapshot(), buf.Contents())
          && crlf == FirstCrlf(buf.Contents())
      modifies this, buf`readerIndex, buf`writerIndex
      ensures buf.Valid()
      ensures InStep(hasMore, ok, Snapshot(), buf.Contents(), Parse(old(Snapshot()), old(buf.Contents())))
      ensures hasMore ==> buf.ReadableBytes() < old(buf.ReadableBytes())
    {
      hide RequestLine, HeaderAdded, IndexOf, FirstCrlf, Parse, InStep, MethodUnset;
      ghost var c, s := Snapshot(), buf.Contents();
      if state == ExpectRequestLine {
        ok := TakeRequestLine(buf, crlf);
        hasMore := ok;
        RequestLineStep(c, s, crlf, Snapshot(), buf.Contents());
      } else {
        ok := true;
        hasMore := TakeHeaderLine(buf, crlf);
        HeaderLineStep(c, s, crlf, hasMore, Snapshot(), buf.Contents());
      }
    }

    /** The parsing loop ends, and does what Parse says. */
    method ParseRequest(buf: Buffer) returns (ok: bool)
      requires buf.Valid() && InProgress(Snapshot()) && MethodUnset(Snapshot(), buf.Contents())
      modifies this, buf`readerIndex, buf`writerIndex
      ensures buf.Valid()
      ensures Outcome(ok, Snapshot(), buf.Contents()) == Parse(old(Snapshot()), old(buf.Contents()))
    {
      ghost var whole := Parse(Snapshot(), buf.Contents());
      ok := true;
      var hasMore := true;
      hide Parse, MethodUnset, FirstCrlf;
      while hasMore
        invariant buf.Valid() && InStep(hasMore, ok, Snapshot(), buf.Contents(), whole)
        decreases hasMore, buf.ReadableBytes()
      {
        var crlf := buf.FindCRLF();
        if crlf == -1 {
          ParseOnce(Snapshot(), buf.Contents());
          hasMore := false;
        } else {
          ok, hasMore := TakeLine(buf, crlf);
        }
      }
    }
  }

  lemma RequestLineStep(c: Context, s: string, crlf: nat, c': Context, s': string)
    requires c.state == ExpectRequestLine && crlf == FirstCrlf(s)
    requires var r := RequestLine(c.request, s[..crlf]);
      && c' == Context(if r.ok then ExpectHeaders else ExpectRequestLine, r.request)
      && s' == if r.ok then s[crlf + 2..] else s
    ensures var ok := RequestLine(c.request, s[..crlf]).ok; InStep(ok, ok, c', s', Parse(c, s))
  {
    ParseOnce(c, s);
    hide Parse, RequestLine, FirstCrlf, IndexOf;
  }

  lemma HeaderLineStep(c: Context, s: string, crlf: nat, hasMore: bool, c': Context, s': string)
    requires c.state == ExpectHeaders && crlf == FirstCrlf(s) && s' == s[crlf + 2..]
    requires var colon := IndexOf(s[..crlf], ':', 0);
      if colon < crlf then hasMore && c' == Context(ExpectHeaders, HeaderAdded(c.request, s[..crlf], colon))
      else !hasMore && c' == Context(GotAll, c.request)
    ensures InStep(hasMore, true, c', s', Parse(c, s))
  {
    ParseOnce(c, s);
    hide Parse, HeaderAdded, FirstCrlf, IndexOf;
  }

  /** Where the loop stands, `whole` being the outcome to come. */
  predicate InStep(hasMore: bool, ok: bool, ctx: Context, s: string, whole: Outcome) {
    if hasMore then ok && InProgress(ctx) && MethodUnset(ctx, s) && Parse(ctx, s) == whole
    else Outcome(ok, ctx, s) == whole
  }

  /** HttpServer::onMessage after `chunk` has been read into the connection's input buffer; `request` is
      what it hands to onRequest, `bad` whether it answers 400. */
  method OnMessage(context: HttpContext, buf: Buffer, ghost chunk: string, ghost before: Session)
    returns (request: seq<Request>, bad: bool)
    requires buf.Valid() && before.ctx == context.Snapshot() && before.buf + chunk == buf.Contents()
    requires InProgress(context.Snapshot()) && MethodUnset(context.Snapshot(), buf.Contents())
    modifies context, buf`readerIndex, buf`writerIndex
    ensures buf.Valid()
    ensures Session(context.Snapshot(), buf.Contents(), before.delivered + request, before.failed || bad)
         == Message(before, chunk)
  {
    request := [];
    var ok := context.ParseRequest(buf);
    bad := !ok;
    if context.GotAllOfIt() {
      request := [context.request];
      context.Reset();
    }
  }
}
