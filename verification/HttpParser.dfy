/**
 The incremental request parser of muduo-cpp11/net/http: http_server.cpp, http_request.h, http_context.h.
 First the parser as a function on byte strings and its laws, then the source's classes, whose methods
 are proved to compute that function while consuming the connection's input buffer.
 */
module HttpParser {
  import opened Text
  import opened ByteBuffer

  // ---------------------------------------------------------------- values

  datatype Method = Invalid | Get | Post | Head | Put | Delete
  datatype Version = Unknown | Http10 | Http11
  datatype ParseState = ExpectRequestLine | ExpectHeaders | ExpectBody | GotAll

  datatype Request = Request(
    verb: Method, version: Version, path: string, query: string,
    remoteAddr: string, headers: map<string, string>)

  datatype Context = Context(state: ParseState, request: Request)
  {
    /** The states in which ParseRequest may be entered; in the others its loop would not end. */
    predicate Parsing() { state.ExpectRequestLine? || state.ExpectHeaders? }
  }

  /** What ParseRequest leaves: its result, the context, and the bytes still in the buffer. */
  datatype Outcome = Outcome(ok: bool, ctx: Context, rest: string)
  {
    predicate Done() { !ok || ctx.state.GotAll? }
  }

  function MethodOf(token: string): Method {
    if token == "GET" then Get
    else if token == "POST" then Post
    else if token == "HEAD" then Head
    else if token == "PUT" then Put
    else if token == "DELETE" then Delete
    else Invalid
  }

  function MethodString(m: Method): string {
    match m
    case Get => "GET"
    case Post => "POST"
    case Head => "HEAD"
    case Put => "PUT"
    case Delete => "DELETE"
    case Invalid => "UNKNOWN"
  }

  function NewRequest(): Request {
    Request(Invalid, Unknown, "", "", "", map[])
  }

  function NewContext(remoteAddr: string): Context {
    Context(ExpectRequestLine, NewRequest().(remoteAddr := remoteAddr))
  }

  /** HttpContext::Reset. swap() exchanges every field with a new request except the version. */
  function ResetContext(c: Context): Context {
    Context(ExpectRequestLine, NewRequest().(version := c.request.version))
  }

  // ---------------------------------------------------------------- the parser as a function

  function SetTarget(r: Request, target: string): Request {
    var q := Find(target, '?');
    if q < |target| then r.(path := target[..q], query := target[q..]) else r.(path := target)
  }

  function VersionOf(s: string): Version {
    if |s| == 8 && s[..7] == "HTTP/1." then
      if s[7] == '1' then Http11 else if s[7] == '0' then Http10 else Unknown
    else Unknown
  }

  /** ProcessRequestLine; a failing line may already have changed method, path and query. */
  function RequestLine(line: string, r: Request): (bool, Request) {
    var sp := Find(line, ' ');
    if sp == |line| then (false, r)
    else
      var r1 := r.(verb := MethodOf(line[..sp]));
      if r1.verb.Invalid? then (false, r1)
      else
        var tail := line[sp + 1..];
        var sp2 := Find(tail, ' ');
        if sp2 == |tail| then (false, r1)
        else
          var r2 := SetTarget(r1, tail[..sp2]);
          var v := VersionOf(tail[sp2 + 1..]);
          if v.Unknown? then (false, r2) else (true, r2.(version := v))
  }

  function AddHeader(r: Request, line: string, colon: nat): Request
    requires colon < |line|
  {
    r.(headers := r.headers[line[..colon] := TrimRight(TrimLeft(line[colon + 1..]))])
  }

  /** What one complete line does to the context. */
  datatype LineResult = Continue(ctx: Context) | Reject(ctx: Context) | Finish(ctx: Context)

  function ParseLine(c: Context, line: string): (r: LineResult)
    requires c.Parsing()
    ensures r.Continue? ==> r.ctx.state.ExpectHeaders?
    ensures r.Finish? ==> r.ctx == c.(state := GotAll)
    ensures r.Reject? ==> r.ctx.state == c.state && c.state.ExpectRequestLine?
  {
    if c.state.ExpectRequestLine? then
      var (ok, r) := RequestLine(line, c.request);
      if ok then Continue(Context(ExpectHeaders, r)) else Reject(c.(request := r))
    else
      var colon := Find(line, ':');
      if colon < |line| then Continue(c.(request := AddHeader(c.request, line, colon)))
      else Finish(c.(state := GotAll))
  }

  /** ParseRequest on the readable bytes of the buffer. */
  function Parse(c: Context, buf: string): (o: Outcome)
    requires c.Parsing()
    ensures !o.Done() ==> o.ctx.Parsing()
    ensures |o.rest| <= |buf|
    decreases |buf|
  {
    var crlf := FindCrlf(buf);
    if crlf.None? then Outcome(true, c, buf)
    else
      var line, tail := buf[..crlf.value], buf[crlf.value + 2..];
      var r := ParseLine(c, line);
      if r.Continue? then Parse(r.ctx, tail)
      else if r.Reject? then Outcome(false, r.ctx, buf)
      else Outcome(true, r.ctx, tail)
  }

  // ---------------------------------------------------------------- chunking independence

  /** More bytes arrive: they are parsed unless the request already failed or completed. */
  function Feed(o: Outcome, chunk: string): Outcome
    requires !o.Done() ==> o.ctx.Parsing()
  {
    if o.Done() then o.(rest := o.rest + chunk) else Parse(o.ctx, o.rest + chunk)
  }

  function FeedAll(o: Outcome, chunks: seq<string>): Outcome
    requires !o.Done() ==> o.ctx.Parsing()
    decreases |chunks|
  {
    if chunks == [] then o else FeedAll(Feed(o, chunks[0]), chunks[1..])
  }

  function Concat(chunks: seq<string>): string {
    if chunks == [] then "" else chunks[0] + Concat(chunks[1..])
  }

  /** Parsing a and then what follows is parsing both at once: same result, context and unread bytes. */
  lemma {:induction false} ParseAppend(c: Context, a: string, b: string)
    requires c.Parsing()
    ensures Feed(Parse(c, a), b) == Parse(c, a + b)
    decreases |a|
  {
    if FindCrlf(a).Some? {
      FindCrlfStable(a, b);
      var i := FindCrlf(a).value;
      var line, tail := a[..i], a[i + 2..];
      assert (a + b)[..i] == line && (a + b)[i + 2..] == tail + b;
      var r := ParseLine(c, line);
      if r.Continue? {
        ParseAppend(r.ctx, tail, b);
      }
    }
  }

  lemma {:induction false} FeedAllParsed(c: Context, a: string, chunks: seq<string>)
    requires c.Parsing()
    ensures FeedAll(Parse(c, a), chunks) == Parse(c, a + Concat(chunks))
    decreases |chunks|
  {
    if chunks == [] {
      assert a + "" == a;
    } else {
      var first, more := chunks[0], chunks[1..];
      calc {
        FeedAll(Parse(c, a), chunks);
        FeedAll(Feed(Parse(c, a), first), more);
        { ParseAppend(c, a, first); }
        FeedAll(Parse(c, a + first), more);
        { FeedAllParsed(c, a + first, more); }
        Parse(c, a + first + Concat(more));
        { assert a + first + Concat(more) == a + Concat(chunks); }
        Parse(c, a + Concat(chunks));
      }
    }
  }

  /** However the stream is cut into chunks, the outcome is that of parsing it in one piece. */
  lemma ChunkingIndependence(c: Context, chunks: seq<string>)
    requires c.Parsing()
    ensures FeedAll(Outcome(true, c, ""), chunks) == Parse(c, Concat(chunks))
  {
    FeedAllParsed(c, "", chunks);
    assert "" + Concat(chunks) == Concat(chunks);
  }

  /** Each line that lets the loop go on costs at least two bytes. */
  lemma {:induction false} ProgressConsumes(c: Context, buf: string)
    requires c.Parsing()
    ensures var o := Parse(c, buf);
            o.ok && o.ctx != c ==> |o.rest| + 2 <= |buf|
  {
  }

  // ---------------------------------------------------------------- the set_method assertion

  /** set_method asserts that no method is set yet; a context that never failed keeps that true. */
  lemma {:induction false} NoMethodBeforeLine(c: Context, buf: string)
    requires c.Parsing()
    requires c.state.ExpectRequestLine? ==> c.request.verb.Invalid?
    ensures var o := Parse(c, buf);
            o.ok && o.ctx.state.ExpectRequestLine? ==> o.ctx.request.verb.Invalid?
    decreases |buf|
  {
    if FindCrlf(buf).Some? {
      var i := FindCrlf(buf).value;
      var r := ParseLine(c, buf[..i]);
      if r.Continue? {
        NoMethodBeforeLine(r.ctx, buf[i + 2..]);
      }
    }
  }

  lemma {:induction false} HeadersNeverFail(c: Context, buf: string)
    requires c.state.ExpectHeaders?
    ensures Parse(c, buf).ok
    ensures Parse(c, buf).ctx.request.version == c.request.version
    ensures Parse(c, buf).ctx.state.ExpectHeaders? || Parse(c, buf).ctx.state.GotAll?
    decreases |buf|
  {
    if FindCrlf(buf).Some? {
      var i := FindCrlf(buf).value;
      var r := ParseLine(c, buf[..i]);
      if r.Continue? {
        HeadersNeverFail(r.ctx, buf[i + 2..]);
      }
    }
  }

  /**
   After a rejected request line the assertion of the next attempt holds exactly when the line did not
   start with a known method and a space: the method of a rejected line is not taken back.
   */
  lemma RejectedLineKeepsMethod(remoteAddr: string, buf: string)
    requires !Parse(NewContext(remoteAddr), buf).ok
    ensures FindCrlf(buf).Some?
    ensures var line := buf[..FindCrlf(buf).value];
            var sp := Find(line, ' ');
            Parse(NewContext(remoteAddr), buf).ctx.request.verb.Invalid?
            <==> sp == |line| || MethodOf(line[..sp]).Invalid?
  {
    var line := buf[..FindCrlf(buf).value];
    var (ok, r) := RequestLine(line, NewContext(remoteAddr).request);
    if ok {
      HeadersNeverFail(Context(ExpectHeaders, r), buf[FindCrlf(buf).value + 2..]);
    }
  }

  // ---------------------------------------------------------------- isolation between requests

  /** Equal except for the two fields that Reset does not restore. */
  predicate SameParse(a: Request, b: Request) {
    a.(version := b.version, remoteAddr := b.remoteAddr) == b
  }

  lemma RequestLineSame(line: string, a: Request, b: Request)
    requires SameParse(a, b)
    ensures RequestLine(line, a).0 == RequestLine(line, b).0
    ensures SameParse(RequestLine(line, a).1, RequestLine(line, b).1)
    ensures RequestLine(line, a).1.remoteAddr == a.remoteAddr
    ensures RequestLine(line, a).0 ==> RequestLine(line, a).1.version == RequestLine(line, b).1.version
    ensures !RequestLine(line, a).0 ==> RequestLine(line, a).1.version == a.version
  {
  }

  lemma {:induction false} HeadersSame(a: Context, b: Context, buf: string)
    requires a.state.ExpectHeaders? && b.state.ExpectHeaders? && SameParse(a.request, b.request)
    ensures var p, q := Parse(a, buf), Parse(b, buf);
            p.ok == q.ok && p.rest == q.rest && p.ctx.state == q.ctx.state
            && SameParse(p.ctx.request, q.ctx.request)
            && p.ctx.request.remoteAddr == a.request.remoteAddr
    decreases |buf|
  {
    if FindCrlf(buf).Some? {
      var i := FindCrlf(buf).value;
      var line := buf[..i];
      var colon := Find(line, ':');
      if colon < |line| {
        HeadersSame(a.(request := AddHeader(a.request, line, colon)),
                    b.(request := AddHeader(b.request, line, colon)), buf[i + 2..]);
      }
    }
  }

  /**
   A context that served a request and was Reset parses as a new one: same result, state, unread bytes,
   method, path, query and headers. The version agrees as soon as a request line was accepted, and before
   that exactly when the served request had none. The remote address is lost by the Reset.
   */
  lemma ResetParsesAsNew(served: Context, remoteAddr: string, buf: string)
    ensures var p, q := Parse(ResetContext(served), buf), Parse(NewContext(remoteAddr), buf);
            && p.ok == q.ok && p.rest == q.rest && p.ctx.state == q.ctx.state
            && SameParse(p.ctx.request, q.ctx.request)
            && (p.ctx.request.version == q.ctx.request.version
                <==> !p.ctx.state.ExpectRequestLine? || served.request.version.Unknown?)
            && p.ctx.request.remoteAddr == "" && q.ctx.request.remoteAddr == remoteAddr
  {
    var a, b := ResetContext(served), NewContext(remoteAddr);
    if FindCrlf(buf).Some? {
      var i := FindCrlf(buf).value;
      var line, tail := buf[..i], buf[i + 2..];
      RequestLineSame(line, a.request, b.request);
      RequestLineSame(line, b.request, a.request);
      var (ok, r) := RequestLine(line, a.request);
      if ok {
        var s := RequestLine(line, b.request).1;
        HeadersSame(Context(ExpectHeaders, r), Context(ExpectHeaders, s), tail);
        HeadersSame(Context(ExpectHeaders, s), Context(ExpectHeaders, r), tail);
        HeadersNeverFail(Context(ExpectHeaders, r), tail);
        HeadersNeverFail(Context(ExpectHeaders, s), tail);
      }
    }
  }

  // ---------------------------------------------------------------- round trip

  /** A header as it stands on the wire, with any white space around its value. */
  datatype Header = Header(field: string, lead: string, value: string, trail: string)

  function HeaderLine(h: Header): string {
    h.field + ":" + h.lead + h.value + h.trail
  }

  predicate WellFormedHeader(h: Header) {
    && ':' !in h.field
    && AllSpace(h.lead) && AllSpace(h.trail)
    && (h.value != "" ==> !IsSpace(h.value[0]) && !IsSpace(h.value[|h.value| - 1]))
    && FindCrlf(HeaderLine(h)).None?
  }

  function VersionString(v: Version): string {
    match v
    case Http11 => "HTTP/1.1"
    case Http10 => "HTTP/1.0"
    case Unknown => "HTTP/1.?"
  }

  /** The request line: the target is the path followed by the query, which holds its question mark. */
  function PrintLine(r: Request): string {
    MethodString(r.verb) + " " + (r.path + r.query) + " " + VersionString(r.version)
  }

  predicate WellFormedLine(r: Request) {
    && !r.verb.Invalid? && !r.version.Unknown?
    && ' ' !in r.path && '?' !in r.path
    && ' ' !in r.query && (r.query != "" ==> r.query[0] == '?')
    && FindCrlf(PrintLine(r)).None?
  }

  function PrintHeaders(hs: seq<Header>): string {
    if hs == [] then "\r\n" else HeaderLine(hs[0]) + "\r\n" + PrintHeaders(hs[1..])
  }

  function Store(m: map<string, string>, hs: seq<Header>): map<string, string>
    decreases |hs|
  {
    if hs == [] then m else Store(m[hs[0].field := hs[0].value], hs[1..])
  }

  lemma HeaderParses(r: Request, h: Header)
    requires WellFormedHeader(h)
    ensures Find(HeaderLine(h), ':') == |h.field| < |HeaderLine(h)|
    ensures AddHeader(r, HeaderLine(h), |h.field|) == r.(headers := r.headers[h.field := h.value])
  {
    var line := HeaderLine(h);
    FindIsFirst(line, ':', |h.field|);
    assert line[..|h.field|] == h.field;
    var after := line[|h.field| + 1..];
    assert after == h.lead + h.value + h.trail;
    if h.value == "" {
      assert after == (h.lead + h.trail) + "";
      TrimLeftOf(h.lead + h.trail, "");
    } else {
      assert after == h.lead + (h.value + h.trail);
      TrimLeftOf(h.lead, h.value + h.trail);
      TrimRightOf(h.value, h.trail);
    }
  }

  /** A first line without CR LF inside it is taken whole. */
  lemma ParseFirstLine(c: Context, line: string, tail: string)
    requires c.Parsing() && FindCrlf(line).None?
    ensures var buf, r := line + "\r\n" + tail, ParseLine(c, line);
            Parse(c, buf) == if r.Continue? then Parse(r.ctx, tail)
                             else if r.Reject? then Outcome(false, r.ctx, buf)
                             else Outcome(true, r.ctx, tail)
  {
    var buf := line + "\r\n" + tail;
    FindCrlfAfterLine(line, tail);
    assert buf[..|line|] == line && buf[|line| + 2..] == tail;
  }

  lemma {:induction false} HeadersParse(c: Context, hs: seq<Header>, rest: string)
    requires c.state.ExpectHeaders?
    requires forall i :: 0 <= i < |hs| ==> WellFormedHeader(hs[i])
    ensures Parse(c, PrintHeaders(hs) + rest)
         == Outcome(true, Context(GotAll, c.request.(headers := Store(c.request.headers, hs))), rest)
    decreases |hs|
  {
    var buf := PrintHeaders(hs) + rest;
    if hs == [] {
      assert buf == "" + "\r\n" + rest;
      ParseFirstLine(c, "", rest);
    } else {
      var h := hs[0];
      var tail := PrintHeaders(hs[1..]) + rest;
      assert buf == HeaderLine(h) + "\r\n" + tail;
      ParseFirstLine(c, HeaderLine(h), tail);
      HeaderParses(c.request, h);
      var d := c.(request := c.request.(headers := c.request.headers[h.field := h.value]));
      HeadersParse(d, hs[1..], rest);
    }
  }

  lemma MethodTokens(m: Method)
    requires !m.Invalid?
    ensures MethodOf(MethodString(m)) == m && ' ' !in MethodString(m)
  {
    match m {
      case Get => assert ' ' !in "GET";
      case Post => assert ' ' !in "POST";
      case Head => assert ' ' !in "HEAD";
      case Put => assert ' ' !in "PUT";
      case Delete => assert ' ' !in "DELETE";
    }
  }

  lemma TargetParses(r: Request, path: string, query: string)
    requires '?' !in path && (query != "" ==> query[0] == '?')
    requires query == "" ==> r.query == ""
    ensures SetTarget(r, path + query) == r.(path := path, query := query)
  {
    var target := path + query;
    if query == "" {
      assert target == path;
      FindMissing(path, '?');
    } else {
      FindIsFirst(target, '?', |path|);
      assert target[..|path|] == path && target[|path|..] == query;
    }
  }

  lemma LineParses(r: Request, was: Request)
    requires WellFormedLine(r)
    requires was.query == ""
    ensures RequestLine(PrintLine(r), was)
         == (true, was.(verb := r.verb, path := r.path, query := r.query, version := r.version))
  {
    MethodTokens(r.verb);
    VersionTokens(r.version);
    var m, target, v := MethodString(r.verb), r.path + r.query, VersionString(r.version);
    var tail := target + " " + v;
    assert PrintLine(r) == m + " " + tail;
    TargetParses(was.(verb := r.verb), r.path, r.query);
    LineFromParts(m, target, v, was);
  }

  /** ProcessRequestLine in terms of the three words of its line. */
  lemma LineFromParts(m: string, target: string, v: string, was: Request)
    requires ' ' !in m && ' ' !in target
    requires !MethodOf(m).Invalid? && !VersionOf(v).Unknown?
    ensures RequestLine(m + " " + (target + " " + v), was)
         == (true, SetTarget(was.(verb := MethodOf(m)), target).(version := VersionOf(v)))
  {
    SplitAtFirst(m, ' ', target + " " + v);
    SplitAtFirst(target, ' ', v);
  }

  lemma VersionTokens(v: Version)
    requires !v.Unknown?
    ensures VersionOf(VersionString(v)) == v
  {
    assert "HTTP/1.1"[..7] == "HTTP/1." && "HTTP/1.0"[..7] == "HTTP/1.";
  }

  /**
   Round trip: a well-formed request line and header lines, printed and parsed in a new or reset context,
   give back method, path, query, version and the stored headers, and leave what follows unread.
   */
  lemma RoundTrip(c: Context, r: Request, hs: seq<Header>, rest: string)
    requires c.state.ExpectRequestLine? && c.request.query == ""
    requires WellFormedLine(r)
    requires forall i :: 0 <= i < |hs| ==> WellFormedHeader(hs[i])
    ensures Parse(c, PrintLine(r) + "\r\n" + PrintHeaders(hs) + rest)
         == Outcome(true,
                    Context(GotAll, r.(remoteAddr := c.request.remoteAddr,
                                       headers := Store(c.request.headers, hs))),
                    rest)
  {
    var line := PrintLine(r);
    var tail := PrintHeaders(hs) + rest;
    var buf := line + "\r\n" + PrintHeaders(hs) + rest;
    assert buf == line + "\r\n" + tail;
    ParseFirstLine(c, line, tail);
    LineParses(r, c.request);
    HeadersParse(Context(ExpectHeaders, RequestLine(line, c.request).1), hs, rest);
  }

  /** With distinct fields, every header is found under its own field, and no other field appears. */
  lemma {:induction false} StoredHeaders(m: map<string, string>, hs: seq<Header>)
    requires forall i, j :: 0 <= i < j < |hs| ==> hs[i].field != hs[j].field
    ensures forall i :: 0 <= i < |hs| ==>
              hs[i].field in Store(m, hs) && Store(m, hs)[hs[i].field] == hs[i].value
    ensures forall f :: f in Store(m, hs) && (forall i :: 0 <= i < |hs| ==> hs[i].field != f) ==>
              f in m && Store(m, hs)[f] == m[f]
    ensures forall f :: f in m && (forall i :: 0 <= i < |hs| ==> hs[i].field != f) ==>
              f in Store(m, hs) && Store(m, hs)[f] == m[f]
    decreases |hs|
  {
    if hs == [] {
    } else {
      var m1 := m[hs[0].field := hs[0].value];
      StoredHeaders(m1, hs[1..]);
      forall i | 0 <= i < |hs|
        ensures hs[i].field in Store(m, hs) && Store(m, hs)[hs[i].field] == hs[i].value
      {
        if i > 0 {
          assert hs[i] == hs[1..][i - 1];
        }
      }
      forall f | forall i :: 0 <= i < |hs| ==> hs[i].field != f
        ensures f in Store(m, hs) <==> f in m
        ensures f in m ==> Store(m, hs)[f] == m[f]
      {
        assert hs[0].field != f;
        assert forall i :: 0 <= i < |hs[1..]| ==> hs[1..][i] == hs[i + 1];
      }
    }
  }

  // ---------------------------------------------------------------- which lines are accepted

  /** The line is a known method, a target without spaces and a known version, separated by single spaces. */
  predicate IsRequestLine(line: string, m: string, target: string, v: string) {
    && m in ["GET", "POST", "HEAD", "PUT", "DELETE"] && ' ' !in target && v in ["HTTP/1.0", "HTTP/1.1"]
    && line == m + " " + target + " " + v
  }

  /** The request carries exactly the parts of such a line; a target without question mark leaves the query alone. */
  predicate Carries(r: Request, was: Request, m: string, target: string, v: string) {
    && (r.verb == Get <==> m == "GET") && (r.verb == Post <==> m == "POST") && (r.verb == Head <==> m == "HEAD")
    && (r.verb == Put <==> m == "PUT") && (r.verb == Delete <==> m == "DELETE")
    && (r.version == Http10 <==> v == "HTTP/1.0") && (r.version == Http11 <==> v == "HTTP/1.1")
    && (if '?' in target then '?' !in r.path && r.path + r.query == target && r.query != "" && r.query[0] == '?'
        else r.path == target && r.query == was.query)
    && r.remoteAddr == was.remoteAddr && r.headers == was.headers
  }

  lemma KnownMethods(m: string)
    ensures !MethodOf(m).Invalid? <==> m in ["GET", "POST", "HEAD", "PUT", "DELETE"]
    ensures MethodOf(m) == Get <==> m == "GET"
    ensures MethodOf(m) == Post <==> m == "POST"
    ensures MethodOf(m) == Head <==> m == "HEAD"
    ensures MethodOf(m) == Put <==> m == "PUT"
    ensures MethodOf(m) == Delete <==> m == "DELETE"
    ensures !MethodOf(m).Invalid? ==> ' ' !in m
  {
    if !MethodOf(m).Invalid? {
      MethodTokens(MethodOf(m));
      assert m == MethodString(MethodOf(m));
    }
  }

  lemma KnownVersions(v: string)
    ensures VersionOf(v) == Http10 <==> v == "HTTP/1.0"
    ensures VersionOf(v) == Http11 <==> v == "HTTP/1.1"
  {
    assert "HTTP/1.0"[..7] == "HTTP/1." && "HTTP/1.1"[..7] == "HTTP/1.";
    if |v| == 8 {
      assert v == v[..7] + [v[7]];
    }
  }

  lemma TargetSplits(r: Request, target: string)
    ensures var t := SetTarget(r, target);
            && t == r.(path := t.path, query := t.query)
            && (if '?' in target then '?' !in t.path && t.path + t.query == target && t.query != "" && t.query[0] == '?'
                else t.path == target && t.query == r.query)
  {
    FindMeaning(target, '?');
    var q := Find(target, '?');
    assert target[..q] + target[q..] == target;
  }

  lemma AcceptedParts(m: string, target: string, v: string, was: Request)
    requires IsRequestLine(m + " " + (target + " " + v), m, target, v)
    ensures var (ok, r) := RequestLine(m + " " + (target + " " + v), was);
            ok && Carries(r, was, m, target, v)
  {
    KnownMethods(m);
    KnownVersions(v);
    LineFromParts(m, target, v, was);
    TargetSplits(was.(verb := MethodOf(m)), target);
  }

  lemma JoinWords(m: string, target: string, v: string)
    ensures m + [' '] + (target + [' '] + v) == m + " " + target + " " + v
  {
  }

  /** An accepted line falls into its three words. */
  lemma AcceptedSplits(line: string, was: Request) returns (m: string, target: string, v: string)
    requires RequestLine(line, was).0
    ensures IsRequestLine(line, m, target, v)
  {
    var sp := Find(line, ' ');
    m := line[..sp];
    var tail := line[sp + 1..];
    var sp2 := Find(tail, ' ');
    target, v := tail[..sp2], tail[sp2 + 1..];
    KnownMethods(m);
    KnownVersions(v);
    CutAtFirst(line, ' ');
    CutAtFirst(tail, ' ');
    JoinWords(m, target, v);
  }

  /** Exactly the lines of that form are accepted, and an accepted request carries the parts of its line. */
  lemma AcceptedIff(line: string, was: Request)
    ensures RequestLine(line, was).0 <==> exists m, target, v :: IsRequestLine(line, m, target, v)
    ensures forall m, target, v :: IsRequestLine(line, m, target, v) ==>
              Carries(RequestLine(line, was).1, was, m, target, v)
  {
    if RequestLine(line, was).0 {
      var m, target, v := AcceptedSplits(line, was);
    }
    forall m, target, v | IsRequestLine(line, m, target, v)
      ensures RequestLine(line, was).0 && Carries(RequestLine(line, was).1, was, m, target, v)
    {
      assert line == m + " " + (target + " " + v);
      AcceptedParts(m, target, v, was);
    }
  }

  /** The line has the form of a request line up to its version, which may be anything. */
  predicate HasTarget(line: string, m: string, target: string, v: string) {
    m in ["GET", "POST", "HEAD", "PUT", "DELETE"] && ' ' !in target && line == m + " " + target + " " + v
  }

  /** The cursor of ProcessRequestLine finds two spaces after a known method. */
  predicate TwoSpaces(line: string) {
    var sp := Find(line, ' ');
    sp < |line| && !MethodOf(line[..sp]).Invalid? && var tail := line[sp + 1..]; Find(tail, ' ') < |tail|
  }

  lemma {:induction false} TwoSpacesGiveTarget(line: string)
    ensures TwoSpaces(line) ==> exists m, target, v :: HasTarget(line, m, target, v)
  {
    if TwoSpaces(line) {
      var sp := Find(line, ' ');
      var m, tail := line[..sp], line[sp + 1..];
      var sp2 := Find(tail, ' ');
      KnownMethods(m);
      CutAtFirst(line, ' ');
      CutAtFirst(tail, ' ');
      JoinWords(m, tail[..sp2], tail[sp2 + 1..]);
      assert HasTarget(line, m, tail[..sp2], tail[sp2 + 1..]);
    }
  }

  lemma {:induction false} RejectedFields(line: string, was: Request)
    requires !RequestLine(line, was).0
    ensures var r := RequestLine(line, was).1;
            && r.version == was.version && r.headers == was.headers && r.remoteAddr == was.remoteAddr
            && (Find(line, ' ') == |line| ==> r == was)
            && (TwoSpaces(line) || (r.path == was.path && r.query == was.query))
  {
  }

  /** What a rejected line leaves behind: never a version; path and query only if it has a target. */
  lemma RejectedLeaves(line: string, was: Request)
    requires !RequestLine(line, was).0
    ensures var r := RequestLine(line, was).1;
            && r.version == was.version && r.headers == was.headers && r.remoteAddr == was.remoteAddr
            && (' ' !in line ==> r == was)
            && ((exists m, target, v :: HasTarget(line, m, target, v)) || (r.path == was.path && r.query == was.query))
  {
    RejectedFields(line, was);
    TwoSpacesGiveTarget(line);
    if ' ' !in line {
      FindMissing(line, ' ');
    }
  }

  /** The header block ends at exactly the lines without a colon, and every other line is a header. */
  lemma HeadersEndIff(c: Context, line: string)
    requires c.state.ExpectHeaders?
    ensures ParseLine(c, line).Finish? <==> ':' !in line
    ensures ParseLine(c, line).Continue? <==> ':' in line
  {
    FindMeaning(line, ':');
  }

  /** A call fails exactly when it has a complete first line that is not a request line. */
  lemma ParseFailsIff(c: Context, buf: string)
    requires c.state.ExpectRequestLine?
    ensures !Parse(c, buf).ok <==>
              FindCrlf(buf).Some?
              && !exists m, target, v :: IsRequestLine(buf[..FindCrlf(buf).value], m, target, v)
  {
    if FindCrlf(buf).Some? {
      var i := FindCrlf(buf).value;
      AcceptedIff(buf[..i], c.request);
      var (ok, r) := RequestLine(buf[..i], c.request);
      if ok {
        HeadersNeverFail(Context(ExpectHeaders, r), buf[i + 2..]);
      }
    }
  }

  // ---------------------------------------------------------------- two inputs

  /** A request line that lacks its version is rejected and leaves its method behind. */
  lemma RejectedLineExample(remoteAddr: string)
    ensures var o := Parse(NewContext(remoteAddr), "GET x" + "\r\n" + "");
            !o.ok && o.ctx.state.ExpectRequestLine? && o.ctx.request.verb == Get
  {
    var line := "GET x";
    FindCrlfMeaning(line);
    ParseFirstLine(NewContext(remoteAddr), line, "");
    SplitAtFirst("GET", ' ', "x");
    assert line == "GET" + [' '] + "x";
    FindMissing("x", ' ');
  }

  /** The request line "GET / HTTP/1.1", and what it gives. */
  function RootRequest(remoteAddr: string): Request {
    Request(Get, Http11, "/", "", remoteAddr, map[])
  }

  /** After a request has been served and the context reset, the version is still there and the address is gone. */
  lemma ResetExample(remoteAddr: string)
    ensures var served := Parse(NewContext(remoteAddr), PrintLine(RootRequest(remoteAddr)) + "\r\n" + PrintHeaders([]) + "").ctx;
            && served == Context(GotAll, RootRequest(remoteAddr))
            && Parse(ResetContext(served), "").ctx.request == NewRequest().(version := Http11)
            && Parse(NewContext(remoteAddr), "").ctx.request == NewRequest().(remoteAddr := remoteAddr)
  {
    var r := RootRequest(remoteAddr);
    FindCrlfMeaning(PrintLine(r));
    assert PrintLine(r) == "GET / HTTP/1.1";
    RoundTrip(NewContext(remoteAddr), r, [], "");
  }

  // ---------------------------------------------------------------- the source's classes

  class HttpRequest {
    var verb: Method
    var version: Version
    var path: string
    var query: string
    var remoteAddr: string
    var headers: map<string, string>

    ghost function View(): Request
      reads this
    {
      Request(verb, version, path, query, remoteAddr, headers)
    }

    constructor ()
      ensures View() == NewRequest()
    {
      verb, version, path, query, remoteAddr, headers := Invalid, Unknown, "", "", "", map[];
    }

    method SetMethod(token: string) returns (ok: bool)
      modifies this
      ensures View() == old(View()).(verb := MethodOf(token))
      ensures ok <==> !MethodOf(token).Invalid?
    {
      if token == "GET" {
        verb := Get;
      } else if token == "POST" {
        verb := Post;
      } else if token == "HEAD" {
        verb := Head;
      } else if token == "PUT" {
        verb := Put;
      } else if token == "DELETE" {
        verb := Delete;
      } else {
        verb := Invalid;
      }
      ok := verb != Invalid;
    }

    /** AddHeader(start, colon, end) on the line that runs from start to end. */
    method AddHeaderLine(line: string, colon: nat)
      requires colon < |line|
      modifies this
      ensures View() == AddHeader(old(View()), line, colon)
    {
      var field := line[..colon];
      var start := colon + 1;
      while start < |line| && IsSpace(line[start])
        invariant colon < start <= |line|
        invariant TrimLeft(line[colon + 1..]) == TrimLeft(line[start..])
      {
        assert line[start..][1..] == line[start + 1..];
        start := start + 1;
      }
      var value := line[start..];
      while value != "" && IsSpace(value[|value| - 1])
        invariant TrimRight(value) == TrimRight(TrimLeft(line[colon + 1..]))
        decreases |value|
      {
        value := value[..|value| - 1];
      }
      headers := headers[field := value];
    }

    /** swap: the version is not exchanged. */
    method Swap(that: HttpRequest)
      requires that != this
      modifies this, that
      ensures View() == old(that.View()).(version := old(version))
      ensures that.View() == old(View()).(version := old(that.version))
    {
      verb, that.verb := that.verb, verb;
      path, that.path := that.path, path;
      query, that.query := that.query, query;
      remoteAddr, that.remoteAddr := that.remoteAddr, remoteAddr;
      headers, that.headers := that.headers, headers;
    }
  }

  class HttpContext {
    var state: ParseState
    const request: HttpRequest

    ghost function View(): Context
      reads this, request
    {
      Context(state, request.View())
    }

    constructor (remoteAddr: string)
      ensures fresh(request) && View() == NewContext(remoteAddr)
    {
      state := ExpectRequestLine;
      request := new HttpRequest();
      new;
      request.remoteAddr := remoteAddr;
    }

    method Reset()
      modifies this, request
      ensures View() == ResetContext(old(View()))
    {
      state := ExpectRequestLine;
      var dummy := new HttpRequest();
      request.Swap(dummy);
    }

    method ProcessRequestLine(line: string) returns (succeed: bool)
      modifies request
      ensures (succeed, request.View()) == RequestLine(line, old(request.View()))
    {
      succeed := false;
      var space := Find(line, ' ');
      if space != |line| {
        var known := request.SetMethod(line[..space]);
        if known {
          var tail := line[space + 1..];
          space := Find(tail, ' ');
          if space != |tail| {
            var target := tail[..space];
            var question := Find(target, '?');
            if question != |target| {
              request.path := target[..question];
              request.query := target[question..];
            } else {
              request.path := target;
            }
            var v := tail[space + 1..];
            succeed := |v| == 8 && v[..7] == "HTTP/1.";
            if succeed {
              if v[7] == '1' {
                request.version := Http11;
              } else if v[7] == '0' {
                request.version := Http10;
              } else {
                succeed := false;
              }
            }
          }
        }
      }
    }
  }

  /** The part of the loop of ParseRequest that handles one complete line. */
  method ProcessLine(context: HttpContext, line: string) returns (ok: bool, hasMore: bool)
    requires context.View().Parsing()
    modifies context, context.request
    ensures var r := ParseLine(old(context.View()), line);
            context.View() == r.ctx && (ok <==> !r.Reject?) && (hasMore <==> r.Continue?)
  {
    ok, hasMore := true, true;
    if context.state.ExpectRequestLine? {
      ok := context.ProcessRequestLine(line);
      if ok {
        context.state := ExpectHeaders;
      } else {
        hasMore := false;
      }
    } else {
      var colon := Find(line, ':');
      if colon != |line| {
        context.request.AddHeaderLine(line, colon);
      } else {
        context.state := GotAll;
        hasMore := false;
      }
    }
  }

  /** What one turn of the loop leaves to the next. */
  lemma ParseTurn(c: Context, buf: string)
    requires c.Parsing()
    ensures var crlf := FindCrlf(buf);
            if crlf.None? then Parse(c, buf) == Outcome(true, c, buf)
            else
              var r, tail := ParseLine(c, buf[..crlf.value]), buf[crlf.value + 2..];
              && (r.Continue? ==> r.ctx.Parsing() && Parse(c, buf) == Parse(r.ctx, tail))
              && (r.Reject? ==> Parse(c, buf) == Outcome(false, r.ctx, buf))
              && (r.Finish? ==> Parse(c, buf) == Outcome(true, r.ctx, tail))
  {
  }

  /** One turn of the loop of ParseRequest: at most one line leaves the buffer. */
  method ParseNextLine(buf: Buffer, context: HttpContext) returns (ok: bool, hasMore: bool)
    requires buf.Valid() && context.View().Parsing()
    modifies buf, context, context.request
    ensures buf.Valid() && buf.data == old(buf.data)
    ensures hasMore ==> ok && context.View().Parsing() && |buf.Contents()| + 2 <= |old(buf.Contents())|
    ensures Parse(old(context.View()), old(buf.Contents()))
         == if hasMore then Parse(context.View(), buf.Contents())
            else Outcome(ok, context.View(), buf.Contents())
  {
    ParseTurn(context.View(), buf.Contents());
    ok, hasMore := true, false;
    var crlf := buf.FindCRLF();
    if crlf.Some? {
      var line := buf.data[buf.reader..buf.reader + crlf.value];
      assert line == buf.Contents()[..crlf.value];
      ok, hasMore := ProcessLine(context, line);
      if ok {
        buf.Retrieve(crlf.value + 2);
      }
    }
  }

  /** ParseRequest: consumes whole lines from the buffer until it fails, completes or runs out of lines. */
  method ParseRequest(buf: Buffer, context: HttpContext) returns (ok: bool)
    requires buf.Valid() && context.View().Parsing()
    modifies buf, context, context.request
    ensures buf.Valid() && buf.data == old(buf.data)
    ensures Outcome(ok, context.View(), buf.Contents()) == Parse(old(context.View()), old(buf.Contents()))
  {
    ok := true;
    var hasMore := true;
    while hasMore
      invariant buf.Valid() && buf.data == old(buf.data)
      invariant hasMore ==> ok && context.View().Parsing()
      invariant Parse(old(context.View()), old(buf.Contents()))
             == if hasMore then Parse(context.View(), buf.Contents())
                else Outcome(ok, context.View(), buf.Contents())
      decreases hasMore, |buf.Contents()|
    {
      ok, hasMore := ParseNextLine(buf, context);
    }
  }
}
