/**
 * The HTTP layer of src/http_server.cpp: the request scanner (request line, header fields,
 * query string), the exact-match route table, Content-Length body framing, dispatch with
 * its 404 and 500 answers, and response serialisation. Sockets are replaced by the bytes
 * they deliver and the string that would be written back.
 */
module HttpServer {
  import opened Wrappers
  import opened Text
  import opened HttpMessage

  // ------------------------------------------------------------------ name/value maps

  /** Writing the pairs into `m` one after another, as `params[name] = value` does. */
  function Assign(m: map<string, string>, pairs: seq<(string, string)>): map<string, string>
    decreases |pairs|
  {
    if pairs == [] then m else Assign(m[pairs[0].0 := pairs[0].1], pairs[1..])
  }

  lemma AssignCons(m: map<string, string>, p: (string, string), pairs: seq<(string, string)>)
    ensures Assign(m, [p] + pairs) == Assign(m[p.0 := p.1], pairs)
  {
    assert ([p] + pairs)[0] == p && ([p] + pairs)[1..] == pairs;
  }

  /** The position of the last pair with name `k`. */
  function LastWithName(pairs: seq<(string, string)>, k: string): (r: Option<nat>)
    ensures r.Some? ==> r.value < |pairs| && pairs[r.value].0 == k
    ensures r.Some? ==> forall j :: r.value < j < |pairs| ==> pairs[j].0 != k
    ensures r.None? ==> forall j :: 0 <= j < |pairs| ==> pairs[j].0 != k
    decreases |pairs|
  {
    if pairs == [] then None
    else match LastWithName(pairs[1..], k)
      case Some(i) => Some(i + 1)
      case None => if pairs[0].0 == k then Some(0) else None
  }

  /**
   * Last write wins: after the writes a name maps to the value of its last pair; a name
   * no pair carries keeps what it had.
   */
  lemma {:induction false} AssignLookup(m: map<string, string>, pairs: seq<(string, string)>, k: string)
    ensures match LastWithName(pairs, k)
      case Some(i) => k in Assign(m, pairs) && Assign(m, pairs)[k] == pairs[i].1
      case None => (k in Assign(m, pairs) <==> k in m) && (k in m ==> Assign(m, pairs)[k] == m[k])
    decreases |pairs|
  {
    if pairs != [] {
      AssignLookup(m[pairs[0].0 := pairs[0].1], pairs[1..], k);
    }
  }

  // ------------------------------------------------------------------ query string

  /** One `name=value` parameter: cut at the first '='; without '=' the value is "". */
  function SplitParam(param: string): (string, string) {
    match FindChar(param, '=')
    case Some(i) => (param[..i], param[i + 1..])
    case None => (param, "")
  }

  /** The parameters `while (getline(stream, param, '&'))` visits, split into name and value. */
  function QueryPairs(query: string): seq<(string, string)>
    decreases |query|
  {
    match Getline(query, '&')
    case None => []
    case Some((param, rest)) => [SplitParam(param)] + QueryPairs(rest)
  }

  /** The value is everything after the first '=', so it may itself contain '='. */
  lemma SplitParamOfJoined(name: string, value: string)
    requires '=' !in name
    ensures SplitParam(name + "=" + value) == (name, value)
  {
    var param := name + "=" + value;
    assert param == name + ['='] + value;
    FindCharAt(name, '=', value);
    assert param[..|name|] == name;
    assert param[|name| + 1..] == value;
  }

  /** A query string written as `n1=v1&n2=v2&...`, with no percent-encoding. */
  function EncodeQuery(pairs: seq<(string, string)>): string
    decreases |pairs|
  {
    if pairs == [] then ""
    else if |pairs| == 1 then pairs[0].0 + "=" + pairs[0].1
    else pairs[0].0 + "=" + pairs[0].1 + "&" + EncodeQuery(pairs[1..])
  }

  predicate PlainParam(p: (string, string)) {
    '=' !in p.0 && '&' !in p.0 && '&' !in p.1
  }

  /**
   * Round trip: the scanner recovers every written parameter, in order, provided names
   * contain neither '=' nor '&' and values contain no '&' (values may contain '=').
   */
  lemma {:induction false} QueryPairsOfEncoded(pairs: seq<(string, string)>)
    requires forall i :: 0 <= i < |pairs| ==> PlainParam(pairs[i])
    ensures QueryPairs(EncodeQuery(pairs)) == pairs
    decreases |pairs|
  {
    if pairs != [] {
      var param := pairs[0].0 + "=" + pairs[0].1;
      assert '&' !in param;
      SplitParamOfJoined(pairs[0].0, pairs[0].1);
      if |pairs| == 1 {
        assert Getline(param, '&') == Some((param, []));
        assert QueryPairs(param) == [SplitParam(param)] + QueryPairs([]);
        assert pairs == [pairs[0]];
      } else {
        var rest := EncodeQuery(pairs[1..]);
        assert EncodeQuery(pairs) == param + "&" + rest;
        QueryPairsCons(param, rest);
        QueryPairsOfEncoded(pairs[1..]);
        assert pairs == [pairs[0]] + pairs[1..];
      }
    }
  }

  /** A parameter free of '&' followed by '&' is the first parameter the scanner sees. */
  lemma QueryPairsCons(param: string, rest: string)
    requires '&' !in param
    ensures QueryPairs(param + "&" + rest) == [SplitParam(param)] + QueryPairs(rest)
  {
    assert param + "&" + rest == param + ['&'] + rest;
    GetlineAt(param, '&', rest);
  }

  method ParseQueryParams(queryString: string) returns (params: map<string, string>)
    ensures params == Assign(map[], QueryPairs(queryString))
  {
    params := map[];
    var stream := queryString;
    while true
      invariant Assign(params, QueryPairs(stream)) == Assign(map[], QueryPairs(queryString))
      decreases |stream|
    {
      match Getline(stream, '&')
      case None =>
        break;
      case Some((param, rest)) =>
        var equalsPos := FindChar(param, '=');
        if equalsPos.Some? {
          var name := param[..equalsPos.value];
          var value := param[equalsPos.value + 1..];
          params := params[name := value];
        } else {
          params := params[param := ""];
        }
        stream := rest;
    }
  }

  // ------------------------------------------------------------------ header fields

  /** A header line (its '\r' already dropped): the name before the first ':', the value after it, left-trimmed. */
  function HeaderField(line: string): Option<(string, string)> {
    match FindChar(line, ':')
    case Some(i) => Some((line[..i], TrimLeft(line[i + 1..])))
    case None => None
  }

  /**
   * The fields the header loop records from the unread text: it stops at the first line
   * that is "" or "\r" (or at the end), and skips lines without ':'.
   */
  function HeaderPairs(stream: string): seq<(string, string)>
    decreases |stream|
  {
    match Getline(stream, '\n')
    case None => []
    case Some((line, rest)) =>
      if line == "\r" || line == "" then []
      else match HeaderField(DropCR(line))
        case Some(field) => [field] + HeaderPairs(rest)
        case None => HeaderPairs(rest)
  }

  /** A well-formed `name: value` line yields exactly that field. */
  lemma HeaderLineParsed(name: string, value: string, rest: string)
    requires ':' !in name && '\n' !in name && '\n' !in value
    requires TrimLeft(value) == value
    ensures HeaderPairs(name + ": " + value + "\r\n" + rest) == [(name, value)] + HeaderPairs(rest)
  {
    var line := name + ": " + value + "\r";
    assert name + ": " + value + "\r\n" + rest == line + ['\n'] + rest;
    assert '\n' !in line;
    GetlineAt(line, '\n', rest);
    var field := name + ": " + value;
    assert line == field + ['\r'];
    assert DropCR(line) == field;
    HeaderFieldOf(name, value);
  }

  lemma HeaderFieldOf(name: string, value: string)
    requires ':' !in name && TrimLeft(value) == value
    ensures HeaderField(name + ": " + value) == Some((name, value))
  {
    var tail := " " + value;
    var field := name + [':'] + tail;
    assert field == name + ": " + value;
    FindCharAt(name, ':', tail);
    assert field[..|name|] == name;
    assert field[|name| + 1..] == tail;
    assert tail[0] == ' ' && tail[1..] == value;
    assert TrimLeft(tail) == TrimLeft(value);
  }

  /** A line without ':' is skipped. */
  lemma HeaderLineSkipped(line: string, rest: string)
    requires ':' !in line && '\n' !in line && line != "" && line != "\r"
    ensures HeaderPairs(line + "\n" + rest) == HeaderPairs(rest)
  {
    GetlineAt(line, '\n', rest);
    assert ':' !in DropCR(line);
  }

  /** Parsing stops at the blank line, whatever follows it. */
  lemma HeaderBlankLineEnds(rest: string)
    ensures HeaderPairs("\r\n" + rest) == []
    ensures HeaderPairs("\n" + rest) == []
  {
    GetlineAt("\r", '\n', rest);
    GetlineAt("", '\n', rest);
    assert "\r" + ['\n'] + rest == "\r\n" + rest;
    assert "" + ['\n'] + rest == "\n" + rest;
  }

  // ------------------------------------------------------------------ request

  /** What `parseRequest` builds from the text read up to (and possibly past) the blank line. */
  function RequestOf(requestStr: string): Request {
    var first := FirstLine(requestStr);
    var words := Tokens(DropCR(first.0));
    var target := TargetOf(TokenAt(words, 1));
    Request(TokenAt(words, 0), target.0, TokenAt(words, 2), Assign(map[], HeaderPairs(first.1)), "", target.1)
  }

  /** The request line (an empty one when the text is empty) and the text after it. */
  function FirstLine(requestStr: string): (string, string) {
    match Getline(requestStr, '\n')
    case None => ("", "")
    case Some(p) => p
  }

  /** The path and query parameters of a request target: the query is what follows the first '?'. */
  function TargetOf(target: string): (string, map<string, string>) {
    match FindChar(target, '?')
    case Some(q) => (target[..q], Assign(map[], QueryPairs(target[q + 1..])))
    case None => (target, map[])
  }

  method ParseRequest(requestStr: string) returns (request: Request)
    ensures request == RequestOf(requestStr)
  {
    var requestLine, stream := ReadRequestLine(requestStr);
    if requestLine != [] && requestLine[|requestLine| - 1] == '\r' {
      requestLine := requestLine[..|requestLine| - 1];
    }
    assert requestLine == DropCR(FirstLine(requestStr).0);
    var words := Tokens(requestLine);
    var httpMethod, path, version := TokenAt(words, 0), TokenAt(words, 1), TokenAt(words, 2);
    var queryParams;
    path, queryParams := SplitTarget(path);
    var headers := ParseHeaders(stream);
    request := Request(httpMethod, path, version, headers, "", queryParams);
  }

  /** The first `getline(stream, line)` of `parseRequest`. */
  method ReadRequestLine(requestStr: string) returns (requestLine: string, stream: string)
    ensures (requestLine, stream) == FirstLine(requestStr)
  {
    requestLine, stream := "", requestStr;
    match Getline(stream, '\n') {
      case Some((line, rest)) =>
        requestLine, stream := line, rest;
      case None =>
    }
  }

  /** Cut the query string off the path and parse it. */
  method SplitTarget(target: string) returns (path: string, queryParams: map<string, string>)
    ensures (path, queryParams) == TargetOf(target)
  {
    path, queryParams := target, map[];
    var queryPos := FindChar(path, '?');
    if queryPos.Some? {
      var queryString := path[queryPos.value + 1..];
      path := path[..queryPos.value];
      queryParams := ParseQueryParams(queryString);
    }
  }

  /** The header loop of `parseRequest`, run on the text after the request line. */
  method ParseHeaders(text: string) returns (headers: map<string, string>)
    ensures headers == Assign(map[], HeaderPairs(text))
  {
    headers := map[];
    var stream := text;
    while true
      invariant Assign(headers, HeaderPairs(stream)) == Assign(map[], HeaderPairs(text))
      decreases |stream|
    {
      var next := Getline(stream, '\n');
      if next.None? {
        break;
      }
      var headerLine, rest := next.value.0, next.value.1;
      if headerLine == "\r" || headerLine == "" {
        break;
      }
      var field := ReadHeaderField(headerLine);
      assert HeaderPairs(stream) == if field.Some? then [field.value] + HeaderPairs(rest) else HeaderPairs(rest);
      if field.Some? {
        AssignCons(headers, field.value, HeaderPairs(rest));
        headers := headers[field.value.0 := field.value.1];
      }
      stream := rest;
    }
  }

  /** One non-blank header line: drop its '\r', split at the first ':', trim the value's left. */
  method ReadHeaderField(headerLine: string) returns (field: Option<(string, string)>)
    ensures field == HeaderField(DropCR(headerLine))
  {
    var line := headerLine;
    if line != [] && line[|line| - 1] == '\r' {
      line := line[..|line| - 1];
    }
    assert line == DropCR(headerLine);
    var colonPos := FindChar(line, ':');
    if colonPos.Some? {
      var name := line[..colonPos.value];
      var value := TrimLeft(line[colonPos.value + 1..]);
      field := Some((name, value));
    } else {
      field := None;
    }
    assert field == HeaderField(line);
  }

  /** The path never keeps a '?': everything from the first '?' on is the query string. */
  lemma PathHasNoQuestionMark(requestStr: string)
    ensures '?' !in RequestOf(requestStr).path
  {
  }

  /** `w + " " + rest` starts with the word `w`. */
  lemma TokensOfWordThenSpace(w: string, rest: string)
    requires IsWord(w)
    ensures Tokens(w + " " + rest) == [w] + Tokens(rest)
  {
    var s := w + " " + rest;
    assert TrimLeft(s) == s;
    assert s == w + (" " + rest);
    WordOfWord(w, " " + rest);
    assert s[|w|..] == " " + rest;
    assert TrimLeft(" " + rest) == TrimLeft(rest);
  }

  lemma TokensOfWord(w: string)
    requires IsWord(w)
    ensures Tokens(w) == [w]
  {
    assert TrimLeft(w) == w;
    assert w + [] == w;
    WordOfWord(w, []);
    assert w[|w|..] == [];
  }

  lemma WordHasNoNewline(w: string)
    requires IsWord(w)
    ensures '\n' !in w && '\r' !in w
  {
  }

  lemma RequestLineWords(m: string, p: string, v: string, rest: string)
    requires IsWord(m) && IsWord(p) && IsWord(v)
    ensures var first := m + " " + p + " " + v;
      FirstLine(first + "\r\n" + rest) == (first + "\r", rest) &&
      Tokens(DropCR(first + "\r")) == [m, p, v]
  {
    var first := m + " " + p + " " + v;
    assert '\n' !in first by {
      WordHasNoNewline(m);
      WordHasNoNewline(p);
      WordHasNoNewline(v);
    }
    RequestLineRead(first, rest);
    assert DropCR(first + "\r") == first;
    RequestLineTokens(m, p, v);
  }

  lemma RequestLineRead(first: string, rest: string)
    requires '\n' !in first
    ensures FirstLine(first + "\r\n" + rest) == (first + "\r", rest)
  {
    assert first + "\r\n" + rest == (first + "\r") + ['\n'] + rest;
    GetlineAt(first + "\r", '\n', rest);
  }

  lemma RequestLineTokens(m: string, p: string, v: string)
    requires IsWord(m) && IsWord(p) && IsWord(v)
    ensures Tokens(m + " " + p + " " + v) == [m, p, v]
  {
    assert m + " " + p + " " + v == m + " " + (p + " " + v);
    TokensOfWord(v);
    TokensOfWordThenSpace(p, v);
    TokensOfWordThenSpace(m, p + " " + v);
    ThreeWords(Tokens(m + " " + p + " " + v), Tokens(p + " " + v), Tokens(v), m, p, v);
  }

  lemma ThreeWords(a: seq<string>, b: seq<string>, c: seq<string>, m: string, p: string, v: string)
    requires a == [m] + b && b == [p] + c && c == [v]
    ensures a == [m, p, v]
  {
  }

  /**
   * A request line `METHOD TARGET VERSION\r\n` with a target free of '?' gives exactly those
   * three fields and no query parameters.
   */
  lemma ParseRequestLine(m: string, p: string, v: string, rest: string)
    requires IsWord(m) && IsWord(p) && IsWord(v) && '?' !in p
    ensures var r := RequestOf(m + " " + p + " " + v + "\r\n" + rest);
      r.httpMethod == m && r.path == p && r.version == v && r.body == "" &&
      r.queryParams == map[] && r.headers == Assign(map[], HeaderPairs(rest))
  {
    RequestLineWords(m, p, v, rest);
  }

  /** With a '?' in the target, the path is what precedes it and the parameters come from what follows. */
  lemma ParseRequestTarget(m: string, path: string, query: string, v: string, rest: string)
    requires IsWord(m) && IsWord(path + "?" + query) && IsWord(v) && '?' !in path
    ensures var r := RequestOf(m + " " + (path + "?" + query) + " " + v + "\r\n" + rest);
      r.httpMethod == m && r.path == path && r.version == v &&
      r.queryParams == Assign(map[], QueryPairs(query)) && r.headers == Assign(map[], HeaderPairs(rest))
  {
    RequestLineWords(m, path + "?" + query, v, rest);
    TargetOfQuery(path, query);
  }

  lemma TargetOfQuery(path: string, query: string)
    requires '?' !in path
    ensures TargetOf(path + "?" + query) == (path, Assign(map[], QueryPairs(query)))
  {
    var p := path + "?" + query;
    assert p == path + ['?'] + query;
    FindCharAt(path, '?', query);
    assert p[..|path|] == path && p[|path| + 1..] == query;
  }

  // ------------------------------------------------------------------ body framing

  const HeaderTerminator := "\r\n\r\n"

  predicate HasTerminator(s: string) {
    FindText(s, HeaderTerminator).Some?
  }

  /** `requestStr.find("\r\n\r\n") + 4`: where the body starts. */
  function HeaderSize(requestStr: string): (n: nat)
    requires HasTerminator(requestStr)
    ensures 4 <= n <= |requestStr| && requestStr[n - 4..n] == HeaderTerminator
  {
    FindText(requestStr, HeaderTerminator).value + 4
  }

  /**
   * What happens when the rest of the body is read: whether the buffer for it could be
   * allocated (`bad_alloc` otherwise), the bytes the socket delivers (at most the buffer's
   * size are kept) and whether the read failed with an error other than end of file.
   */
  datatype BodyRead = BodyRead(bufferCreated: bool, data: string, failed: bool)

  /**
   * The largest `std::vector<char>` that can be asked for (`max_size()`, PTRDIFF_MAX on a
   * 64-bit target); a larger size throws `length_error`.
   */
  const VectorMaxSize: nat := 0x7FFF_FFFF_FFFF_FFFF

  /**
   * The body `handleClient` assembles for the parsed method and headers. None stands for
   * an exception on the way: `std::stoul` rejecting the Content-Length value, or the buffer
   * for the missing bytes being too large (`length_error`) or not allocatable (`bad_alloc`).
   * The connection then ends without a response.
   */
  function AssembleBody(request: Request, requestStr: string, more: BodyRead): Option<string>
    requires HasTerminator(requestStr)
  {
    if (request.httpMethod == "POST" || request.httpMethod == "PUT") && "Content-Length" in request.headers then
      match Stoul(request.headers["Content-Length"])
      case None => None
      case Some(contentLength) =>
        var already := AlreadyRead(requestStr);
        if |already| < contentLength then
          var remaining := contentLength - |already|;
          if remaining > VectorMaxSize || !more.bufferCreated then None
          else
            var bytesRead := if |more.data| < remaining then |more.data| else remaining;
            if more.failed then Some(request.body) else Some(request.body + already + more.data[..bytesRead])
        else Some(already)
    else Some(request.body)
  }

  /** The conditions of the lemmas below: a fresh body-bearing request whose Content-Length parses. */
  predicate Framed(request: Request, requestStr: string) {
    HasTerminator(requestStr) && request.body == "" &&
    (request.httpMethod == "POST" || request.httpMethod == "PUT") && "Content-Length" in request.headers &&
    Stoul(request.headers["Content-Length"]).Some?
  }

  /** The declared length of a framed request. */
  function DeclaredLength(request: Request): nat
    requires "Content-Length" in request.headers && Stoul(request.headers["Content-Length"]).Some?
  {
    Stoul(request.headers["Content-Length"]).value
  }

  /** The bytes already read after the blank line. */
  function AlreadyRead(requestStr: string): string
    requires HasTerminator(requestStr)
  {
    requestStr[HeaderSize(requestStr)..]
  }

  /**
   * When at least the declared number of bytes came with the headers, the body is all of
   * them: nothing is cut off and the socket is not read again.
   */
  lemma ContentLengthComplete(request: Request, requestStr: string, more: BodyRead)
    requires Framed(request, requestStr)
    requires |AlreadyRead(requestStr)| >= DeclaredLength(request)
    ensures AssembleBody(request, requestStr, more) == Some(AlreadyRead(requestStr))
  {
  }

  /**
   * When bytes are missing and the read succeeds, the body starts with the bytes already
   * read and holds at most the declared number of bytes; exactly that many, the first ones
   * of everything received, once the socket delivers enough.
   */
  lemma ContentLengthRead(request: Request, requestStr: string, more: BodyRead)
    requires Framed(request, requestStr)
    requires |AlreadyRead(requestStr)| < DeclaredLength(request) <= |AlreadyRead(requestStr)| + VectorMaxSize
    requires more.bufferCreated && !more.failed
    ensures var body := AssembleBody(request, requestStr, more);
      body.Some? && StartsWith(body.value, AlreadyRead(requestStr)) && |body.value| <= DeclaredLength(request)
    ensures var n, already := DeclaredLength(request), AlreadyRead(requestStr);
      |already| + |more.data| >= n ==>
        AssembleBody(request, requestStr, more) == Some((already + more.data)[..n])
  {
    var n := DeclaredLength(request);
    var already := AlreadyRead(requestStr);
    var remaining := n - |already|;
    var bytesRead := if |more.data| < remaining then |more.data| else remaining;
    var body := already + more.data[..bytesRead];
    assert AssembleBody(request, requestStr, more) == Some(request.body + already + more.data[..bytesRead]);
    assert request.body + already + more.data[..bytesRead] == body;
    assert body[..|already|] == already;
    if |already| + |more.data| >= n {
      assert (already + more.data)[..n] == already + more.data[..remaining];
    }
  }

  /** A failed read of the missing bytes leaves the body empty, and a response is still sent. */
  lemma ContentLengthReadFailed(request: Request, requestStr: string, more: BodyRead)
    requires Framed(request, requestStr)
    requires |AlreadyRead(requestStr)| < DeclaredLength(request) <= |AlreadyRead(requestStr)| + VectorMaxSize
    requires more.bufferCreated && more.failed
    ensures AssembleBody(request, requestStr, more) == Some("")
  {
  }

  /**
   * When the buffer for the missing bytes is larger than a vector may be, or cannot be
   * allocated, the exception ends the connection and no response is written.
   */
  lemma ContentLengthUnallocatable(request: Request, requestStr: string, more: BodyRead)
    requires Framed(request, requestStr)
    requires |AlreadyRead(requestStr)| < DeclaredLength(request)
    requires DeclaredLength(request) - |AlreadyRead(requestStr)| > VectorMaxSize || !more.bufferCreated
    ensures AssembleBody(request, requestStr, more).None?
  {
  }

  /**
   * `Content-Length: -1` is read by `stoul` as 2^64 - 1, so the buffer asked for is far too
   * large for any request text a string can hold: no response is written.
   */
  lemma NegativeContentLength(request: Request, requestStr: string, more: BodyRead)
    requires HasTerminator(requestStr) && |requestStr| <= VectorMaxSize
    requires request.httpMethod == "POST" && "Content-Length" in request.headers
    requires request.headers["Content-Length"] == "-1"
    ensures Stoul(request.headers["Content-Length"]) == Some(ULongMax)
    ensures AssembleBody(request, requestStr, more).None?
  {
    var t := request.headers["Content-Length"];
    assert TrimLeft(t) == t by {
      assert !IsSpace(t[0]);
    }
    assert LeadingDigits(t[1..]) == "1" by {
      assert t[1..] == "1";
      assert LeadingDigits(t[1..][1..]) == [];
    }
    assert DigitsValue("1") == 1;
  }

  /** Only POST and PUT with a Content-Length header get a body. */
  lemma NoBodyWithoutContentLength(request: Request, requestStr: string, more: BodyRead)
    requires HasTerminator(requestStr)
    requires !(request.httpMethod == "POST" || request.httpMethod == "PUT") || "Content-Length" !in request.headers
    ensures AssembleBody(request, requestStr, more) == Some(request.body)
  {
  }

  // ------------------------------------------------------------------ dispatch

  /**
   * How a handler ended: it returned, leaving the response as it wrote it, or it threw,
   * leaving whatever it had written so far and an exception message.
   */
  datatype HandlerOutcome = Returned(response: ResponseData) | Threw(partial: ResponseData, message: string)

  /**
   * The response for a request: the handler's own, a 404 naming the path when no route
   * matches, or a 500 carrying the message when the handler throws.
   */
  function Respond<H>(handler: Option<H>, request: Request, run: (H, Request) -> HandlerOutcome): (r: ResponseData)
    ensures handler.None? ==>
      r.statusCode == 404 && r.statusText == "Not Found" &&
      r.body == "Resource not found: " + request.path &&
      r.headers == map[ContentType := "text/plain"]
    ensures handler.Some? && run(handler.value, request).Threw? ==>
      var partial := run(handler.value, request).partial;
      r.statusCode == 500 && r.statusText == "Internal Server Error" &&
      r.body == "Internal server error: " + run(handler.value, request).message &&
      r.headers == partial.headers[ContentType := "text/plain"]
    ensures handler.Some? && run(handler.value, request).Returned? ==>
      r == run(handler.value, request).response
  {
    match handler
    case None =>
      WithText(FreshResponse.(statusCode := 404, statusText := "Not Found"), "Resource not found: " + request.path)
    case Some(h) =>
      match run(h, request)
      case Returned(response) => response
      case Threw(partial, message) =>
        WithText(partial.(statusCode := 500, statusText := "Internal Server Error"), "Internal server error: " + message)
  }

  // ------------------------------------------------------------------ serialisation

  function StatusLine(r: ResponseData): string {
    "HTTP/1.1 " + IntToString(r.statusCode) + " " + r.statusText + "\r\n"
  }

  function ContentLengthLine(r: ResponseData): string {
    "Content-Length: " + NatToString(|r.body|) + "\r\n"
  }

  function HeaderLine(name: string, value: string): string {
    name + ": " + value + "\r\n"
  }

  /** The header lines for the names in `order` (names absent from `h` write nothing). */
  function HeaderLines(h: map<string, string>, order: seq<string>): string
    decreases |order|
  {
    if order == [] then ""
    else (if order[0] in h then HeaderLine(order[0], h[order[0]]) else "") + HeaderLines(h, order[1..])
  }

  /** The serialised response when the header map is iterated in `order`. */
  function Wire(r: ResponseData, order: seq<string>): string {
    StatusLine(r) + ContentLengthLine(r) + HeaderLines(r.headers, order) + "\r\n" + r.body
  }

  /** `order` lists every header name exactly once: one possible iteration order of an unordered_map. */
  ghost predicate IsEnumeration(order: seq<string>, h: map<string, string>) {
    && (forall i, j :: 0 <= i < j < |order| ==> order[i] != order[j])
    && (forall i :: 0 <= i < |order| ==> order[i] in h)
    && (forall k :: k in h ==> k in order)
  }

  ghost predicate IsWireOf(wire: string, r: ResponseData) {
    exists order :: IsEnumeration(order, r.headers) && wire == Wire(r, order)
  }

  lemma {:induction false} HeaderLinesSnoc(h: map<string, string>, order: seq<string>, k: string)
    requires k in h
    ensures HeaderLines(h, order + [k]) == HeaderLines(h, order) + HeaderLine(k, h[k])
    decreases |order|
  {
    if order == [] {
      assert order + [k] == [k];
      assert HeaderLines(h, [k]) == HeaderLine(k, h[k]) + HeaderLines(h, []);
    } else {
      var first := if order[0] in h then HeaderLine(order[0], h[order[0]]) else "";
      assert (order + [k])[0] == order[0];
      assert (order + [k])[1..] == order[1..] + [k];
      HeaderLinesSnoc(h, order[1..], k);
      assert HeaderLines(h, order + [k]) == first + (HeaderLines(h, order[1..]) + HeaderLine(k, h[k]));
    }
  }

  method SendResponse(response: ResponseData) returns (wire: string)
    ensures IsWireOf(wire, response)
  {
    var statusLine := "HTTP/1.1 " + IntToString(response.statusCode) + " " + response.statusText + "\r\n";
    var lengthLine := "Content-Length: " + NatToString(|response.body|) + "\r\n";
    var headerLines, order := WriteHeaders(response.headers);
    wire := statusLine + lengthLine + headerLines + "\r\n" + response.body;
    assert wire == Wire(response, order);
  }

  /** The header lines of `sendResponse`, one per entry, in the map's iteration order. */
  method WriteHeaders(headers: map<string, string>) returns (lines: string, ghost order: seq<string>)
    ensures IsEnumeration(order, headers) && lines == HeaderLines(headers, order)
  {
    lines := "";
    order := [];
    var remaining := headers.Keys;
    while remaining != {}
      invariant Enumerating(order, remaining, headers)
      invariant lines == HeaderLines(headers, order)
      decreases remaining
    {
      var name :| name in remaining;
      HeaderLinesSnoc(headers, order, name);
      EnumerationStep(order, remaining, headers, name);
      lines := lines + (name + ": " + headers[name] + "\r\n");
      order := order + [name];
      remaining := remaining - {name};
    }
  }

  /** Part way through the header loop: `order` lists the names written, `remaining` the others. */
  ghost predicate Enumerating(order: seq<string>, remaining: set<string>, h: map<string, string>) {
    && (forall i, j :: 0 <= i < j < |order| ==> order[i] != order[j])
    && (forall i :: 0 <= i < |order| ==> order[i] in h && order[i] !in remaining)
    && (forall k :: k in h ==> k in remaining || k in order)
    && remaining <= h.Keys
  }

  lemma EnumerationStep(order: seq<string>, remaining: set<string>, h: map<string, string>, name: string)
    requires Enumerating(order, remaining, h) && name in remaining
    ensures Enumerating(order + [name], remaining - {name}, h)
  {
    var order' := order + [name];
    assert forall i :: 0 <= i < |order| ==> order'[i] == order[i];
  }

  /**
   * Framing of every serialisation: it starts with the status line and the Content-Length
   * line, whose number is the body's length, and ends with the blank line and the body.
   */
  lemma WireLayout(r: ResponseData, order: seq<string>)
    ensures var w := Wire(r, order);
      StartsWith(w, "HTTP/1.1 " + IntToString(r.statusCode) + " " + r.statusText + "\r\n" +
                    "Content-Length: " + NatToString(|r.body|) + "\r\n") &&
      EndsWith(w, "\r\n\r\n" + r.body)
  {
    var head := StatusLine(r) + ContentLengthLine(r);
    var hl := HeaderLines(r.headers, order);
    var w := Wire(r, order);
    assert StartsWith(w, head) by {
      assert w == head + (hl + "\r\n" + r.body);
      assert w[..|head|] == head;
    }
    assert EndsWith(w, "\r\n\r\n" + r.body) by {
      assert EndsWith(head + hl, "\r\n") by {
        ContentLengthLineEnds(r);
        HeaderLinesEndWithCRLF(r.headers, order);
        EndsWithAfter(StatusLine(r), ContentLengthLine(r), "\r\n");
        if hl == "" {
          assert head + hl == head;
        } else {
          EndsWithAfter(head, hl, "\r\n");
        }
      }
      BlankLineThenBody(head + hl, r.body);
    }
  }

  lemma EndsWithAfter(a: string, b: string, suffix: string)
    requires EndsWith(b, suffix)
    ensures EndsWith(a + b, suffix)
  {
    assert (a + b)[|a + b| - |suffix|..] == b[|b| - |suffix|..];
  }

  lemma BlankLineThenBody(x: string, body: string)
    requires EndsWith(x, "\r\n")
    ensures EndsWith(x + "\r\n" + body, "\r\n\r\n" + body)
  {
    var w := x + "\r\n" + body;
    assert w[|w| - |"\r\n\r\n" + body|..] == x[|x| - 2..] + "\r\n" + body;
  }

  lemma ContentLengthLineEnds(r: ResponseData)
    ensures EndsWith(ContentLengthLine(r), "\r\n")
  {
  }

  lemma {:induction false} HeaderLinesEndWithCRLF(h: map<string, string>, order: seq<string>)
    ensures HeaderLines(h, order) == "" || EndsWith(HeaderLines(h, order), "\r\n")
    decreases |order|
  {
    if order != [] {
      HeaderLinesEndWithCRLF(h, order[1..]);
      var first := if order[0] in h then HeaderLine(order[0], h[order[0]]) else "";
      var tail := HeaderLines(h, order[1..]);
      if tail == "" {
        assert HeaderLines(h, order) == first;
      } else {
        assert (first + tail)[|first + tail| - 2..] == tail[|tail| - 2..];
      }
    }
  }

  // ------------------------------------------------------------------ the server

  /** The HttpServer object: its route table, method -> path -> handler. */
  /** The route table after `addRoute(method, path, handler)`: the pair now maps to `handler`. */
  function RouteAdded<H>(routes: map<string, map<string, H>>, httpMethod: string, path: string, handler: H)
    : map<string, map<string, H>>
  {
    routes[httpMethod := (if httpMethod in routes then routes[httpMethod] else map[])[path := handler]]
  }

  class Server<H> {
    var routes: map<string, map<string, H>>

    constructor ()
      ensures routes == map[]
    {
      routes := map[];
    }

    /** `findHandler`: the handler registered for exactly this method and path. */
    function FindHandler(httpMethod: string, path: string): (r: Option<H>)
      reads this
      ensures r.Some? <==> httpMethod in routes && path in routes[httpMethod]
      ensures r.Some? ==> r.value == routes[httpMethod][path]
    {
      if httpMethod in routes && path in routes[httpMethod] then Some(routes[httpMethod][path]) else None
    }

    /** `addRoute`: register, silently replacing an earlier handler for the same pair. */
    method AddRoute(httpMethod: string, path: string, handler: H)
      modifies this
      ensures routes == RouteAdded(old(routes), httpMethod, path, handler)
      ensures FindHandler(httpMethod, path) == Some(handler)
      ensures forall m, p :: m != httpMethod || p != path ==> FindHandler(m, p) == old(FindHandler(m, p))
    {
      var row := if httpMethod in routes then routes[httpMethod] else map[];
      routes := routes[httpMethod := row[path := handler]];
    }

    /**
     * The response one connection gets, or None when none is written (the Content-Length
     * value does not parse, or the body buffer cannot be created).
     */
    function Exchange(requestStr: string, more: BodyRead, run: (H, Request) -> HandlerOutcome): Option<ResponseData>
      reads this
      requires HasTerminator(requestStr)
    {
      var request := RequestOf(requestStr);
      match AssembleBody(request, requestStr, more)
      case None => None
      case Some(body) =>
        var withBody := request.(body := body);
        Some(Respond(FindHandler(withBody.httpMethod, withBody.path), withBody, run))
    }

    /**
     * The body-reading part of `handleClient`: fill in the body of the parsed request, or
     * None when `std::stoul` throws on the Content-Length value or the body buffer cannot be
     * created.
     */
    static method ReadBody(request: Request, requestStr: string, more: BodyRead) returns (r: Option<Request>)
      requires HasTerminator(requestStr)
      ensures r.None? <==> AssembleBody(request, requestStr, more).None?
      ensures r.Some? ==> r.value == request.(body := AssembleBody(request, requestStr, more).value)
    {
      var req := request;
      if req.httpMethod == "POST" || req.httpMethod == "PUT" {
        if "Content-Length" in req.headers {
          var contentLength := Stoul(req.headers["Content-Length"]);
          if contentLength.None? {
            return None;
          }
          var headerSize := HeaderSize(requestStr);
          var bodyAlreadyRead := |requestStr| - headerSize;
          if bodyAlreadyRead < contentLength.value {
            var remaining := contentLength.value - bodyAlreadyRead;
            if remaining > VectorMaxSize || !more.bufferCreated {
              return None;
            }
            var bytesRead := if |more.data| < remaining then |more.data| else remaining;
            if !more.failed {
              req := req.(body := req.body + requestStr[headerSize..] + more.data[..bytesRead]);
            }
          } else {
            req := req.(body := requestStr[headerSize..]);
          }
        }
      }
      r := Some(req);
    }

    /** The dispatching part of `handleClient`: run the matching handler, or answer 404 or 500. */
    method Dispatch(request: Request, run: (H, Request) -> HandlerOutcome) returns (response: ResponseData)
      ensures response == Respond(FindHandler(request.httpMethod, request.path), request, run)
    {
      var handler := FindHandler(request.httpMethod, request.path);
      response := FreshResponse;
      match handler {
        case Some(h) =>
          match run(h, request) {
            case Returned(written) =>
              response := written;
            case Threw(partial, message) =>
              response := partial.(statusCode := 500, statusText := "Internal Server Error");
              response := WithText(response, "Internal server error: " + message);
          }
        case None =>
          response := response.(statusCode := 404, statusText := "Not Found");
          response := WithText(response, "Resource not found: " + request.path);
      }
    }

    /**
     * `handleClient` for one connection: `received` is what reading up to the blank line
     * produced (None when that read failed), `more` what reading the rest of the body
     * delivers, `run` the effect of invoking a handler. The result is the text written back.
     */
    method HandleClient(received: Option<string>, more: BodyRead, run: (H, Request) -> HandlerOutcome)
      returns (sent: Option<string>)
      requires received.Some? ==> HasTerminator(received.value)
      ensures received.None? ==> sent.None?
      ensures received.Some? ==> (sent.Some? <==> Exchange(received.value, more, run).Some?)
      ensures received.Some? && sent.Some? ==> IsWireOf(sent.value, Exchange(received.value, more, run).value)
    {
      if received.None? {
        return None;
      }
      var requestStr := received.value;
      var parsed := ParseRequest(requestStr);
      var request := ReadBody(parsed, requestStr, more);
      if request.None? {
        return None;
      }
      var response := Dispatch(request.value, run);
      assert Exchange(requestStr, more, run) == Some(response);
      var wire := SendResponse(response);
      sent := Some(wire);
    }
  }
}
