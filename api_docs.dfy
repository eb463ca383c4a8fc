/** `readApiDocs`: one GET request for one documentation URL, turned into exactly one
    text item that is either the success envelope or the failure envelope.
    The network is a parameter: `fetch` maps the request the server issues to what
    came back. JSON parsing and pretty-printing are a parameter too (`JsonCodec`). */
module ApiDocs {
  import opened Wrappers
  import opened Text

  /** HTTP request headers as the plain object the server spreads them into. */
  type Headers = map<string, string>

  const UserAgent := "MCP-API-Docs-Reader/1.0.0"
  const AcceptTypes := "text/html,application/xhtml+xml,application/xml,application/json,text/plain,*/*"
  const DefaultHeaders: Headers := map["User-Agent" := UserAgent, "Accept" := AcceptTypes]
  /** The request timeout handed to `fetch`, in milliseconds. */
  const TimeoutMs: nat := 30000

  /** The request headers: the caller's headers are laid over the two defaults, so a
      caller key wins and a default the caller does not mention survives. */
  function MergeHeaders(caller: Headers): (h: Headers)
    ensures h.Keys == DefaultHeaders.Keys + caller.Keys
    ensures forall k :: k in caller ==> h[k] == caller[k]
    ensures forall k :: k in DefaultHeaders && k !in caller ==> h[k] == DefaultHeaders[k]
  {
    DefaultHeaders + caller
  }

  datatype Request = Request(url: string, verb: string, headers: Headers, timeoutMs: nat)

  /** The request `readApiDocs` issues; an omitted `headers` argument defaults to `{}`. */
  function RequestFor(url: string, headers: Option<Headers>): Request {
    Request(url, "GET", MergeHeaders(headers.GetOr(map[])), TimeoutMs)
  }

  /** Reading the response body: its text, or the message of the error `response.text()` threw. */
  datatype Body = Received(text: string) | Unreadable(message: string)

  /** What `await fetch(…)` produced: a response (status, status text, the `content-type`
      header if present, and the body), or the message of the error it rejected with
      (unreachable host, refused connection, the timeout, a malformed URL, …). */
  datatype FetchOutcome =
    | Response(status: nat, statusText: string, contentType: Option<string>, body: Body)
    | NetworkError(message: string)

  /** `response.ok`. */
  predicate IsOk(status: nat) {
    200 <= status <= 299
  }

  /** `JSON.parse` (partial: `None` where it throws) and `JSON.stringify(_, null, 2)`. */
  datatype JsonCodec<!J> = JsonCodec(parse: string -> Option<J>, stringify: J -> string)

  const JsonMediaType := "application/json"

  /** The JSON normalisation step: the body is re-serialised only when the content type
      mentions `application/json` and the body parses; otherwise it is kept as fetched. */
  function NormalizeContent<J>(contentType: string, body: string, codec: JsonCodec<J>): (content: string)
    ensures content != body ==> Contains(contentType, JsonMediaType) && codec.parse(body).Some?
    ensures Contains(contentType, JsonMediaType) && codec.parse(body).Some? ==>
              content == codec.stringify(codec.parse(body).value)
  {
    if Contains(contentType, JsonMediaType) then
      match codec.parse(body)
      case Some(json) => codec.stringify(json)
      case None => body
    else
      body
  }

  /** `{ type: 'text', text }`. */
  datatype TextContent = TextContent(kind: string, text: string)

  /** `{ content: [...] }`, what a tool handler returns. */
  datatype ToolResult = ToolResult(content: seq<TextContent>)

  function SingleText(text: string): ToolResult {
    ToolResult([TextContent("text", text)])
  }

  // The pieces of the two envelope templates.
  const SuccessLead := "接口文档URL: "
  const TypeLabel := "内容类型: "
  const StatusLabel := "状态码: "
  const ContentLabel := "\n内容:\n"
  const FailureLead := "读取接口文档失败:\nURL: "
  const ErrorLabel := "\n错误: "

  /** The success envelope. */
  function SuccessText(url: string, contentType: string, status: nat, content: string): string {
    SuccessLead + url + "\n" + TypeLabel + contentType + "\n" + StatusLabel + NatToString(status) + "\n"
      + ContentLabel + content
  }

  /** The failure envelope, built from the caught error's message. */
  function FailureText(url: string, message: string): string {
    FailureLead + url + ErrorLabel + message
  }

  predicate IsSuccessEnvelope(text: string) {
    StartsWith(text, SuccessLead)
  }

  predicate IsFailureEnvelope(text: string) {
    StartsWith(text, FailureLead)
  }

  /** What the try block of `readApiDocs` got to when nothing threw. */
  datatype Page = Page(contentType: string, status: nat, content: string)

  /** The try block of `readApiDocs`: a page, or the message of the error thrown in it. */
  function Attempt<J>(fetched: FetchOutcome, codec: JsonCodec<J>): (r: Result<Page, string>)
    ensures r.Success? <==> fetched.Response? && IsOk(fetched.status) && fetched.body.Received?
    ensures fetched.NetworkError? ==> r == Failure(fetched.message)
    ensures fetched.Response? && !IsOk(fetched.status) ==>
              r == Failure("HTTP " + NatToString(fetched.status) + ": " + fetched.statusText)
    ensures fetched.Response? && IsOk(fetched.status) && fetched.body.Unreadable? ==>
              r == Failure(fetched.body.message)
    ensures r.Success? ==>
              && r.value.status == fetched.status
              && r.value.contentType == fetched.contentType.GetOr("")
              && r.value.content == NormalizeContent(r.value.contentType, fetched.body.text, codec)
  {
    match fetched
    case NetworkError(message) => Failure(message)
    case Response(status, statusText, contentType, body) =>
      if !IsOk(status) then
        Failure("HTTP " + NatToString(status) + ": " + statusText)
      else
        var ct := contentType.GetOr("");
        match body
        case Unreadable(message) => Failure(message)
        case Received(text) => Success(Page(ct, status, NormalizeContent(ct, text, codec)))
  }

  /** `readApiDocs(url, headers)`: never throws; always exactly one text item, the success
      envelope exactly when the fetch succeeded with a 2xx status and a readable body,
      the failure envelope with the caught message otherwise. */
  function ReadApiDocs<J>(url: string, headers: Option<Headers>, fetch: Request -> FetchOutcome,
                          codec: JsonCodec<J>): (r: ToolResult)
    ensures |r.content| == 1 && r.content[0].kind == "text"
    ensures IsSuccessEnvelope(r.content[0].text) <==> Attempt(fetch(RequestFor(url, headers)), codec).Success?
    ensures IsFailureEnvelope(r.content[0].text) <==> Attempt(fetch(RequestFor(url, headers)), codec).Failure?
    ensures match Attempt(fetch(RequestFor(url, headers)), codec)
            case Success(p) => r.content[0].text == SuccessText(url, p.contentType, p.status, p.content)
            case Failure(m) => r.content[0].text == FailureText(url, m)
  {
    match Attempt(fetch(RequestFor(url, headers)), codec)
    case Success(p) =>
      EnvelopesAreDistinguishable(url, p.contentType, p.status, p.content, "");
      SingleText(SuccessText(url, p.contentType, p.status, p.content))
    case Failure(m) =>
      EnvelopesAreDistinguishable(url, "", 0, "", m);
      SingleText(FailureText(url, m))
  }

  /** A reader of the text item can tell the outcome from its first line alone:
      each envelope starts with its own lead, never with the other's. */
  lemma EnvelopesAreDistinguishable(url: string, contentType: string, status: nat, content: string, message: string)
    ensures IsSuccessEnvelope(SuccessText(url, contentType, status, content))
    ensures !IsFailureEnvelope(SuccessText(url, contentType, status, content))
    ensures IsFailureEnvelope(FailureText(url, message))
    ensures !IsSuccessEnvelope(FailureText(url, message))
  {
    var s := SuccessText(url, contentType, status, content);
    var f := FailureText(url, message);
    assert s == SuccessLead + (url + "\n" + TypeLabel + contentType + "\n" + StatusLabel + NatToString(status)
      + "\n" + ContentLabel + content);
    assert f == FailureLead + (url + ErrorLabel + message);
    assert s[0] == SuccessLead[0] && f[0] == FailureLead[0];
  }

  /** The fields a success envelope carries. */
  datatype SuccessFields = SuccessFields(url: string, contentType: string, status: nat, content: string)

  /** `s` with the prefix `p` removed, if `s` starts with it. */
  function AfterPrefix(s: string, p: string): (r: Option<string>)
    ensures r.Some? ==> s == p + r.value
  {
    if StartsWith(s, p) then Some(s[|p|..]) else None
  }

  /** `s` split at its first line break into the line and what follows the break. */
  function SplitLine(s: string): (r: Option<(string, string)>)
    ensures r.Some? ==> '\n' !in r.value.0 && s == r.value.0 + "\n" + r.value.1
  {
    var i := IndexOf(s, '\n');
    if i == |s| then None
    else
      assert s == s[..i] + "\n" + s[i + 1..];
      Some((s[..i], s[i + 1..]))
  }

  /** Reads the fields back out of a success envelope: the URL, the content type and the
      status are one line each, and the content is everything after the `内容:` line. */
  function ParseSuccessText(text: string): Option<SuccessFields> {
    match AfterPrefix(text, SuccessLead)
    case None => None
    case Some(s1) =>
      match SplitLine(s1)
      case None => None
      case Some((url, s2)) =>
        match AfterPrefix(s2, TypeLabel)
        case None => None
        case Some(s3) =>
          match SplitLine(s3)
          case None => None
          case Some((contentType, s4)) =>
            match AfterPrefix(s4, StatusLabel)
            case None => None
            case Some(s5) =>
              match SplitLine(s5)
              case None => None
              case Some((digits, s6)) =>
                match AfterPrefix(s6, ContentLabel)
                case None => None
                case Some(content) =>
                  if IsDigits(digits) then Some(SuccessFields(url, contentType, DigitsValue(digits), content))
                  else None
  }

  /** Reads the URL and the error message back out of a failure envelope: the URL is one
      line, and the message is everything after `错误: `. */
  function ParseFailureText(text: string): Option<(string, string)> {
    match AfterPrefix(text, FailureLead)
    case None => None
    case Some(s1) =>
      match SplitLine(s1)
      case None => None
      case Some((url, s2)) =>
        match AfterPrefix(s2, "错误: ")
        case None => None
        case Some(message) => Some((url, message))
  }

  lemma AfterPrefixOf(p: string, rest: string)
    ensures AfterPrefix(p + rest, p) == Some(rest)
  {
  }

  lemma {:induction false} SplitLineOf(line: string, rest: string)
    requires '\n' !in line
    ensures SplitLine(line + "\n" + rest) == Some((line, rest))
  {
    var s := line + "\n" + rest;
    assert s == line + ['\n'] + rest;
    IndexOfAfterPrefix(line, '\n', rest);
    assert s[..|line|] == line;
    assert s[|line| + 1..] == rest;
  }

  lemma NoLineBreakInNumber(n: nat)
    ensures '\n' !in NatToString(n)
  {
  }

  /** The success envelope loses nothing: as long as the URL and the content type are
      single lines (as a URL and a header value are), every field, the content included,
      is recovered exactly. */
  lemma {:induction false} SuccessTextRoundTrip(url: string, contentType: string, status: nat, content: string)
    requires '\n' !in url && '\n' !in contentType
    ensures ParseSuccessText(SuccessText(url, contentType, status, content))
            == Some(SuccessFields(url, contentType, status, content))
  {
    var digits := NatToString(status);
    var s6 := ContentLabel + content;
    var s5 := digits + "\n" + s6;
    var s4 := StatusLabel + s5;
    var s3 := contentType + "\n" + s4;
    var s2 := TypeLabel + s3;
    var s1 := url + "\n" + s2;
    assert SuccessText(url, contentType, status, content) == SuccessLead + s1;
    AfterPrefixOf(SuccessLead, s1);
    SplitLineOf(url, s2);
    AfterPrefixOf(TypeLabel, s3);
    SplitLineOf(contentType, s4);
    AfterPrefixOf(StatusLabel, s5);
    NoLineBreakInNumber(status);
    SplitLineOf(digits, s6);
    AfterPrefixOf(ContentLabel, content);
    DigitsValueOfNatToString(status);
  }

  /** The failure envelope loses nothing: for a single-line URL, the URL and the whole
      error message (which may span lines) are recovered exactly. */
  lemma {:induction false} FailureTextRoundTrip(url: string, message: string)
    requires '\n' !in url
    ensures ParseFailureText(FailureText(url, message)) == Some((url, message))
  {
    var s2 := "错误: " + message;
    var s1 := url + "\n" + s2;
    assert FailureText(url, message) == FailureLead + s1;
    AfterPrefixOf(FailureLead, s1);
    SplitLineOf(url, s2);
    AfterPrefixOf("错误: ", message);
  }

  /** A non-2xx response is reported, never delivered: the caller reads back the URL and
      `HTTP <status>: <statusText>` from a failure envelope, and no success envelope is made. */
  lemma {:induction false} FailedStatusIsReported<J>(url: string, headers: Option<Headers>,
                                                    fetch: Request -> FetchOutcome, codec: JsonCodec<J>)
    requires '\n' !in url
    requires fetch(RequestFor(url, headers)).Response? && !IsOk(fetch(RequestFor(url, headers)).status)
    ensures var fetched := fetch(RequestFor(url, headers));
            var text := ReadApiDocs(url, headers, fetch, codec).content[0].text;
            && ParseFailureText(text) == Some((url, "HTTP " + NatToString(fetched.status) + ": " + fetched.statusText))
            && ParseSuccessText(text) == None
  {
    var fetched := fetch(RequestFor(url, headers));
    var message := "HTTP " + NatToString(fetched.status) + ": " + fetched.statusText;
    FailureTextRoundTrip(url, message);
    assert FailureText(url, message)[0] != SuccessLead[0];
  }

  /** What a caller reads back as the document from a successful read is the fetched body
      byte for byte, unless the content type mentions `application/json` and the body
      parses, in which case it is the re-serialised JSON. A missing `content-type`
      header reads back as the empty string. */
  lemma {:induction false} DeliveredContent<J>(url: string, headers: Option<Headers>,
                                              fetch: Request -> FetchOutcome, codec: JsonCodec<J>)
    requires '\n' !in url
    requires var fetched := fetch(RequestFor(url, headers));
             && fetched.Response? && IsOk(fetched.status) && fetched.body.Received?
             && '\n' !in fetched.contentType.GetOr("")
    ensures var fetched := fetch(RequestFor(url, headers));
            var contentType := fetched.contentType.GetOr("");
            var body := fetched.body.text;
            var parsed := ParseSuccessText(ReadApiDocs(url, headers, fetch, codec).content[0].text);
            && parsed.Some?
            && parsed.value.url == url
            && parsed.value.contentType == contentType
            && parsed.value.status == fetched.status
            && (if Contains(contentType, JsonMediaType) && codec.parse(body).Some?
                then parsed.value.content == codec.stringify(codec.parse(body).value)
                else parsed.value.content == body)
  {
    var fetched := fetch(RequestFor(url, headers));
    var contentType := fetched.contentType.GetOr("");
    SuccessTextRoundTrip(url, contentType, fetched.status, NormalizeContent(contentType, fetched.body.text, codec));
  }
}
