# API docs reader MCP server — Dafny model

A model of the tool-handling core of `mcp-api-docs-server.js`, an MCP server that reads
API documentation from URLs. Three parts are modelled:

- **`readApiDocs`** (module `ApiDocs`, `api_docs.dfy`). It merges the default request
  headers with the caller's. It turns a non-2xx response into an error and re-serialises
  JSON bodies. It always answers with exactly one text item: a success envelope
  (`接口文档URL: …\n内容类型: …\n状态码: …\n\n内容:\n…`) or a failure envelope
  (`读取接口文档失败:\nURL: …\n错误: …`). The network is a parameter
  `fetch: Request -> FetchOutcome`: it maps the request the server builds (URL, `GET`,
  merged headers, 30000 ms timeout) to a response or a network error. A batch makes one
  request per URL, so it takes one such function per entry (`network(i)` for the i-th URL).
  `JSON.parse` / `JSON.stringify(_, null, 2)` are a parameter `JsonCodec`: a partial
  parse and a printer.
- **`readMultipleApiDocs`** (module `BatchReport`, `batch.dfy`). The settled per-URL
  outcomes are given in input order. The report is built by a loop (`AssembleReport`)
  that appends a fixed header and then one numbered section per outcome.
- **The `CallToolRequestSchema` handler** (module `ToolDispatch`, `dispatch.dfy`). It
  dispatches on the tool name. The unknown-tool `McpError` is thrown inside the `try`,
  so the `catch` rethrows it as an InternalError.

`text.dfy` (module `Text`) holds the string operations used by the templates:
`includes`, decimal rendering of numbers, and first-index-of. `wrappers.dfy` holds
`Option` and `Result`.

Besides each operation's contract, the model proves:
- both envelopes can be parsed back, losing nothing;
- the two envelopes can be told apart by their first character;
- the batch report is exactly the header plus n sections numbered 1..n, in input order;
- changing one outcome changes only its own section;
- the rejected branch of the batch loop is never taken.

## Model

| member | source | states |
|---|---|---|
| `ApiDocs.MergeHeaders` | mcp-api-docs-server.js:105-109 | The merged headers have exactly the default keys plus the caller's keys. A caller-supplied key always takes the caller's value. A default key the caller does not supply keeps its default (`User-Agent`, `Accept`). |
| `ApiDocs.NormalizeContent` | mcp-api-docs-server.js:121-128 | The content differs from the fetched body only if the content type contains `application/json` and the body parses. In that case it is the pretty-printed parse. A failed parse or any other content type leaves the body unchanged. |
| `ApiDocs.Attempt` | mcp-api-docs-server.js:103-128 | The try block succeeds exactly when the response is 2xx and its body could be read. A network error fails with its own message. A non-2xx status fails with `HTTP <status>: <statusText>`. A body-read error fails with its message. A success carries the response status, the `content-type` header (`""` when it is missing) and the body as `NormalizeContent` leaves it: the pretty-printed parse for a JSON type whose body parses, the body unchanged otherwise. |
| `ApiDocs.ReadApiDocs` | mcp-api-docs-server.js:101-148 | Never fails and always returns exactly one item, of type `text`. It is a success envelope exactly when the try block succeeded, and a failure envelope exactly when it failed. The text is the success template over (url, content type, status, content) or the failure template over (url, error message). |
| `ApiDocs.EnvelopesAreDistinguishable` | mcp-api-docs-server.js:130-146 | Every success envelope starts with the success lead and never with the failure lead, and the reverse holds for failure envelopes. |
| `ApiDocs.SuccessTextRoundTrip` | mcp-api-docs-server.js:134 | For a single-line URL and content type, parsing the success envelope gives back the URL, content type, status and content exactly. |
| `ApiDocs.FailureTextRoundTrip` | mcp-api-docs-server.js:143 | For a single-line URL, parsing the failure envelope gives back the URL and the whole error message exactly. |
| `ApiDocs.FailedStatusIsReported` | mcp-api-docs-server.js:113-115 | For a single-line URL: when the response is not 2xx, the text parses as a failure envelope carrying the URL and `HTTP <status>: <statusText>`, and it does not parse as a success envelope. |
| `ApiDocs.DeliveredContent` | mcp-api-docs-server.js:117-134 | For a single-line URL and content type and a readable 2xx response, the text parses as a success envelope with the URL, the content type (`""` if missing) and the status. Its content is the pretty-printed JSON when the type contains `application/json` and the body parses, and otherwise the body byte for byte. |
| `BatchReport.AssembleReport` | mcp-api-docs-server.js:155-164 | The loop builds exactly `Report(outcomes)`: the header followed by the sections of all outcomes. |
| `BatchReport.ReportIsNumberedSections` | mcp-api-docs-server.js:155-164 | The report is the header `批量读取接口文档结果:\n\n` followed by exactly one section per outcome, in input order. The i-th section (0-based) is headed `=== 文档 {i+1} ===\n`. With no outcomes the report is just the header. |
| `BatchReport.OutcomeOnlyAffectsItsSection` | mcp-api-docs-server.js:157-164 | Replacing outcome k changes only section k. The text before and after it does not depend on that outcome. |
| `BatchReport.HeadingsAreDistinct` | mcp-api-docs-server.js:158 | Sections at different positions get different headings. |
| `BatchReport.BatchSectionIsDocumentText` | mcp-api-docs-server.js:151-163 | Every settled outcome is fulfilled, so the `读取失败` branch is never taken. The tool's report is the header followed by the sections, and section i is heading i+1, then exactly the text `readApiDocs` returns for the i-th URL and its own response, then `\n\n`. |
| `BatchReport.EntriesAreFetchedSeparately` | mcp-api-docs-server.js:151-152 | Each entry has its own request: two entries (even for the same URL) whose requests failed and succeeded settle to different texts. |
| `BatchReport.ReadMultipleApiDocs` | mcp-api-docs-server.js:150-174 | Returns exactly one `text` item whose text is `Report` over the settled outcomes of the URLs, in input order, so it starts with the report header and the section lemmas apply to it. |
| `BatchReport.EmptyBatchIsHeaderOnly` | mcp-api-docs-server.js:150-164 | With an empty URL list the report is just the header. |
| `ToolDispatch.CallTool` | mcp-api-docs-server.js:78-98 | `read_api_docs` goes to `readApiDocs(args.url, args.headers)` (the call's one request). `read_multiple_api_docs` goes to `readMultipleApiDocs(args.urls, args.headers)`. Both succeed with one text item. The handler fails exactly for other names, and then with code InternalError and the rewrapped unknown-tool error. |
| `ToolDispatch.UnknownToolSurfacesAsInternalError` | mcp-api-docs-server.js:86-96 | An unknown name reaches the caller as InternalError, never as MethodNotFound. The message is `MCP error -32603: Error executing tool: MCP error -32601: Unknown tool: <name>`. |
| `Text.Contains` | mcp-api-docs-server.js:121 | `includes` is true exactly when the substring occurs at some offset. |
| `Text.NatToString` | mcp-api-docs-server.js:134 | A rendered number (`${response.status}`, `${index + 1}`) is a non-empty string of decimal digits with no leading zero. |
| `Text.DigitsValueOfNatToString` | mcp-api-docs-server.js:158 | Reading a rendered number back gives the number, so the rendering is injective. |

## Left out

- The HTTP request itself (`node-fetch`, lines 103-111, 118) is network I/O. The model builds the `Request` value (URL, `GET`, merged headers, 30000 ms) and takes what came back as a parameter. Redirects, streaming and the enforcement of the timeout are not modelled.
- The network is a pure function of the request and of the request's position in the call. The model says nothing about how the answers to separate requests relate; the source's requests are independent, and so are the model's.
- Header names are merged by exact key, as the object spread does. The model does not capture that node-fetch's `Headers` treats names case-insensitively and comma-joins, for example, a caller's `user-agent` with the default `User-Agent`.
- The internals of `JSON.parse` and `JSON.stringify(…, null, 2)` (lines 123-124) are a library. They are the `JsonCodec` parameter, and the model reasons only about when they are applied.
- `Promise.allSettled` and the concurrent fan-out (lines 151-153) are modelled only through their result, the list of settled outcomes in input order.
- The MCP SDK is not part of this model. That covers `Server`, `StdioServerTransport`, `run()`, handler registration and `console.error` (lines 3-23, 176-184). The `McpError` class belongs to the SDK; the model gives its `message` the SDK's form `MCP error <code>: <text>`.
- The static tool list returned by the ListTools handler (lines 26-76) is constant data with no behaviour.
- Tool arguments are assumed to have the types the tool schemas declare. The model does not cover the JavaScript errors raised by a missing `urls` array or a missing `arguments` object.
- `Text.NatToString` agrees with JavaScript's number-to-string only for integers, and only below 10^21. Status codes and section numbers stay far below that.
- Some descriptions of this server mention content truncation, detection of script-rendered pages, summaries, structure extraction, retries and header rotation. None of these is in `mcp-api-docs-server.js`. The model follows the code and has none of them.
