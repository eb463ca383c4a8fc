/** `readMultipleApiDocs`: every URL is read with `readApiDocs`, the settled outcomes are
    collected in input order, and a numbered report is built from them in one pass. */
module BatchReport {
  import opened Wrappers
  import opened Text
  import opened ApiDocs

  /** One entry of what `Promise.allSettled` resolves to: the text of a fulfilled
      `readApiDocs` result, or the message of a rejection's reason. */
  datatype Settled = Fulfilled(text: string) | Rejected(reason: string)

  const ReportHeader := "批量读取接口文档结果:\n\n"

  /** The heading of the section for the entry at 0-based position `index`. */
  function Heading(index: nat): string {
    "=== 文档 " + NatToString(index + 1) + " ===\n"
  }

  /** The section for the entry at position `index`: its heading, then the fulfilled
      text or a `读取失败: ` line, then a blank line. */
  function Section(index: nat, outcome: Settled): string {
    Heading(index) +
      match outcome
      case Fulfilled(text) => text + "\n\n"
      case Rejected(reason) => "读取失败: " + reason + "\n\n"
  }

  /** The sections of all entries, in the order the report appends them. */
  function SectionsText(outcomes: seq<Settled>): string {
    if outcomes == [] then ""
    else SectionsText(outcomes[..|outcomes| - 1]) + Section(|outcomes| - 1, outcomes[|outcomes| - 1])
  }

  /** Appending the section of the next outcome extends the sections built so far. */
  lemma SectionsTextExtend(outcomes: seq<Settled>, index: nat)
    requires index < |outcomes|
    ensures SectionsText(outcomes[..index + 1]) == SectionsText(outcomes[..index]) + Section(index, outcomes[index])
  {
    assert outcomes[..index + 1][..index] == outcomes[..index];
  }

  /** The report for a list of settled outcomes. */
  function Report(outcomes: seq<Settled>): string {
    ReportHeader + SectionsText(outcomes)
  }

  /** The loop that builds `combinedContent`: the header, then one section per outcome. */
  method AssembleReport(outcomes: seq<Settled>) returns (report: string)
    ensures report == Report(outcomes)
  {
    report := ReportHeader;
    for index := 0 to |outcomes|
      invariant report == ReportHeader + SectionsText(outcomes[..index])
    {
      SectionsTextExtend(outcomes, index);
      report := report + Section(index, outcomes[index]);
    }
    assert outcomes[..|outcomes|] == outcomes;
  }

  /** The settled outcomes of reading every URL concurrently, in input order. Each URL
      gets its own request, so the network is given per entry: `network(i)` answers the
      request made for the i-th URL. A fulfilled outcome keeps the text of the single
      item `readApiDocs` returns. */
  function Settle<J>(urls: seq<string>, headers: Option<Headers>, network: nat -> Request -> FetchOutcome,
                     codec: JsonCodec<J>): (outcomes: seq<Settled>)
    ensures |outcomes| == |urls|
  {
    seq(|urls|, i requires 0 <= i < |urls| =>
      Fulfilled(ReadApiDocs(urls[i], headers, network(i), codec).content[0].text))
  }

  /** `readMultipleApiDocs(urls, headers)`: one text item holding the report over the
      settled outcomes of all URLs. */
  function ReadMultipleApiDocs<J>(urls: seq<string>, headers: Option<Headers>, network: nat -> Request -> FetchOutcome,
                                  codec: JsonCodec<J>): (r: ToolResult)
    ensures |r.content| == 1 && r.content[0].kind == "text"
    ensures r.content[0].text == Report(Settle(urls, headers, network, codec))
    ensures StartsWith(r.content[0].text, ReportHeader)
  {
    assert StartsWith(Report(Settle(urls, headers, network, codec)), ReportHeader);
    SingleText(Report(Settle(urls, headers, network, codec)))
  }

  /** The concatenation of a list of strings. */
  function Concat(parts: seq<string>): string {
    if parts == [] then "" else Concat(parts[..|parts| - 1]) + parts[|parts| - 1]
  }

  /** The list of sections, the i-th (0-based) built from the i-th outcome. */
  function Sections(outcomes: seq<Settled>): (parts: seq<string>)
    ensures |parts| == |outcomes|
    ensures forall i :: 0 <= i < |outcomes| ==> parts[i] == Section(i, outcomes[i])
  {
    seq(|outcomes|, i requires 0 <= i < |outcomes| => Section(i, outcomes[i]))
  }

  lemma {:induction false} SectionsTextIsConcat(outcomes: seq<Settled>)
    ensures SectionsText(outcomes) == Concat(Sections(outcomes))
    decreases |outcomes|
  {
    if outcomes != [] {
      var front := outcomes[..|outcomes| - 1];
      SectionsTextIsConcat(front);
      assert Sections(outcomes)[..|outcomes| - 1] == Sections(front);
    }
  }

  /** The report is the header followed by exactly one section per outcome, numbered
      from 1 in input order, and nothing else. */
  lemma ReportIsNumberedSections(outcomes: seq<Settled>)
    ensures Report(outcomes) == ReportHeader + Concat(Sections(outcomes))
  {
    SectionsTextIsConcat(outcomes);
  }

  lemma {:induction false} ConcatAppend(a: seq<string>, b: seq<string>)
    ensures Concat(a + b) == Concat(a) + Concat(b)
    decreases |b|
  {
    if b == [] {
      assert a + b == a;
    } else {
      ConcatAppend(a, b[..|b| - 1]);
      assert (a + b)[..|a + b| - 1] == a + b[..|b| - 1];
    }
  }

  /** Concatenating around one part: the text before and after it does not depend on it. */
  lemma ConcatAround(parts: seq<string>, k: nat, part: string)
    requires k < |parts|
    ensures Concat(parts[k := part]) == Concat(parts[..k]) + part + Concat(parts[k + 1..])
  {
    assert parts[k := part] == (parts[..k] + [part]) + parts[k + 1..];
    ConcatAppend(parts[..k] + [part], parts[k + 1..]);
    ConcatAppend(parts[..k], [part]);
    assert [part][..0] == [];
  }

  /** Replacing one outcome changes its own section and no other: the text before and
      after it is the same whatever that outcome is. */
  lemma OutcomeOnlyAffectsItsSection(outcomes: seq<Settled>, k: nat, outcome: Settled)
    requires k < |outcomes|
    ensures Report(outcomes[k := outcome])
            == ReportHeader + Concat(Sections(outcomes)[..k]) + Section(k, outcome)
               + Concat(Sections(outcomes)[k + 1..])
  {
    var parts := Sections(outcomes);
    ReportIsNumberedSections(outcomes[k := outcome]);
    SectionsUpdate(outcomes, k, outcome);
    ConcatAround(parts, k, Section(k, outcome));
  }

  /** Replacing one outcome replaces its section in the list of sections. */
  lemma SectionsUpdate(outcomes: seq<Settled>, k: nat, outcome: Settled)
    requires k < |outcomes|
    ensures Sections(outcomes[k := outcome]) == Sections(outcomes)[k := Section(k, outcome)]
  {
  }

  /** With no URLs the report is the header alone. */
  lemma EmptyBatchIsHeaderOnly<J>(headers: Option<Headers>, network: nat -> Request -> FetchOutcome,
                                  codec: JsonCodec<J>)
    ensures ReadMultipleApiDocs([], headers, network, codec).content[0].text == ReportHeader
  {
  }

  /** `readApiDocs` never rejects, so the `读取失败` branch is never taken: section i of the
      tool's report is heading i+1, then exactly the text `readApiDocs` gives for the i-th
      URL and its own response, success or failure envelope, then a blank line. */
  lemma {:induction false} BatchSectionIsDocumentText<J>(urls: seq<string>, headers: Option<Headers>,
                                                        network: nat -> Request -> FetchOutcome,
                                                        codec: JsonCodec<J>, i: nat)
    requires i < |urls|
    ensures Settle(urls, headers, network, codec)[i].Fulfilled?
    ensures var report := ReadMultipleApiDocs(urls, headers, network, codec).content[0].text;
            var parts := Sections(Settle(urls, headers, network, codec));
            && report == ReportHeader + Concat(parts)
            && parts[i] == Heading(i) + ReadApiDocs(urls[i], headers, network(i), codec).content[0].text + "\n\n"
  {
    ReportIsNumberedSections(Settle(urls, headers, network, codec));
  }

  /** Every entry is fetched on its own: even for the same URL, an entry whose request
      failed and one whose request succeeded settle to different texts. */
  lemma EntriesAreFetchedSeparately<J>(urls: seq<string>, headers: Option<Headers>,
                                       network: nat -> Request -> FetchOutcome, codec: JsonCodec<J>, i: nat, j: nat)
    requires i < |urls| && j < |urls|
    requires Attempt(network(i)(RequestFor(urls[i], headers)), codec).Failure?
    requires Attempt(network(j)(RequestFor(urls[j], headers)), codec).Success?
    ensures Settle(urls, headers, network, codec)[i] != Settle(urls, headers, network, codec)[j]
  {
  }

  /** Section headings never repeat: different positions get different numbers. */
  lemma HeadingsAreDistinct(i: nat, j: nat)
    requires i != j
    ensures Heading(i) != Heading(j)
  {
    var prefix := "=== 文档 ";
    if Heading(i) == Heading(j) {
      var a := NatToString(i + 1);
      var b := NatToString(j + 1);
      assert |a| == |b|;
      assert Heading(i)[|prefix|..|prefix| + |a|] == a;
      assert Heading(j)[|prefix|..|prefix| + |b|] == b;
      NatToStringInjective(i + 1, j + 1);
    }
  }
}
