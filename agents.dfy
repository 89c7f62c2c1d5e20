/**
 * The agent layer around the language-model backend: pulling a JSON value out
 * of a model reply, the analysis agent's bounded tool-calling exchange with
 * its two history tools, the parse-failure fallbacks, and the way the
 * report, purchase-request and e-mail agents put retrieved examples in front
 * of their input.
 *
 * The backend is a `Backend` object: a fixed reply function plus the log of
 * the requests it has received, so that the number and content of the calls
 * an agent makes are part of its contract. `json.loads`, `json.dumps` and the
 * vector-store searches are the functions of an `Env`.
 */
module Agents {
  import opened Wrappers
  import opened Text
  import opened Json
  import opened ItemGrouping
  import opened VectorStore

  // ------------------------------------------------------------ environment

  /** `decode` is `json.loads` (`None` where it raises `JSONDecodeError`),
      `dumps` is `json.dumps(_, ensure_ascii=False)`, and `search(c, query, k)`
      is the page contents of the documents the store returns for `query`. */
  datatype Env = Env(
    decode: string -> Option<Json>,
    dumps: Json -> string,
    search: (Collection, string, nat) -> seq<string>)

  /** The system prompts, constant texts. */
  datatype Prompt = AnalysisPrompt | ReportDocPrompt | PrDraftPrompt | PrDocPrompt | EmailDraftPrompt

  /** A requested tool call; `name` and `id` are "" where the call has none
      (Python's `or` treats a missing and an empty value alike), `query` is
      the `query` argument if the call has one. */
  datatype ToolCall = ToolCall(name: string, query: Option<string>, id: string)

  /** A model reply: its text and the tool calls it requests. */
  datatype Response = Response(content: string, toolCalls: seq<ToolCall>)

  datatype Message =
    | SystemMessage(prompt: Prompt)
    | HumanMessage(text: string)
    | AssistantMessage(response: Response)
    | ToolMessage(content: string, toolCallId: string)

  /** A configured chat model: its name and the tools bound to it. */
  datatype Llm = Llm(model: string, tools: seq<string>)

  const SupplierHistoryTool := "supplier_history"
  const ItemHistoryTool := "item_history"

  const ChatModel := Llm("gpt-4o", [])
  const ToolModel := Llm("gpt-4o", [SupplierHistoryTool, ItemHistoryTool])
  const EmailModel := Llm("gpt-4o-mini", [])

  /** The chat backend. `respond` is what it answers to a request (`Err` with
      the exception text where the call raises); `requests` is every request
      it has received, in order. */
  class Backend {
    const respond: (Llm, seq<Message>) -> Result<Response, string>
    var requests: seq<(Llm, seq<Message>)>

    constructor (respond: (Llm, seq<Message>) -> Result<Response, string>)
      ensures this.respond == respond && requests == []
    {
      this.respond := respond;
      requests := [];
    }

    /** `llm.invoke(messages)` */
    method Invoke(llm: Llm, messages: seq<Message>) returns (r: Result<Response, string>)
      modifies this
      ensures requests == old(requests) + [(llm, messages)]
      ensures r == respond(llm, messages)
    {
      requests := requests + [(llm, messages)];
      r := respond(llm, messages);
    }
  }

  // -------------------------------------------------- _extract_json_from_text

  const Fence := "```"

  /** The first index at or after `i` where `p` occurs in `s`. */
  function FindFrom(s: string, i: nat, p: string): (r: Option<nat>)
    ensures r.Some? ==> i <= r.value && At(s, r.value, p) && forall k :: i <= k < r.value ==> !At(s, k, p)
    ensures r.None? ==> forall k :: i <= k ==> !At(s, k, p)
    decreases |s| - i
  {
    if i + |p| > |s| then None
    else if At(s, i, p) then Some(i)
    else FindFrom(s, i + 1, p)
  }

  /** Where ``r"```(?:json)?\s*([\s\S]*?)```"`` matches: the content runs from
      `start` (after the opening fence and an optional "json") to `stop`, the
      first closing fence. The `\s*` before the group is not tracked: its
      characters are whitespace that the `.strip()` applied to the group
      removes anyway. */
  function FencedSpan(text: string): (r: Option<(nat, nat)>)
    ensures r.Some? ==> r.value.0 <= r.value.1 <= |text|
  {
    match FindFrom(text, 0, Fence)
    case None => None
    case Some(p) =>
      match FindFrom(text, p + 3, Fence)
      case None => None
      case Some(q) =>
        if At(text, p + 3, "json") then
          FenceAfterJson(text, p, q);
          Some((p + 7, q))
        else Some((p + 3, q))
  }

  /** A closing fence cannot start inside the "json" tag. */
  lemma FenceAfterJson(text: string, p: nat, q: nat)
    requires At(text, p + 3, "json") && p + 3 <= q && At(text, q, Fence)
    ensures p + 7 <= q
  {
    assert text[q] == Fence[0];
    forall k | p + 3 <= k < p + 7
      ensures text[k] != '`'
    {
      assert text[k] == text[p + 3..p + 7][k - p - 3];
    }
  }

  /** The fenced regex finds a match exactly when two fences occur that do not
      overlap, the later at least three characters after the earlier. */
  lemma FencedSpanExists(text: string)
    ensures FencedSpan(text).Some? <==>
      exists p, q :: 0 <= p && p + 3 <= q && At(text, p, Fence) && At(text, q, Fence)
  {
    if exists p, q :: 0 <= p && p + 3 <= q && At(text, p, Fence) && At(text, q, Fence) {
      var p, q :| 0 <= p && p + 3 <= q && At(text, p, Fence) && At(text, q, Fence);
      var first := FindFrom(text, 0, Fence);
      assert first.Some?;
      assert FindFrom(text, first.value + 3, Fence).Some?;
    }
  }

  /** The content runs from just after the first fence (and its "json" tag) to
      the first fence after it, and contains no fence. */
  lemma FencedSpanShape(text: string)
    requires FencedSpan(text).Some?
    ensures var (start, stop) := FencedSpan(text).value;
      exists p :: At(text, p, Fence) && (forall k :: 0 <= k < p ==> !At(text, k, Fence))
        && start == (if At(text, p + 3, "json") then p + 7 else p + 3)
        && At(text, stop, Fence)
        && forall k :: p + 3 <= k < stop ==> !At(text, k, Fence)
  {
    var p := FindFrom(text, 0, Fence).value;
    assert At(text, p, Fence) && (forall k :: 0 <= k < p ==> !At(text, k, Fence));
  }

  predicate Opener(c: char) { c == '{' || c == '[' }

  function Closer(c: char): char { if c == '{' then '}' else ']' }

  /** The last index of `c` in `s`. */
  function LastIndexOf(s: string, c: char): (r: Option<nat>)
    ensures r.Some? ==> r.value < |s| && s[r.value] == c && forall k :: r.value < k < |s| ==> s[k] != c
    ensures r.None? ==> forall k :: 0 <= k < |s| ==> s[k] != c
  {
    if s == [] then None
    else if s[|s| - 1] == c then Some(|s| - 1)
    else LastIndexOf(s[..|s| - 1], c)
  }

  /** `\{[\s\S]*\}|\[[\s\S]*\]` matches at `p`: an opening bracket with its
      closing kind somewhere after it. */
  predicate SpanOpensAt(text: string, p: nat)
    requires p < |text|
  {
    Opener(text[p]) && var last := LastIndexOf(text, Closer(text[p])); last.Some? && p < last.value
  }

  /** The leftmost position at or after `i` where the bracket pattern matches. */
  function SpanFrom(text: string, i: nat): (r: Option<nat>)
    ensures r.Some? ==>
      (i <= r.value < |text| && SpanOpensAt(text, r.value) && forall k :: i <= k < r.value ==> !SpanOpensAt(text, k))
    ensures r.None? ==> forall k :: i <= k < |text| ==> !SpanOpensAt(text, k)
    decreases |text| - i
  {
    if i >= |text| then None
    else if SpanOpensAt(text, i) then Some(i)
    else SpanFrom(text, i + 1)
  }

  /** The bracketed match: from the leftmost opening bracket that has a
      matching closing bracket after it, greedily to the last such closer. */
  function BracketSpan(text: string): (r: Option<(nat, nat)>)
    ensures r.Some? ==> r.value.0 < r.value.1 <= |text|
  {
    match SpanFrom(text, 0)
    case None => None
    case Some(p) => Some((p, LastIndexOf(text, Closer(text[p])).value + 1))
  }

  /** The bracket regex matches exactly when an opening bracket is followed,
      anywhere later, by a closing bracket of its kind. */
  lemma BracketSpanExists(text: string)
    ensures BracketSpan(text).Some? <==>
      exists p, q :: 0 <= p < q < |text| && Opener(text[p]) && text[q] == Closer(text[p])
  {
    if exists p, q :: 0 <= p < q < |text| && Opener(text[p]) && text[q] == Closer(text[p]) {
      var p, q :| 0 <= p < q < |text| && Opener(text[p]) && text[q] == Closer(text[p]);
      assert SpanOpensAt(text, p);
    }
    if BracketSpan(text).Some? {
      var p := SpanFrom(text, 0).value;
      var q := LastIndexOf(text, Closer(text[p])).value;
      assert 0 <= p < q < |text| && Opener(text[p]) && text[q] == Closer(text[p]);
    }
  }

  /** The bracketed text starts with an opening bracket and ends with the
      closing bracket of the same kind, and no closer of that kind follows it. */
  lemma BracketSpanShape(text: string)
    requires BracketSpan(text).Some?
    ensures var (start, stop) := BracketSpan(text).value;
      var s := text[start..stop];
      && |s| >= 2 && Opener(s[0]) && s[|s| - 1] == Closer(s[0])
      && forall k :: stop <= k < |text| ==> text[k] != Closer(s[0])
  {
  }

  /** Which of the three shapes supplies the text given to `json.loads`. */
  datatype Candidate = Fenced(text: string) | Bracketed(text: string) | Whole(text: string)

  function CandidateOf(text: string): Candidate {
    match FencedSpan(text)
    case Some((start, stop)) => Fenced(Strip(text[start..stop]))
    case None =>
      match BracketSpan(text)
      case Some((start, stop)) => Bracketed(text[start..stop])
      case None => Whole(Strip(text))
  }

  /** `_extract_json_from_text`; `None` where it raises `JSONDecodeError`. */
  function ExtractJson(decode: string -> Option<Json>, text: string): Option<Json> {
    decode(CandidateOf(text).text)
  }

  /** A fenced block decides the result on its own: when its content does not
      decode, extraction fails even if a bracketed span or the whole text
      would decode. */
  lemma FencedBlockDecides(decode: string -> Option<Json>, text: string)
    requires FencedSpan(text).Some?
    ensures var (start, stop) := FencedSpan(text).value;
      ExtractJson(decode, text) == decode(Strip(text[start..stop]))
  {
  }

  /** Without a fenced block the bracketed span is decoded as it stands, and
      without either the whole stripped text is. */
  lemma UnfencedCandidates(decode: string -> Option<Json>, text: string)
    requires FencedSpan(text).None?
    ensures BracketSpan(text).Some? ==>
      var (start, stop) := BracketSpan(text).value;
      ExtractJson(decode, text) == decode(text[start..stop])
    ensures BracketSpan(text).None? ==> ExtractJson(decode, text) == decode(Strip(text))
  {
  }

  /** The candidate text of a fenced block and of the whole text is stripped. */
  lemma CandidateTrimmed(text: string)
    ensures !CandidateOf(text).Bracketed? ==> Trimmed(CandidateOf(text).text)
  {
    match FencedSpan(text)
    case Some((start, stop)) => StripShape(text[start..stop]);
    case None => StripShape(text);
  }

  // ------------------------------------------------------------------ tools

  const HistoryK: nat := 5
  const ExamplesK: nat := 2

  function JoinDocs(docs: seq<string>): string {
    Join(docs, "\n\n")
  }

  /** `supplier_history` / `item_history`: the documents found for the
      query, joined by blank lines, or the tool's "nothing found" message. */
  function HistoryTool(env: Env, c: Collection, query: string): string {
    var docs := env.search(c, query, HistoryK);
    if docs != [] then JoinDocs(docs)
    else if c == SupplierHistory then "No supplier history found."
    else "No item history found."
  }

  /** The item query used when an `item_history` call has no query. */
  function DefaultItemQuery(items: seq<Item>): string {
    Join(seq(|items|, k requires 0 <= k < |items| => "item_code: " + items[k].itemCode), " ")
  }

  /** What the analysis agent hands back for one tool call. */
  function ToolOutput(env: Env, g: Group, call: ToolCall): string {
    var name := if call.name == "" then SupplierHistoryTool else call.name;
    if name == SupplierHistoryTool then HistoryTool(env, SupplierHistory, call.query.GetOr(g.supplier))
    else if name == ItemHistoryTool then HistoryTool(env, ItemHistory, call.query.GetOr(DefaultItemQuery(g.items)))
    else ""
  }

  /** Dispatch: a call without a name goes to the supplier history; a missing
      query defaults to the supplier name or to the group's item codes; any
      other tool name gets the empty string. */
  lemma ToolDispatch(env: Env, g: Group, call: ToolCall)
    ensures call.name == "" || call.name == SupplierHistoryTool ==>
      ToolOutput(env, g, call) == HistoryTool(env, SupplierHistory, if call.query.Some? then call.query.value else g.supplier)
    ensures call.name == ItemHistoryTool ==>
      ToolOutput(env, g, call) == HistoryTool(env, ItemHistory, if call.query.Some? then call.query.value else DefaultItemQuery(g.items))
    ensures call.name !in {"", SupplierHistoryTool, ItemHistoryTool} ==> ToolOutput(env, g, call) == ""
  {
  }

  /** A history tool gives the retrieved texts, or its fixed message when the
      store returns nothing; the search always asks for five documents. */
  lemma HistoryToolOutput(env: Env, c: Collection, query: string)
    ensures env.search(c, query, 5) == [] && c == SupplierHistory ==> HistoryTool(env, c, query) == "No supplier history found."
    ensures env.search(c, query, 5) == [] && c != SupplierHistory ==> HistoryTool(env, c, query) == "No item history found."
    ensures env.search(c, query, 5) != [] ==> HistoryTool(env, c, query) == Join(env.search(c, query, 5), "\n\n")
  {
  }

  /** The tool messages that answer `calls` with the outputs `out` gives,
      one per call, in order. */
  function Replies(out: ToolCall -> string, calls: seq<ToolCall>): (ms: seq<Message>)
    ensures |ms| == |calls|
  {
    if calls == [] then []
    else
      var call := calls[|calls| - 1];
      Replies(out, calls[..|calls| - 1]) + [ToolMessage(out(call), call.id)]
  }

  lemma {:induction false} RepliesAt(out: ToolCall -> string, calls: seq<ToolCall>)
    ensures forall k :: 0 <= k < |calls| ==> Replies(out, calls)[k] == ToolMessage(out(calls[k]), calls[k].id)
  {
    if calls != [] {
      var init := calls[..|calls| - 1];
      RepliesAt(out, init);
      assert forall k :: 0 <= k < |init| ==> init[k] == calls[k];
    }
  }

  /** The tool messages for a reply's calls. */
  function ToolMessages(env: Env, g: Group, calls: seq<ToolCall>): (ms: seq<Message>)
    ensures |ms| == |calls|
  {
    Replies((call: ToolCall) => ToolOutput(env, g, call), calls)
  }

  /** Exactly one tool message per call, in call order, carrying the call's id. */
  lemma ToolMessagesAt(env: Env, g: Group, calls: seq<ToolCall>)
    ensures var ms := ToolMessages(env, g, calls);
      forall k :: 0 <= k < |calls| ==> ms[k] == ToolMessage(ToolOutput(env, g, calls[k]), calls[k].id)
  {
    RepliesAt((call: ToolCall) => ToolOutput(env, g, call), calls);
  }

  /** The loop over the requested calls. */
  method RunTools(env: Env, g: Group, calls: seq<ToolCall>) returns (results: seq<Message>)
    ensures results == ToolMessages(env, g, calls)
  {
    ghost var outputOf := (call: ToolCall) => ToolOutput(env, g, call);
    results := [];
    for k := 0 to |calls|
      invariant results == Replies(outputOf, calls[..k])
    {
      var call := calls[k];
      var out := ToolOutput(env, g, call);
      assert calls[..k + 1][..k] == calls[..k];
      results := results + [ToolMessage(out, call.id)];
    }
    assert calls[..|calls|] == calls;
  }

  // ------------------------------------------------------ run_analysis_agent

  /** The messages of the first request: the system prompt and the group as JSON. */
  function AnalysisMessages(env: Env, g: Group): seq<Message> {
    [SystemMessage(AnalysisPrompt), HumanMessage(env.dumps(GroupJson(g)))]
  }

  /** The messages of the second request: the first ones, the reply and one
      tool message per call. */
  function FollowUpMessages(env: Env, g: Group, reply: Response): seq<Message> {
    AnalysisMessages(env, g) + [AssistantMessage(reply)] + ToolMessages(env, g, reply.toolCalls)
  }

  /** What the analysis agent returns when the final text holds no JSON. */
  function AnalysisFallback(text: string, g: Group): Json {
    JObject([("purchasing_report_markdown", JString(text)),
             ("critical_questions", JArray([])),
             ("replenishment_timeline", ItemsJson(g.items))])
  }

  function ParseOr(env: Env, text: string, fallback: Json): Json {
    match ExtractJson(env.decode, text)
    case Some(j) => j
    case None => fallback
  }

  /** The requests the analysis agent sends, given how the backend answers. */
  function AnalysisRequests(respond: (Llm, seq<Message>) -> Result<Response, string>, env: Env, g: Group)
    : seq<(Llm, seq<Message>)>
  {
    var first := AnalysisMessages(env, g);
    match respond(ToolModel, first)
    case Ok(reply) =>
      if reply.toolCalls != [] then [(ToolModel, first), (ToolModel, FollowUpMessages(env, g, reply))]
      else [(ToolModel, first)]
    case Err(_) => [(ToolModel, first)]
  }

  /** The analysis agent's result (an `Err` where a backend call raises). */
  function AnalysisOutcome(respond: (Llm, seq<Message>) -> Result<Response, string>, env: Env, g: Group)
    : Result<Json, string>
  {
    var first := AnalysisMessages(env, g);
    match respond(ToolModel, first)
    case Err(e) => Err(e)
    case Ok(reply) =>
      if reply.toolCalls == [] then Ok(ParseOr(env, reply.content, AnalysisFallback(reply.content, g)))
      else
        match respond(ToolModel, FollowUpMessages(env, g, reply))
        case Err(e) => Err(e)
        case Ok(last) => Ok(ParseOr(env, last.content, AnalysisFallback(last.content, g)))
  }

  /** `run_analysis_agent` */
  method RunAnalysisAgent(b: Backend, env: Env, g: Group) returns (r: Result<Json, string>)
    modifies b
    ensures b.requests == old(b.requests) + AnalysisRequests(b.respond, env, g)
    ensures r == AnalysisOutcome(b.respond, env, g)
  {
    var messages := AnalysisMessages(env, g);
    var response := b.Invoke(ToolModel, messages);
    if response.Err? {
      return Err(response.error);
    }
    var reply := response.value;
    if reply.toolCalls != [] {
      var toolResults := RunTools(env, g, reply.toolCalls);
      messages := messages + [AssistantMessage(reply)] + toolResults;
      response := b.Invoke(ToolModel, messages);
      if response.Err? {
        return Err(response.error);
      }
      reply := response.value;
    }
    var text := reply.content;
    match ExtractJson(env.decode, text) {
      case Some(j) => r := Ok(j);
      case None => r := Ok(AnalysisFallback(text, g));
    }
  }

  /** The backend is asked once, and a second time exactly when its first
      reply requests tools; never more than twice. */
  lemma AnalysisRequestCount(respond: (Llm, seq<Message>) -> Result<Response, string>, env: Env, g: Group)
    ensures var rs := AnalysisRequests(respond, env, g);
      && 1 <= |rs| <= 2
      && rs[0] == (ToolModel, AnalysisMessages(env, g))
      && (|rs| == 2 <==> respond(ToolModel, AnalysisMessages(env, g)).Ok? &&
                         respond(ToolModel, AnalysisMessages(env, g)).value.toolCalls != [])
  {
  }

  /** The second request repeats the first, then the first reply, then one tool
      message per requested call, in order and carrying the call's id. */
  lemma FollowUpShape(env: Env, g: Group, reply: Response)
    ensures var ms := FollowUpMessages(env, g, reply);
      var calls := reply.toolCalls;
      && |ms| == 3 + |calls|
      && ms[..2] == AnalysisMessages(env, g)
      && ms[2] == AssistantMessage(reply)
      && forall k :: 0 <= k < |calls| ==> ms[3 + k] == ToolMessage(ToolOutput(env, g, calls[k]), calls[k].id)
  {
    ToolMessagesAt(env, g, reply.toolCalls);
    ConversationShape(AnalysisMessages(env, g), AssistantMessage(reply), ToolMessages(env, g, reply.toolCalls));
  }

  lemma ConversationShape(first: seq<Message>, m: Message, rest: seq<Message>)
    requires |first| == 2
    ensures var ms := first + [m] + rest;
      |ms| == 3 + |rest| && ms[..2] == first && ms[2] == m && forall k :: 0 <= k < |rest| ==> ms[3 + k] == rest[k]
  {
  }

  /** Tool calls in the second reply are ignored: only its text counts. */
  lemma SecondToolCallsIgnored(respond: (Llm, seq<Message>) -> Result<Response, string>, env: Env, g: Group,
                               reply: Response, last: Response)
    requires respond(ToolModel, AnalysisMessages(env, g)) == Ok(reply) && reply.toolCalls != []
    requires respond(ToolModel, FollowUpMessages(env, g, reply)) == Ok(last)
    ensures AnalysisOutcome(respond, env, g) == Ok(ParseOr(env, last.content, AnalysisFallback(last.content, g)))
    ensures |AnalysisRequests(respond, env, g)| == 2
  {
  }

  /** An unparseable final text gives the markdown fallback, with the group's
      items unchanged as the timeline. */
  lemma AnalysisFallbackShape(env: Env, text: string, g: Group)
    requires ExtractJson(env.decode, text).None?
    ensures var j := ParseOr(env, text, AnalysisFallback(text, g));
      && j.JObject?
      && DictGet(j.fields, "purchasing_report_markdown", JNull) == JString(text)
      && DictGet(j.fields, "critical_questions", JNull) == JArray([])
      && DictGet(j.fields, "replenishment_timeline", JNull) == ItemsJson(g.items)
  {
    var fields := AnalysisFallback(text, g).fields;
    assert |"purchasing_report_markdown"| == 26 && |"critical_questions"| == 18 && |"replenishment_timeline"| == 22;
    assert DictGet(fields[2..], "replenishment_timeline", JNull) == ItemsJson(g.items);
    assert DictGet(fields[1..], "critical_questions", JNull) == JArray([]);
  }

  // ----------------------------------------- the report, PR and e-mail agents

  /** The example texts retrieved for an agent, joined by blank lines. */
  function ExamplesText(docs: seq<string>): string {
    if docs != [] then JoinDocs(docs) else ""
  }

  /** The user message: the serialized input, preceded by the examples under
      `heading` when there are any. */
  function WithExamples(heading: string, examples: string, input: string): (user: string)
    ensures examples == "" <==> user == input
    ensures EndsWith(user, input)
    ensures examples != "" ==> StartsWith(user, heading + examples + "\n\nInput:\n")
  {
    if examples != "" then heading + examples + "\n\nInput:\n" + input else input
  }

  /** The messages one of the single-request agents sends. */
  function AgentMessages(prompt: Prompt, heading: string, docs: seq<string>, input: string): seq<Message> {
    [SystemMessage(prompt), HumanMessage(WithExamples(heading, ExamplesText(docs), input))]
  }

  function ContentOf(r: Result<Response, string>): Result<string, string> {
    match r
    case Ok(reply) => Ok(reply.content)
    case Err(e) => Err(e)
  }

  function ReportMessages(env: Env, analysisResult: Json): seq<Message> {
    AgentMessages(ReportDocPrompt, "Reference (tone/structure only):\n",
                  env.search(AnalysisExamples, "analysis report structure and tone", ExamplesK),
                  env.dumps(analysisResult))
  }

  /** `run_report_doc_agent` */
  method RunReportDocAgent(b: Backend, env: Env, analysisResult: Json) returns (r: Result<string, string>)
    modifies b
    ensures b.requests == old(b.requests) + [(ChatModel, ReportMessages(env, analysisResult))]
    ensures r == ContentOf(b.respond(ChatModel, ReportMessages(env, analysisResult)))
  {
    var examples := env.search(AnalysisExamples, "analysis report structure and tone", ExamplesK);
    var examplesText := ExamplesText(examples);
    var user := env.dumps(analysisResult);
    if examplesText != "" {
      user := "Reference (tone/structure only):\n" + examplesText + "\n\nInput:\n" + user;
    }
    var out := b.Invoke(ChatModel, [SystemMessage(ReportDocPrompt), HumanMessage(user)]);
    r := ContentOf(out);
  }

  function PrDraftPayload(snapshotDate: string, supplier: string, riskLevel: string, analysisOutput: Json): Json {
    JObject([("snapshot_date", JString(snapshotDate)), ("supplier", JString(supplier)),
             ("risk_level", JString(riskLevel)), ("analysis_output", analysisOutput)])
  }

  function PrDraftMessages(env: Env, snapshotDate: string, supplier: string, riskLevel: string, analysisOutput: Json)
    : seq<Message>
  {
    AgentMessages(PrDraftPrompt, "Reference (structure only):\n",
                  env.search(RequestExamples, "purchase request structure", ExamplesK),
                  env.dumps(PrDraftPayload(snapshotDate, supplier, riskLevel, analysisOutput)))
  }

  /** What the PR draft agent returns when the reply holds no JSON. */
  function PrDraftFallback(snapshotDate: string, supplier: string): Json {
    JObject([("document_type", JString("purchase_request")), ("supplier", JString(supplier)),
             ("snapshot_date", JString(snapshotDate)), ("purchase_requests", JArray([]))])
  }

  /** The draft for the backend's reply: the JSON the reply holds, or the fallback. */
  function PrDraftOutcome(respond: (Llm, seq<Message>) -> Result<Response, string>, env: Env, snapshotDate: string,
                          supplier: string, riskLevel: string, analysisOutput: Json): Result<Json, string>
  {
    match respond(ChatModel, PrDraftMessages(env, snapshotDate, supplier, riskLevel, analysisOutput))
    case Err(e) => Err(e)
    case Ok(reply) => Ok(ParseOr(env, reply.content, PrDraftFallback(snapshotDate, supplier)))
  }

  /** `run_pr_draft_agent` */
  method RunPrDraftAgent(b: Backend, env: Env, snapshotDate: string, supplier: string, riskLevel: string,
                         analysisOutput: Json) returns (r: Result<Json, string>)
    modifies b
    ensures b.requests == old(b.requests) + [(ChatModel, PrDraftMessages(env, snapshotDate, supplier, riskLevel, analysisOutput))]
    ensures r == PrDraftOutcome(b.respond, env, snapshotDate, supplier, riskLevel, analysisOutput)
  {
    var examples := env.search(RequestExamples, "purchase request structure", ExamplesK);
    var examplesText := ExamplesText(examples);
    var user := env.dumps(PrDraftPayload(snapshotDate, supplier, riskLevel, analysisOutput));
    if examplesText != "" {
      user := "Reference (structure only):\n" + examplesText + "\n\nInput:\n" + user;
    }
    var out := b.Invoke(ChatModel, [SystemMessage(PrDraftPrompt), HumanMessage(user)]);
    if out.Err? {
      return Err(out.error);
    }
    var text := out.value.content;
    match ExtractJson(env.decode, text) {
      case Some(j) => r := Ok(j);
      case None => r := Ok(PrDraftFallback(snapshotDate, supplier));
    }
  }

  /** An unparseable PR draft gives an empty purchase request for the supplier. */
  lemma PrDraftFallbackShape(env: Env, text: string, snapshotDate: string, supplier: string)
    requires ExtractJson(env.decode, text).None?
    ensures var j := ParseOr(env, text, PrDraftFallback(snapshotDate, supplier));
      && j.JObject?
      && DictGet(j.fields, "document_type", JNull) == JString("purchase_request")
      && DictGet(j.fields, "supplier", JNull) == JString(supplier)
      && DictGet(j.fields, "snapshot_date", JNull) == JString(snapshotDate)
      && DictGet(j.fields, "purchase_requests", JNull) == JArray([])
  {
    var fields := PrDraftFallback(snapshotDate, supplier).fields;
    GetFirst(fields, "document_type");
    GetNext(fields, "supplier");
    GetNext(fields[1..], "snapshot_date");
    GetNext(fields[2..], "purchase_requests");
  }

  function PrDocMessages(env: Env, requestOutput: Json): seq<Message> {
    AgentMessages(PrDocPrompt, "Reference (format only):\n",
                  env.search(RequestExamples, "purchase requisition format", ExamplesK),
                  env.dumps(requestOutput))
  }

  /** `run_pr_doc_agent` */
  method RunPrDocAgent(b: Backend, env: Env, requestOutput: Json) returns (r: Result<string, string>)
    modifies b
    ensures b.requests == old(b.requests) + [(ChatModel, PrDocMessages(env, requestOutput))]
    ensures r == ContentOf(b.respond(ChatModel, PrDocMessages(env, requestOutput)))
  {
    var examples := env.search(RequestExamples, "purchase requisition format", ExamplesK);
    var examplesText := ExamplesText(examples);
    var user := env.dumps(requestOutput);
    if examplesText != "" {
      user := "Reference (format only):\n" + examplesText + "\n\nInput:\n" + user;
    }
    var out := b.Invoke(ChatModel, [SystemMessage(PrDocPrompt), HumanMessage(user)]);
    r := ContentOf(out);
  }

  function EmailPayload(snapshotDate: string, supplier: string, riskLevel: string, items: seq<Item>,
                        analysisOutput: Json): Json
  {
    JObject([("snapshot_date", JString(snapshotDate)), ("supplier", JString(supplier)),
             ("risk_level", JString(riskLevel)), ("items", ItemsJson(items)),
             ("analysis_output", analysisOutput)])
  }

  function EmailMessages(env: Env, snapshotDate: string, supplier: string, riskLevel: string, items: seq<Item>,
                         analysisOutput: Json): seq<Message>
  {
    AgentMessages(EmailDraftPrompt, "Reference (tone only):\n",
                  env.search(EmailExamples, "supplier email tone and structure", ExamplesK),
                  env.dumps(EmailPayload(snapshotDate, supplier, riskLevel, items, analysisOutput)))
  }

  /** `run_email_draft_agent` */
  method RunEmailDraftAgent(b: Backend, env: Env, snapshotDate: string, supplier: string, riskLevel: string,
                            items: seq<Item>, analysisOutput: Json) returns (r: Result<string, string>)
    modifies b
    ensures var ms := EmailMessages(env, snapshotDate, supplier, riskLevel, items, analysisOutput);
      && b.requests == old(b.requests) + [(EmailModel, ms)]
      && r == ContentOf(b.respond(EmailModel, ms))
  {
    var examples := env.search(EmailExamples, "supplier email tone and structure", ExamplesK);
    var examplesText := ExamplesText(examples);
    var user := env.dumps(EmailPayload(snapshotDate, supplier, riskLevel, items, analysisOutput));
    if examplesText != "" {
      user := "Reference (tone only):\n" + examplesText + "\n\nInput:\n" + user;
    }
    var out := b.Invoke(EmailModel, [SystemMessage(EmailDraftPrompt), HumanMessage(user)]);
    r := ContentOf(out);
  }

  /** No retrieved example leaves the serialized input as the whole user
      message; otherwise the input follows the labelled examples. */
  lemma ExamplesPrefix(heading: string, docs: seq<string>, input: string)
    ensures docs == [] ==> WithExamples(heading, ExamplesText(docs), input) == input
    ensures ExamplesText(docs) != "" ==>
      WithExamples(heading, ExamplesText(docs), input) == heading + Join(docs, "\n\n") + "\n\nInput:\n" + input
  {
  }
}
