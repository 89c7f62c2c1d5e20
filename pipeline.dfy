/**
 * The pipeline run: CSV rows to supplier groups, then for every group the
 * analysis, report, purchase-request and e-mail agents, each document turned
 * into a .docx that is either kept in memory (base64) or saved to disk, with
 * progress events reported along the way; and the relay that forwards those
 * events to a streaming client.
 */
module Pipeline {
  import opened Wrappers
  import opened Text
  import opened Json
  import opened CsvUtils
  import opened ItemGrouping
  import opened DocxUtils
  import opened Agents

  /** What the run needs from outside: the agents' environment, CSV decoding
      (`csv.DictReader` over the text), the base64 text of the .docx built
      from a block list, the path of each output folder, `use_temp_for_output`
      and `_read_file_base64` (`None` where the file is missing or unreadable). */
  datatype PipelineEnv = PipelineEnv(
    agents: Env,
    readCsv: string -> seq<Row>,
    docxBase64: seq<Block> -> string,
    folderPath: Folder -> string,
    useTemp: bool,
    readBase64: string -> Option<string>)

  /** A generated document: `body` is the "markdown" of a report or request,
      the "text" of an e-mail. */
  datatype Document = Document(
    snapshotDate: string,
    supplier: string,
    body: string,
    filename: string,
    savedPath: string,
    contentBase64: Option<string>)

  datatype PipelineResult = PipelineResult(
    groups: seq<Group>,
    reports: seq<Document>,
    requests: seq<Document>,
    emails: seq<Document>)

  /** The progress events, named by their `step`. */
  datatype Event =
    | CsvParsingStep
    | ItemGroupingStep
    | ItemGroupingDoneStep(count: nat)
    | AnalysisStep(supplier: string)
    | ReportStep(supplier: string)
    | PrStep(supplier: string)
    | EmailStep(supplier: string)
    | GeneratingFileStep(filename: string)
    | FileReadyStep(filename: string, contentBase64: string)
    | CompleteStep(result: PipelineResult)
    | ErrorStep(error: string)

  /** The exceptions a run can raise. */
  datatype PipelineError =
    | HttpError(status: nat, detail: string)
    | GroupingFailed(grouping: GroupingError)
    | BackendFailed(message: string)
    | NoGetAttribute(typeName: string)

  const NoRowsDetail :=
    "No valid CSV rows. Ensure columns: SupplierName, ItemCode, ItemName, CurrentStock, WksToOOS, RiskLevel (or similar)."
  const NoGroupsDetail := "No groups by supplier. Check SupplierName/Supplier column."

  /** `str(e)`; an `HTTPException` prints as "status: detail", so its text
      splits at the first colon into the status digits and the detail. */
  function ErrorText(e: PipelineError): (r: string)
    ensures e.HttpError? ==>
      ':' in r && AllDigits(r[..IndexOf(r, ':')]) && DigitsValue(r[..IndexOf(r, ':')]) == e.status
      && r[IndexOf(r, ':')..] == ": " + e.detail
    ensures e.GroupingFailed? ==> r == ErrorMessage(e.grouping)
    ensures e.BackendFailed? ==> r == e.message
    ensures e.NoGetAttribute? ==> r == "'" + e.typeName + "' object has no attribute 'get'"
  {
    match e
    case HttpError(status, detail) =>
      var digits := NatToString(status);
      assert ':' !in digits by {
        forall i | 0 <= i < |digits| ensures digits[i] != ':' { assert IsDigit(digits[i]); }
      }
      HttpTextSplits(digits, ": " + detail);
      digits + (": " + detail)
    case GroupingFailed(g) => ErrorMessage(g)
    case BackendFailed(m) => m
    case NoGetAttribute(t) => "'" + t + "' object has no attribute 'get'"
  }

  /** A text with no colon before a part that starts with one splits there. */
  lemma HttpTextSplits(head: string, tail: string)
    requires ':' !in head && tail != [] && tail[0] == ':'
    ensures ':' in head + tail && IndexOf(head + tail, ':') == |head|
  {
    assert (head + tail)[|head|] == ':';
  }

  // ------------------------------------------------------------- documents

  /** Where `save_*_docx` writes a document and the path string it returns. */
  function SavedPath(env: PipelineEnv, a: Artifact, snapshotDate: string, supplier: string): string {
    env.folderPath(SaveFolder(env.useTemp, a)) + ("/" + ArtifactFilename(a, snapshotDate, supplier))
  }

  /** The entry added to a result list for the text `body` of artifact `a`:
      in memory the base64 of the .docx built from the body's blocks and no
      saved path, otherwise the saved file's path and whatever reading it
      back gives. */
  function DocumentFor(env: PipelineEnv, inMemory: bool, a: Artifact, g: Group, body: string): Document {
    var filename := ArtifactFilename(a, g.snapshotDate, g.supplier);
    if inMemory then
      Document(g.snapshotDate, g.supplier, body, filename, "", Some(env.docxBase64(Blocks(body))))
    else
      var path := SavedPath(env, a, g.snapshotDate, g.supplier);
      Document(g.snapshotDate, g.supplier, body, filename, path, env.readBase64(path))
  }

  /** A document carries its group's date and supplier and the artifact's
      file name in every mode; its saved path is empty exactly in memory
      mode, where its content is the .docx of the body's blocks, and
      otherwise names the file inside the artifact's folder. */
  lemma DocumentShape(env: PipelineEnv, inMemory: bool, a: Artifact, g: Group, body: string)
    ensures var d := DocumentFor(env, inMemory, a, g, body);
      && d.snapshotDate == g.snapshotDate && d.supplier == g.supplier && d.body == body
      && d.filename == ArtifactFilename(a, g.snapshotDate, g.supplier)
      && StartsWith(d.filename, ArtifactPrefix(a)) && EndsWith(d.filename, ".docx")
      && (d.savedPath == "" <==> inMemory)
      && (inMemory ==> d.contentBase64 == Some(env.docxBase64(Blocks(body))))
      && (!inMemory ==> d.contentBase64 == env.readBase64(d.savedPath))
      && (!inMemory ==> EndsWith(d.savedPath, "/" + d.filename))
  {
    if !inMemory {
      EndsWithConcat(env.folderPath(SaveFolder(env.useTemp, a)), "/" + ArtifactFilename(a, g.snapshotDate, g.supplier));
    }
  }

  /** The document of artifact `a` for group `g`, whatever body the agents produced. */
  predicate DocumentOf(env: PipelineEnv, inMemory: bool, a: Artifact, g: Group, d: Document) {
    DocumentFor(env, inMemory, a, g, d.body) == d
  }

  /** `generating_file` and `file_ready` for a document made in memory while streaming. */
  function FileEvents(inMemory: bool, d: Document): seq<Event> {
    if inMemory then [GeneratingFileStep(d.filename), FileReadyStep(d.filename, d.contentBase64.GetOr(""))] else []
  }

  // ------------------------------------------------- one group, as values

  type Respond = (Llm, seq<Message>) -> Result<Response, string>

  /** A backend failure propagates as the run's exception. */
  function Raised(r: Result<string, string>): Result<string, PipelineError> {
    match r
    case Ok(text) => Ok(text)
    case Err(m) => Err(BackendFailed(m))
  }

  /** `analysis_result`: the analysis output's fields with their defaults;
      an output that is not an object has no `.get`. */
  function AnalysisResult(g: Group, output: Json): Result<Json, PipelineError> {
    if output.JObject? then
      Ok(JObject([("snapshot_date", JString(g.snapshotDate)), ("supplier", JString(g.supplier)),
                  ("purchasing_report_markdown", DictGet(output.fields, "purchasing_report_markdown", JString(""))),
                  ("critical_questions", DictGet(output.fields, "critical_questions", JArray([]))),
                  ("replenishment_timeline", DictGet(output.fields, "replenishment_timeline", ItemsJson(g.items)))]))
    else Err(NoGetAttribute(PyTypeName(output)))
  }

  /** The fields the report agent receives: the group's date and supplier,
      then the analysis fields or their defaults; a list raises. */
  lemma AnalysisResultDefaults(g: Group, output: Json)
    ensures output.JArray? ==> AnalysisResult(g, output) == Err(NoGetAttribute("list"))
    ensures output.JObject? && output.fields == [] ==>
      AnalysisResult(g, output) == Ok(JObject([
        ("snapshot_date", JString(g.snapshotDate)), ("supplier", JString(g.supplier)),
        ("purchasing_report_markdown", JString("")), ("critical_questions", JArray([])),
        ("replenishment_timeline", ItemsJson(g.items))]))
  {
  }

  /** `items[0].get("risk_level", "N/A") if items else "N/A"` */
  function RiskLevel(g: Group): string {
    if g.items != [] then g.items[0].riskLevel else "N/A"
  }

  /** The report markdown: the report agent's reply to the analysis result. */
  function ReportBody(respond: Respond, env: PipelineEnv, g: Group, output: Json): Result<string, PipelineError> {
    match AnalysisResult(g, output)
    case Err(e) => Err(e)
    case Ok(analysisResult) => Raised(ContentOf(respond(ChatModel, ReportMessages(env.agents, analysisResult))))
  }

  /** The purchase-request markdown: the document agent's reply to the draft. */
  function RequestBody(respond: Respond, env: PipelineEnv, g: Group, output: Json): Result<string, PipelineError> {
    match PrDraftOutcome(respond, env.agents, g.snapshotDate, g.supplier, RiskLevel(g), output)
    case Err(m) => Err(BackendFailed(m))
    case Ok(draft) => Raised(ContentOf(respond(ChatModel, PrDocMessages(env.agents, draft))))
  }

  /** The e-mail text. */
  function EmailBody(respond: Respond, env: PipelineEnv, g: Group, output: Json): Result<string, PipelineError> {
    Raised(ContentOf(respond(EmailModel, EmailMessages(env.agents, g.snapshotDate, g.supplier, RiskLevel(g), g.items, output))))
  }

  /** The document for a body, or the failure that produced no body. */
  function Published(env: PipelineEnv, inMemory: bool, a: Artifact, g: Group, body: Result<string, PipelineError>)
    : Result<Document, PipelineError>
  {
    match body
    case Err(e) => Err(e)
    case Ok(text) => Ok(DocumentFor(env, inMemory, a, g, text))
  }

  datatype GroupDocuments = GroupDocuments(report: Document, request: Document, email: Document)

  /** The outcome of a pass from the outcomes of its steps, in the order the
      loop body runs them: the first failure, or the three documents. */
  function Combine(analysis: Result<Json, string>, report: Result<Document, PipelineError>,
                   request: Result<Document, PipelineError>, email: Result<Document, PipelineError>)
    : Result<GroupDocuments, PipelineError>
  {
    if analysis.Err? then Err(BackendFailed(analysis.error))
    else if report.Err? then Err(report.error)
    else if request.Err? then Err(request.error)
    else if email.Err? then Err(email.error)
    else Ok(GroupDocuments(report.value, request.value, email.value))
  }

  /** One pass of the loop: the group's three documents, or the first exception.
      The later steps only run on a successful analysis, so what they are
      given otherwise does not matter. */
  function GroupOutcome(respond: Respond, env: PipelineEnv, inMemory: bool, g: Group)
    : Result<GroupDocuments, PipelineError>
  {
    var analysis := AnalysisOutcome(respond, env.agents, g);
    var output := if analysis.Ok? then analysis.value else JNull;
    Combine(analysis,
            Published(env, inMemory, Analysis, g, ReportBody(respond, env, g, output)),
            Published(env, inMemory, PurchaseRequest, g, RequestBody(respond, env, g, output)),
            Published(env, inMemory, EmailDraft, g, EmailBody(respond, env, g, output)))
  }

  /** A group's documents are its report, request and e-mail, each made from
      the corresponding agent's reply; a failed analysis call, or an analysis
      output that is not an object, stops the group before any document. */
  lemma GroupOutcomeShape(respond: Respond, env: PipelineEnv, inMemory: bool, g: Group)
    ensures AnalysisOutcome(respond, env.agents, g).Err? ==>
      GroupOutcome(respond, env, inMemory, g) == Err(BackendFailed(AnalysisOutcome(respond, env.agents, g).error))
    ensures AnalysisOutcome(respond, env.agents, g).Ok? && !AnalysisOutcome(respond, env.agents, g).value.JObject? ==>
      GroupOutcome(respond, env, inMemory, g) == Err(NoGetAttribute(PyTypeName(AnalysisOutcome(respond, env.agents, g).value)))
    ensures GroupOutcome(respond, env, inMemory, g).Ok? ==>
      var d := GroupOutcome(respond, env, inMemory, g).value;
      var output := AnalysisOutcome(respond, env.agents, g).value;
      && DocumentOf(env, inMemory, Analysis, g, d.report)
      && DocumentOf(env, inMemory, PurchaseRequest, g, d.request)
      && DocumentOf(env, inMemory, EmailDraft, g, d.email)
      && ReportBody(respond, env, g, output) == Ok(d.report.body)
      && RequestBody(respond, env, g, output) == Ok(d.request.body)
      && EmailBody(respond, env, g, output) == Ok(d.email.body)
  {
  }

  // ------------------------------------------------------- the whole run

  type GroupStep = Group -> Result<GroupDocuments, PipelineError>

  /** The loop over the groups: the documents of every group, or the first
      group's exception. */
  function GroupsOutcome(step: GroupStep, gs: seq<Group>): Result<PipelineResult, PipelineError> {
    if gs == [] then Ok(PipelineResult([], [], [], []))
    else
      var n := |gs| - 1;
      match GroupsOutcome(step, gs[..n])
      case Err(e) => Err(e)
      case Ok(prev) =>
        match step(gs[n])
        case Err(e) => Err(e)
        case Ok(d) => Ok(PipelineResult(gs, prev.reports + [d.report], prev.requests + [d.request], prev.emails + [d.email]))
  }

  /** The pass the run makes for each group. */
  function GroupStepOf(respond: Respond, env: PipelineEnv, inMemory: bool): GroupStep {
    g => GroupOutcome(respond, env, inMemory, g)
  }

  /** `_run_pipeline`'s response, or the exception it raises. */
  function RunOutcome(respond: Respond, env: PipelineEnv, cal: Calendar, csvContent: string, csvFilename: string,
                      inMemory: bool): Result<PipelineResult, PipelineError>
  {
    var rows := NormalizeRows(env.readCsv(csvContent), csvFilename);
    if rows == [] then Err(HttpError(400, NoRowsDetail))
    else
      match GroupRows(cal, rows)
      case Err(e) => Err(GroupingFailed(e))
      case Ok(groups) =>
        if groups == [] then Err(HttpError(400, NoGroupsDetail))
        else GroupsOutcome(GroupStepOf(respond, env, inMemory), groups)
  }

  /** The documents match the groups one for one, in group order. */
  predicate ResultShape(env: PipelineEnv, inMemory: bool, result: PipelineResult) {
    && |result.reports| == |result.groups|
    && |result.requests| == |result.groups|
    && |result.emails| == |result.groups|
    && forall k :: 0 <= k < |result.groups| ==>
      && DocumentOf(env, inMemory, Analysis, result.groups[k], result.reports[k])
      && DocumentOf(env, inMemory, PurchaseRequest, result.groups[k], result.requests[k])
      && DocumentOf(env, inMemory, EmailDraft, result.groups[k], result.emails[k])
  }

  /** A completed loop holds, at every index, exactly that group's documents. */
  lemma {:induction false} GroupsOutcomeShape(step: GroupStep, gs: seq<Group>)
    ensures GroupsOutcome(step, gs).Ok? ==>
      var res := GroupsOutcome(step, gs).value;
      && res.groups == gs
      && |res.reports| == |gs| && |res.requests| == |gs| && |res.emails| == |gs|
      && forall k :: 0 <= k < |gs| ==> step(gs[k]) == Ok(GroupDocuments(res.reports[k], res.requests[k], res.emails[k]))
  {
    if gs != [] {
      var n := |gs| - 1;
      GroupsOutcomeShape(step, gs[..n]);
      if GroupsOutcome(step, gs).Ok? {
        var res := GroupsOutcome(step, gs).value;
        var prev := GroupsOutcome(step, gs[..n]).value;
        forall k | 0 <= k < |gs|
          ensures step(gs[k]) == Ok(GroupDocuments(res.reports[k], res.requests[k], res.emails[k]))
        {
          if k < n {
            assert gs[..n][k] == gs[k];
            assert res.reports[k] == prev.reports[k];
            assert res.requests[k] == prev.requests[k];
            assert res.emails[k] == prev.emails[k];
          }
        }
      }
    }
  }

  /** The loop fails exactly when some group fails, and then with the
      exception of the first group that fails. */
  lemma {:induction false} GroupsOutcomeFailure(step: GroupStep, gs: seq<Group>)
    ensures GroupsOutcome(step, gs).Err? <==> exists k :: 0 <= k < |gs| && step(gs[k]).Err?
    ensures GroupsOutcome(step, gs).Err? ==>
      exists k :: 0 <= k < |gs|
        && step(gs[k]) == Err(GroupsOutcome(step, gs).error)
        && forall j :: 0 <= j < k ==> step(gs[j]).Ok?
  {
    if gs != [] {
      var n := |gs| - 1;
      GroupsOutcomeFailure(step, gs[..n]);
      forall j | 0 <= j < n ensures gs[..n][j] == gs[j] { }
    }
  }

  /** A failure in the first `k` groups is the failure of the whole loop. */
  lemma {:induction false} GroupsOutcomePrefixFails(step: GroupStep, gs: seq<Group>, k: nat)
    requires k <= |gs|
    requires GroupsOutcome(step, gs[..k]).Err?
    ensures GroupsOutcome(step, gs) == GroupsOutcome(step, gs[..k])
  {
    if k < |gs| {
      var n := |gs| - 1;
      assert gs[..n][..k] == gs[..k];
      GroupsOutcomePrefixFails(step, gs[..n], k);
    } else {
      assert gs[..k] == gs;
    }
  }

  /** One more pass of the loop: a successful pass appends that group's documents. */
  lemma GroupsOutcomeNext(step: GroupStep, gs: seq<Group>, k: nat, prev: PipelineResult)
    requires k < |gs| && GroupsOutcome(step, gs[..k]) == Ok(prev)
    ensures step(gs[k]).Ok? ==>
      var d := step(gs[k]).value;
      GroupsOutcome(step, gs[..k + 1])
        == Ok(PipelineResult(gs[..k + 1], prev.reports + [d.report], prev.requests + [d.request], prev.emails + [d.email]))
    ensures step(gs[k]).Err? ==> GroupsOutcome(step, gs) == Err(step(gs[k]).error)
  {
    assert gs[..k + 1][..k] == gs[..k];
    if step(gs[k]).Err? {
      GroupsOutcomePrefixFails(step, gs, k + 1);
    }
  }

  /** A run that completes has read at least one row, grouped them without
      error into at least one group, and made every group's three documents. */
  lemma RunOutcomeShape(respond: Respond, env: PipelineEnv, cal: Calendar, csvContent: string, csvFilename: string,
                        inMemory: bool)
    ensures var r := RunOutcome(respond, env, cal, csvContent, csvFilename, inMemory);
      var rows := NormalizeRows(env.readCsv(csvContent), csvFilename);
      r.Ok? ==>
        && rows != []
        && GroupRows(cal, rows) == Ok(r.value.groups)
        && r.value.groups != []
        && ResultShape(env, inMemory, r.value)
  {
    var r := RunOutcome(respond, env, cal, csvContent, csvFilename, inMemory);
    if r.Ok? {
      var rows := NormalizeRows(env.readCsv(csvContent), csvFilename);
      var groups := GroupRows(cal, rows).value;
      GroupsOutcomeShape(GroupStepOf(respond, env, inMemory), groups);
      forall k | 0 <= k < |groups|
        ensures DocumentOf(env, inMemory, Analysis, groups[k], r.value.reports[k])
        ensures DocumentOf(env, inMemory, PurchaseRequest, groups[k], r.value.requests[k])
        ensures DocumentOf(env, inMemory, EmailDraft, groups[k], r.value.emails[k])
      {
        GroupOutcomeShape(respond, env, inMemory, groups[k]);
      }
    }
  }

  /** The run refuses with 400 when CSV parsing yields no rows or grouping
      yields no group, and raises the grouping error when grouping fails. */
  lemma RunOutcomeRefusals(respond: Respond, env: PipelineEnv, cal: Calendar, csvContent: string, csvFilename: string,
                           inMemory: bool)
    ensures var r := RunOutcome(respond, env, cal, csvContent, csvFilename, inMemory);
      var rows := NormalizeRows(env.readCsv(csvContent), csvFilename);
      && (rows == [] ==> r == Err(HttpError(400, NoRowsDetail)))
      && (rows != [] && GroupRows(cal, rows).Err? ==> r == Err(GroupingFailed(GroupRows(cal, rows).error)))
      && (rows != [] && GroupRows(cal, rows) == Ok([]) ==> r == Err(HttpError(400, NoGroupsDetail)))
  {
  }

  // ------------------------------------------------------------ the trace

  /** No step of a group ends the stream, and none is a report step. */
  predicate Quiet(e: Event) {
    !e.CompleteStep? && !e.ErrorStep? && !e.ReportStep?
  }

  predicate AllQuiet(evs: seq<Event>) {
    forall i :: 0 <= i < |evs| ==> Quiet(evs[i])
  }

  lemma QuietConcat(a: seq<Event>, b: seq<Event>)
    requires AllQuiet(a) && AllQuiet(b)
    ensures AllQuiet(a + b)
  {
    forall i | 0 <= i < |a + b| ensures Quiet((a + b)[i]) {
      if i >= |a| {
        assert (a + b)[i] == b[i - |a|];
      }
    }
  }

  lemma FileEventsQuiet(inMemory: bool, d: Document)
    ensures AllQuiet(FileEvents(inMemory, d))
  {
  }

  /** The events of one group, given its three documents. */
  function GroupEvents(stream: bool, inMemory: bool, g: Group, d: GroupDocuments): seq<Event> {
    if stream then
      [AnalysisStep(g.supplier)] + FileEvents(inMemory, d.report)
      + ([PrStep(g.supplier)] + FileEvents(inMemory, d.request))
      + ([EmailStep(g.supplier)] + FileEvents(inMemory, d.email))
    else []
  }

  /** The events of the groups in order, given each group's documents. */
  function GroupsTrace(stream: bool, inMemory: bool, gs: seq<Group>, rs: seq<Document>, ps: seq<Document>,
                       es: seq<Document>): seq<Event>
    requires |rs| == |gs| && |ps| == |gs| && |es| == |gs|
  {
    if gs == [] then []
    else
      var n := |gs| - 1;
      GroupsTrace(stream, inMemory, gs[..n], rs[..n], ps[..n], es[..n])
      + GroupEvents(stream, inMemory, gs[n], GroupDocuments(rs[n], ps[n], es[n]))
  }

  /** One more group adds its own events at the end. */
  lemma GroupsTraceNext(stream: bool, inMemory: bool, gs: seq<Group>, k: nat, rs: seq<Document>, ps: seq<Document>,
                        es: seq<Document>, d: GroupDocuments)
    requires k < |gs| && |rs| == k && |ps| == k && |es| == k
    ensures GroupsTrace(stream, inMemory, gs[..k + 1], rs + [d.report], ps + [d.request], es + [d.email])
      == GroupsTrace(stream, inMemory, gs[..k], rs, ps, es) + GroupEvents(stream, inMemory, gs[k], d)
  {
    assert gs[..k + 1][..k] == gs[..k];
    assert (rs + [d.report])[..k] == rs;
    assert (ps + [d.request])[..k] == ps;
    assert (es + [d.email])[..k] == es;
  }

  /** The events of a run that completes. */
  function RunTrace(stream: bool, inMemory: bool, result: PipelineResult): seq<Event>
    requires |result.reports| == |result.groups| && |result.requests| == |result.groups|
    requires |result.emails| == |result.groups|
  {
    if stream then
      [CsvParsingStep, ItemGroupingStep, ItemGroupingDoneStep(|result.groups|)]
      + GroupsTrace(stream, inMemory, result.groups, result.reports, result.requests, result.emails)
      + [CompleteStep(result)]
    else []
  }

  /** While streaming (so in memory), every group reports nine events: a step
      and the two file events for each of its three documents; none of them
      ends the stream or is a report step. */
  lemma {:induction false} GroupsTraceShape(inMemory: bool, gs: seq<Group>, rs: seq<Document>, ps: seq<Document>,
                                            es: seq<Document>)
    requires |rs| == |gs| && |ps| == |gs| && |es| == |gs|
    ensures AllQuiet(GroupsTrace(true, inMemory, gs, rs, ps, es))
    ensures inMemory ==> |GroupsTrace(true, inMemory, gs, rs, ps, es)| == 9 * |gs|
  {
    if gs != [] {
      var n := |gs| - 1;
      GroupsTraceShape(inMemory, gs[..n], rs[..n], ps[..n], es[..n]);
      var d := GroupDocuments(rs[n], ps[n], es[n]);
      GroupEventsShape(inMemory, gs[n], d);
      QuietConcat(GroupsTrace(true, inMemory, gs[..n], rs[..n], ps[..n], es[..n]), GroupEvents(true, inMemory, gs[n], d));
    }
  }

  /** The nine events of one streamed group. */
  lemma GroupEventsShape(inMemory: bool, g: Group, d: GroupDocuments)
    ensures AllQuiet(GroupEvents(true, inMemory, g, d))
    ensures inMemory ==> |GroupEvents(true, inMemory, g, d)| == 9
  {
    FileEventsQuiet(inMemory, d.report);
    FileEventsQuiet(inMemory, d.request);
    FileEventsQuiet(inMemory, d.email);
    QuietConcat([AnalysisStep(g.supplier)], FileEvents(inMemory, d.report));
    QuietConcat([PrStep(g.supplier)], FileEvents(inMemory, d.request));
    QuietConcat([EmailStep(g.supplier)], FileEvents(inMemory, d.email));
    QuietConcat([AnalysisStep(g.supplier)] + FileEvents(inMemory, d.report), [PrStep(g.supplier)] + FileEvents(inMemory, d.request));
    QuietConcat([AnalysisStep(g.supplier)] + FileEvents(inMemory, d.report) + ([PrStep(g.supplier)] + FileEvents(inMemory, d.request)),
                [EmailStep(g.supplier)] + FileEvents(inMemory, d.email));
  }

  /** A streamed run that completes begins with the parsing and grouping
      steps, reports the group count, and ends with its one `complete` event. */
  lemma RunTraceShape(inMemory: bool, result: PipelineResult)
    requires |result.reports| == |result.groups| && |result.requests| == |result.groups|
    requires |result.emails| == |result.groups|
    ensures var t := RunTrace(true, inMemory, result);
      && t[..3] == [CsvParsingStep, ItemGroupingStep, ItemGroupingDoneStep(|result.groups|)]
      && t[|t| - 1] == CompleteStep(result)
      && (inMemory ==> |t| == 4 + 9 * |result.groups|)
      && forall i :: 0 <= i < |t| - 1 ==> Quiet(t[i])
  {
    GroupsTraceShape(inMemory, result.groups, result.reports, result.requests, result.emails);
  }

  // ------------------------------------------------ traces of any outcome

  /** The events of one pass, from the outcomes of its steps in the order the
      loop body runs them: up to the step of the stage that raised, or all of
      the group's events when none did. (While streaming the run is in
      memory, so no `report` step is among them.) */
  function TraceOf(stream: bool, inMemory: bool, g: Group, analysis: Result<Json, string>,
                   report: Result<Document, PipelineError>, request: Result<Document, PipelineError>,
                   email: Result<Document, PipelineError>): seq<Event>
  {
    if !stream then []
    else [AnalysisStep(g.supplier)] + StagesTrace(inMemory, g, analysis, report, request, email)
  }

  /** The events after the `analysis` step. */
  function StagesTrace(inMemory: bool, g: Group, analysis: Result<Json, string>,
                       report: Result<Document, PipelineError>, request: Result<Document, PipelineError>,
                       email: Result<Document, PipelineError>): seq<Event>
  {
    if analysis.Err? || report.Err? then []
    else if request.Err? then FileEvents(inMemory, report.value) + [PrStep(g.supplier)]
    else if email.Err? then
      FileEvents(inMemory, report.value) + ([PrStep(g.supplier)] + FileEvents(inMemory, request.value))
      + [EmailStep(g.supplier)]
    else
      FileEvents(inMemory, report.value) + ([PrStep(g.supplier)] + FileEvents(inMemory, request.value))
      + ([EmailStep(g.supplier)] + FileEvents(inMemory, email.value))
  }

  /** A pass that completes reports the group's events; one that raises
      reports, in memory, one, four or seven quiet events, the last of them
      the step of the stage that raised. */
  lemma TraceOfShape(stream: bool, inMemory: bool, g: Group, analysis: Result<Json, string>,
                     report: Result<Document, PipelineError>, request: Result<Document, PipelineError>,
                     email: Result<Document, PipelineError>)
    ensures var t := TraceOf(stream, inMemory, g, analysis, report, request, email);
      var c := Combine(analysis, report, request, email);
      && (!stream ==> t == [])
      && (c.Ok? ==> t == GroupEvents(stream, inMemory, g, c.value))
      && (stream ==> AllQuiet(t) && t != [] && t[0] == AnalysisStep(g.supplier))
      && (stream && (analysis.Err? || report.Err?) ==> t == [AnalysisStep(g.supplier)])
      && (stream && inMemory && analysis.Ok? && report.Ok? && request.Err? ==>
            |t| == 4 && t[3] == PrStep(g.supplier))
      && (stream && inMemory && analysis.Ok? && report.Ok? && request.Ok? && email.Err? ==>
            |t| == 7 && t[6] == EmailStep(g.supplier))
  {
    if stream && analysis.Ok? && report.Ok? {
      var s := g.supplier;
      var a, fr := [AnalysisStep(s)], FileEvents(inMemory, report.value);
      FileEventsQuiet(inMemory, report.value);
      QuietConcat(a, fr);
      QuietConcat(a + fr, [PrStep(s)]);
      EventsAssoc(a, fr, [PrStep(s)]);
      if request.Ok? {
        var p := [PrStep(s)] + FileEvents(inMemory, request.value);
        FileEventsQuiet(inMemory, request.value);
        QuietConcat([PrStep(s)], FileEvents(inMemory, request.value));
        QuietConcat(a + fr, p);
        QuietConcat(a + fr + p, [EmailStep(s)]);
        EventsAssoc(a, fr + p, [EmailStep(s)]);
        EventsAssoc(a, fr, p);
        if email.Ok? {
          var e := [EmailStep(s)] + FileEvents(inMemory, email.value);
          GroupEventsShape(inMemory, g, GroupDocuments(report.value, request.value, email.value));
          EventsAssoc(a, fr + p, e);
        }
      }
    }
  }

  /** The events the three stages give, however far they get, are the
      events after the `analysis` step. */
  lemma StagesTraceOf(inMemory: bool, g: Group, output: Json,
                      report: Result<Document, PipelineError>, request: Result<Document, PipelineError>,
                      email: Result<Document, PipelineError>,
                      reportEvents: seq<Event>, requestEvents: seq<Event>, emailEvents: seq<Event>)
    requires reportEvents == (if report.Ok? then FileEvents(inMemory, report.value) else [])
    requires report.Ok? ==>
      requestEvents == [PrStep(g.supplier)] + (if request.Ok? then FileEvents(inMemory, request.value) else [])
    requires report.Ok? && request.Ok? ==>
      emailEvents == [EmailStep(g.supplier)] + (if email.Ok? then FileEvents(inMemory, email.value) else [])
    ensures var t := StagesTrace(inMemory, g, Ok(output), report, request, email);
      && (report.Err? ==> t == reportEvents)
      && (report.Ok? && request.Err? ==> t == reportEvents + requestEvents)
      && (report.Ok? && request.Ok? ==> t == reportEvents + requestEvents + emailEvents)
  {
    if report.Ok? && request.Ok? {
      EventsAssoc(reportEvents, requestEvents, emailEvents);
    }
  }

  /** The events of one pass of the loop body, whatever its outcome. */
  function GroupTrace(respond: Respond, env: PipelineEnv, stream: bool, inMemory: bool, g: Group): seq<Event> {
    var analysis := AnalysisOutcome(respond, env.agents, g);
    var output := if analysis.Ok? then analysis.value else JNull;
    TraceOf(stream, inMemory, g, analysis,
            Published(env, inMemory, Analysis, g, ReportBody(respond, env, g, output)),
            Published(env, inMemory, PurchaseRequest, g, RequestBody(respond, env, g, output)),
            Published(env, inMemory, EmailDraft, g, EmailBody(respond, env, g, output)))
  }

  function GroupTraceOf(respond: Respond, env: PipelineEnv, stream: bool, inMemory: bool): Group -> seq<Event> {
    g => GroupTrace(respond, env, stream, inMemory, g)
  }

  /** A pass that completes reports exactly the group's events; every pass
      reports quiet events only, beginning with its `analysis` step. */
  lemma GroupTraceShape(respond: Respond, env: PipelineEnv, stream: bool, inMemory: bool, g: Group)
    ensures GroupOutcome(respond, env, inMemory, g).Ok? ==>
      GroupTrace(respond, env, stream, inMemory, g) == GroupEvents(stream, inMemory, g, GroupOutcome(respond, env, inMemory, g).value)
    ensures var t := GroupTrace(respond, env, stream, inMemory, g);
      && (!stream ==> t == [])
      && (stream ==> AllQuiet(t) && t != [] && t[0] == AnalysisStep(g.supplier))
  {
    var analysis := AnalysisOutcome(respond, env.agents, g);
    var output := if analysis.Ok? then analysis.value else JNull;
    TraceOfShape(stream, inMemory, g, analysis,
                 Published(env, inMemory, Analysis, g, ReportBody(respond, env, g, output)),
                 Published(env, inMemory, PurchaseRequest, g, RequestBody(respond, env, g, output)),
                 Published(env, inMemory, EmailDraft, g, EmailBody(respond, env, g, output)));
  }

  /** The outcome and the events of a pass, from the outcomes of the steps
      that ran; a step that did not run may be given as anything. */
  lemma PassOutcome(respond: Respond, env: PipelineEnv, stream: bool, inMemory: bool, g: Group,
                    analysis: Result<Json, string>, report: Result<Document, PipelineError>,
                    request: Result<Document, PipelineError>, email: Result<Document, PipelineError>)
    requires analysis == AnalysisOutcome(respond, env.agents, g)
    requires analysis.Ok? ==>
      report == Published(env, inMemory, Analysis, g, ReportBody(respond, env, g, analysis.value))
    requires analysis.Ok? && report.Ok? ==>
      request == Published(env, inMemory, PurchaseRequest, g, RequestBody(respond, env, g, analysis.value))
    requires analysis.Ok? && report.Ok? && request.Ok? ==>
      email == Published(env, inMemory, EmailDraft, g, EmailBody(respond, env, g, analysis.value))
    ensures GroupOutcome(respond, env, inMemory, g) == Combine(analysis, report, request, email)
    ensures GroupTrace(respond, env, stream, inMemory, g) == TraceOf(stream, inMemory, g, analysis, report, request, email)
  {
  }

  /** The events of the loop over `gs`: each pass's events up to and
      including the first pass that raises. */
  function LoopEvents(step: GroupStep, trace: Group -> seq<Event>, gs: seq<Group>): seq<Event> {
    if gs == [] then []
    else
      var n := |gs| - 1;
      if GroupsOutcome(step, gs[..n]).Err? then LoopEvents(step, trace, gs[..n])
      else LoopEvents(step, trace, gs[..n]) + trace(gs[n])
  }

  /** Once a prefix of the loop has raised, later groups add no events. */
  lemma {:induction false} LoopEventsPrefixFails(step: GroupStep, trace: Group -> seq<Event>, gs: seq<Group>, k: nat)
    requires k <= |gs|
    requires GroupsOutcome(step, gs[..k]).Err?
    ensures LoopEvents(step, trace, gs) == LoopEvents(step, trace, gs[..k])
  {
    if k < |gs| {
      var n := |gs| - 1;
      assert gs[..n][..k] == gs[..k];
      GroupsOutcomePrefixFails(step, gs[..n], k);
      LoopEventsPrefixFails(step, trace, gs[..n], k);
    } else {
      assert gs[..k] == gs;
    }
  }

  /** One more pass after a prefix that completed adds that pass's events,
      and a pass that raises adds the last of them. */
  lemma LoopEventsNext(step: GroupStep, trace: Group -> seq<Event>, gs: seq<Group>, k: nat)
    requires k < |gs| && GroupsOutcome(step, gs[..k]).Ok?
    ensures LoopEvents(step, trace, gs[..k + 1]) == LoopEvents(step, trace, gs[..k]) + trace(gs[k])
    ensures step(gs[k]).Err? ==> LoopEvents(step, trace, gs) == LoopEvents(step, trace, gs[..k]) + trace(gs[k])
  {
    assert gs[..k + 1][..k] == gs[..k];
    if step(gs[k]).Err? {
      GroupsOutcomeNext(step, gs, k, GroupsOutcome(step, gs[..k]).value);
      assert GroupsOutcome(step, gs[..k + 1]).Err?;
      LoopEventsPrefixFails(step, trace, gs, k + 1);
    }
  }

  /** When every pass that completes reports its group's events, a loop that
      completes reports the trace of all groups. */
  lemma {:induction false} LoopEventsComplete(stream: bool, inMemory: bool, step: GroupStep,
                                              trace: Group -> seq<Event>, gs: seq<Group>)
    requires forall g :: step(g).Ok? ==> trace(g) == GroupEvents(stream, inMemory, g, step(g).value)
    ensures GroupsOutcome(step, gs).Ok? ==>
      var res := GroupsOutcome(step, gs).value;
      && |res.reports| == |gs| && |res.requests| == |gs| && |res.emails| == |gs|
      && LoopEvents(step, trace, gs) == GroupsTrace(stream, inMemory, gs, res.reports, res.requests, res.emails)
  {
    GroupsOutcomeShape(step, gs);
    if gs != [] && GroupsOutcome(step, gs).Ok? {
      var n := |gs| - 1;
      var res := GroupsOutcome(step, gs).value;
      var prev := GroupsOutcome(step, gs[..n]).value;
      LoopEventsComplete(stream, inMemory, step, trace, gs[..n]);
      GroupsOutcomeShape(step, gs[..n]);
      assert res.reports[..n] == prev.reports;
      assert res.requests[..n] == prev.requests;
      assert res.emails[..n] == prev.emails;
    }
  }

  /** Every pass that completes reports its group's events. */
  lemma TracesMatch(respond: Respond, env: PipelineEnv, stream: bool, inMemory: bool)
    ensures forall g :: GroupStepOf(respond, env, inMemory)(g).Ok? ==>
      GroupTraceOf(respond, env, stream, inMemory)(g)
        == GroupEvents(stream, inMemory, g, GroupStepOf(respond, env, inMemory)(g).value)
  {
    forall g | GroupStepOf(respond, env, inMemory)(g).Ok?
      ensures GroupTraceOf(respond, env, stream, inMemory)(g)
        == GroupEvents(stream, inMemory, g, GroupStepOf(respond, env, inMemory)(g).value)
    {
      GroupTraceShape(respond, env, stream, inMemory, g);
    }
  }

  /** The events of a run that has grouped its rows into `groups`: the
      parsing and grouping steps, the loop's events, and `complete` when the
      loop completes. */
  function GroupedEvents(step: GroupStep, trace: Group -> seq<Event>, groups: seq<Group>): seq<Event> {
    var loop := GroupsOutcome(step, groups);
    [CsvParsingStep, ItemGroupingStep, ItemGroupingDoneStep(|groups|)]
    + LoopEvents(step, trace, groups)
    + (if loop.Ok? then [CompleteStep(loop.value)] else [])
  }

  /** The events of `_run_pipeline`, whatever its outcome: the callback calls
      made before it returns or raises. */
  function RunEvents(respond: Respond, env: PipelineEnv, cal: Calendar, csvContent: string, csvFilename: string,
                     stream: bool, inMemory: bool): seq<Event>
  {
    if !stream then []
    else
      var rows := NormalizeRows(env.readCsv(csvContent), csvFilename);
      if rows == [] then [CsvParsingStep]
      else
        match GroupRows(cal, rows)
        case Err(_) => [CsvParsingStep, ItemGroupingStep]
        case Ok(groups) =>
          if groups == [] then [CsvParsingStep, ItemGroupingStep]
          else GroupedEvents(GroupStepOf(respond, env, inMemory), GroupTraceOf(respond, env, stream, inMemory), groups)
  }

  /** A streamed run refused for want of rows reports only `csv_parsing`; one
      whose grouping raises or yields no group also reports `item_grouping`. */
  lemma RunEventsRefusals(respond: Respond, env: PipelineEnv, cal: Calendar, csvContent: string, csvFilename: string,
                          inMemory: bool)
    ensures var t := RunEvents(respond, env, cal, csvContent, csvFilename, true, inMemory);
      var rows := NormalizeRows(env.readCsv(csvContent), csvFilename);
      && (rows == [] ==> t == [CsvParsingStep])
      && (rows != [] && (GroupRows(cal, rows).Err? || GroupRows(cal, rows) == Ok([])) ==>
            t == [CsvParsingStep, ItemGroupingStep])
  {
  }

  /** A loop that completes gives the whole trace of a completed run. */
  lemma GroupedEventsComplete(inMemory: bool, step: GroupStep, trace: Group -> seq<Event>, groups: seq<Group>)
    requires forall g :: step(g).Ok? ==> trace(g) == GroupEvents(true, inMemory, g, step(g).value)
    ensures GroupsOutcome(step, groups).Ok? ==>
      var res := GroupsOutcome(step, groups).value;
      && |res.reports| == |res.groups| && |res.requests| == |res.groups| && |res.emails| == |res.groups|
      && GroupedEvents(step, trace, groups) == RunTrace(true, inMemory, res)
  {
    LoopEventsComplete(true, inMemory, step, trace, groups);
    GroupsOutcomeShape(step, groups);
  }

  /** A loop whose pass `k` is the first to raise gives the parsing and
      grouping steps, the trace of the groups before `k` and pass `k`'s events. */
  lemma GroupedEventsFailure(inMemory: bool, step: GroupStep, trace: Group -> seq<Event>, groups: seq<Group>, k: nat)
    requires forall g :: step(g).Ok? ==> trace(g) == GroupEvents(true, inMemory, g, step(g).value)
    requires k < |groups| && GroupsOutcome(step, groups[..k]).Ok? && step(groups[k]).Err?
    ensures var prev := GroupsOutcome(step, groups[..k]).value;
      && |prev.reports| == k && |prev.requests| == k && |prev.emails| == k
      && GroupedEvents(step, trace, groups) ==
           [CsvParsingStep, ItemGroupingStep, ItemGroupingDoneStep(|groups|)]
           + GroupsTrace(true, inMemory, groups[..k], prev.reports, prev.requests, prev.emails)
           + trace(groups[k])
  {
    LoopEventsNext(step, trace, groups, k);
    GroupsOutcomeNext(step, groups, k, GroupsOutcome(step, groups[..k]).value);
    LoopEventsComplete(true, inMemory, step, trace, groups[..k]);
  }

  /** A streamed run that completes reports its whole trace. */
  lemma RunEventsComplete(respond: Respond, env: PipelineEnv, cal: Calendar, csvContent: string, csvFilename: string,
                          inMemory: bool)
    ensures var r := RunOutcome(respond, env, cal, csvContent, csvFilename, inMemory);
      r.Ok? ==>
        && |r.value.reports| == |r.value.groups| && |r.value.requests| == |r.value.groups|
        && |r.value.emails| == |r.value.groups|
        && RunEvents(respond, env, cal, csvContent, csvFilename, true, inMemory) == RunTrace(true, inMemory, r.value)
  {
    var r := RunOutcome(respond, env, cal, csvContent, csvFilename, inMemory);
    if r.Ok? {
      var rows := NormalizeRows(env.readCsv(csvContent), csvFilename);
      var groups := GroupRows(cal, rows).value;
      TracesMatch(respond, env, true, inMemory);
      GroupedEventsComplete(inMemory, GroupStepOf(respond, env, inMemory), GroupTraceOf(respond, env, true, inMemory), groups);
    }
  }

  /** A streamed run whose group `k` is the first to raise reports the
      parsing and grouping steps, the trace of the groups before `k`, and
      group `k`'s events up to the stage that raised. */
  lemma RunEventsGroupFailure(respond: Respond, env: PipelineEnv, cal: Calendar, csvContent: string, csvFilename: string,
                              inMemory: bool, groups: seq<Group>, k: nat)
    requires NormalizeRows(env.readCsv(csvContent), csvFilename) != []
    requires GroupRows(cal, NormalizeRows(env.readCsv(csvContent), csvFilename)) == Ok(groups)
    requires k < |groups|
    requires GroupsOutcome(GroupStepOf(respond, env, inMemory), groups[..k]).Ok?
    requires GroupOutcome(respond, env, inMemory, groups[k]).Err?
    ensures var prev := GroupsOutcome(GroupStepOf(respond, env, inMemory), groups[..k]).value;
      && |prev.reports| == k && |prev.requests| == k && |prev.emails| == k
      && RunEvents(respond, env, cal, csvContent, csvFilename, true, inMemory) ==
           [CsvParsingStep, ItemGroupingStep, ItemGroupingDoneStep(|groups|)]
           + GroupsTrace(true, inMemory, groups[..k], prev.reports, prev.requests, prev.emails)
           + GroupTrace(respond, env, true, inMemory, groups[k])
  {
    var step := GroupStepOf(respond, env, inMemory);
    var trace := GroupTraceOf(respond, env, true, inMemory);
    assert step(groups[k]).Err?;
    assert trace(groups[k]) == GroupTrace(respond, env, true, inMemory, groups[k]);
    TracesMatch(respond, env, true, inMemory);
    GroupedEventsFailure(inMemory, step, trace, groups, k);
  }

  // ------------------------------------------------------------- the loop

  /** The report: the (never reported) `report` step, the analysis result,
      the report agent and the document. */
  method ReportStage(b: Backend, env: PipelineEnv, stream: bool, inMemory: bool, g: Group, output: Json)
    returns (r: Result<Document, PipelineError>, evs: seq<Event>)
    requires stream ==> inMemory
    modifies b
    ensures r == Published(env, inMemory, Analysis, g, ReportBody(b.respond, env, g, output))
    ensures evs == (if stream && r.Ok? then FileEvents(inMemory, r.value) else [])
    ensures AllQuiet(evs)
  {
    evs := [];
    if !inMemory && stream {
      // `progress` reaches a callback only in stream mode, which is always in memory
      evs := evs + [ReportStep(g.supplier)];
    }
    var analysisResult := AnalysisResult(g, output);
    if analysisResult.Err? {
      return Err(analysisResult.error), evs;
    }
    var reportMd := RunReportDocAgent(b, env.agents, analysisResult.value);
    if reportMd.Err? {
      return Err(BackendFailed(reportMd.error)), evs;
    }
    var d := DocumentFor(env, inMemory, Analysis, g, reportMd.value);
    if stream {
      FileEventsQuiet(inMemory, d);
      QuietConcat(evs, FileEvents(inMemory, d));
      evs := evs + FileEvents(inMemory, d);
    }
    r := Ok(d);
  }

  /** The purchase request: the `pr` step, the draft and document agents, the document. */
  method RequestStage(b: Backend, env: PipelineEnv, stream: bool, inMemory: bool, g: Group, output: Json)
    returns (r: Result<Document, PipelineError>, evs: seq<Event>)
    modifies b
    ensures r == Published(env, inMemory, PurchaseRequest, g, RequestBody(b.respond, env, g, output))
    ensures evs == (if stream then [PrStep(g.supplier)] + (if r.Ok? then FileEvents(inMemory, r.value) else []) else [])
    ensures AllQuiet(evs)
  {
    evs := if stream then [PrStep(g.supplier)] else [];
    var prMd := RequestText(b, env, g, output);
    if prMd.Err? {
      return Err(prMd.error), evs;
    }
    var d := DocumentFor(env, inMemory, PurchaseRequest, g, prMd.value);
    if stream {
      FileEventsQuiet(inMemory, d);
      QuietConcat(evs, FileEvents(inMemory, d));
      evs := evs + FileEvents(inMemory, d);
    }
    r := Ok(d);
  }

  /** The request text: the draft agent, then the document agent on its draft. */
  method RequestText(b: Backend, env: PipelineEnv, g: Group, output: Json) returns (r: Result<string, PipelineError>)
    modifies b
    ensures r == RequestBody(b.respond, env, g, output)
  {
    var prDraft := RunPrDraftAgent(b, env.agents, g.snapshotDate, g.supplier, RiskLevel(g), output);
    if prDraft.Err? {
      return Err(BackendFailed(prDraft.error));
    }
    var prMd := RunPrDocAgent(b, env.agents, prDraft.value);
    r := Raised(prMd);
  }

  /** The e-mail: the `email` step, the e-mail agent, the document. */
  method EmailStage(b: Backend, env: PipelineEnv, stream: bool, inMemory: bool, g: Group, output: Json)
    returns (r: Result<Document, PipelineError>, evs: seq<Event>)
    modifies b
    ensures r == Published(env, inMemory, EmailDraft, g, EmailBody(b.respond, env, g, output))
    ensures evs == (if stream then [EmailStep(g.supplier)] + (if r.Ok? then FileEvents(inMemory, r.value) else []) else [])
    ensures AllQuiet(evs)
  {
    evs := if stream then [EmailStep(g.supplier)] else [];
    var emailText := RunEmailDraftAgent(b, env.agents, g.snapshotDate, g.supplier, RiskLevel(g), g.items, output);
    if emailText.Err? {
      return Err(BackendFailed(emailText.error)), evs;
    }
    var d := DocumentFor(env, inMemory, EmailDraft, g, emailText.value);
    if stream {
      FileEventsQuiet(inMemory, d);
      QuietConcat(evs, FileEvents(inMemory, d));
      evs := evs + FileEvents(inMemory, d);
    }
    r := Ok(d);
  }

  /** One pass of the loop body: the four agents for one group and its three documents. */
  method RunGroup(b: Backend, env: PipelineEnv, stream: bool, inMemory: bool, g: Group)
    returns (r: Result<GroupDocuments, PipelineError>, evs: seq<Event>)
    requires stream ==> inMemory
    modifies b
    ensures r == GroupOutcome(b.respond, env, inMemory, g)
    ensures evs == GroupTrace(b.respond, env, stream, inMemory, g)
  {
    var skipped: Result<Document, PipelineError> := Err(BackendFailed(""));
    var analysis := RunAnalysisAgent(b, env.agents, g);
    if analysis.Err? {
      PassOutcome(b.respond, env, stream, inMemory, g, analysis, skipped, skipped, skipped);
      return Err(BackendFailed(analysis.error)), if stream then [AnalysisStep(g.supplier)] else [];
    }
    ghost var output := analysis.value;
    ghost var report := Published(env, inMemory, Analysis, g, ReportBody(b.respond, env, g, output));
    ghost var request := Published(env, inMemory, PurchaseRequest, g, RequestBody(b.respond, env, g, output));
    ghost var email := Published(env, inMemory, EmailDraft, g, EmailBody(b.respond, env, g, output));
    var stages;
    r, stages := RunStages(b, env, stream, inMemory, g, analysis.value);
    PassOutcome(b.respond, env, stream, inMemory, g, analysis, report, request, email);
    evs := if stream then [AnalysisStep(g.supplier)] + stages else [];
  }

  /** The report, request and e-mail stages after a successful analysis. */
  method RunStages(b: Backend, env: PipelineEnv, stream: bool, inMemory: bool, g: Group, output: Json)
    returns (r: Result<GroupDocuments, PipelineError>, evs: seq<Event>)
    requires stream ==> inMemory
    modifies b
    ensures var report := Published(env, inMemory, Analysis, g, ReportBody(b.respond, env, g, output));
      var request := Published(env, inMemory, PurchaseRequest, g, RequestBody(b.respond, env, g, output));
      var email := Published(env, inMemory, EmailDraft, g, EmailBody(b.respond, env, g, output));
      && r == Combine(Ok(output), report, request, email)
      && (stream ==> evs == StagesTrace(inMemory, g, Ok(output), report, request, email))
  {
    ghost var skipped: seq<Event> := [];
    ghost var pending := Published(env, inMemory, PurchaseRequest, g, RequestBody(b.respond, env, g, output));
    ghost var unsent := Published(env, inMemory, EmailDraft, g, EmailBody(b.respond, env, g, output));
    var report, reportEvents := ReportStage(b, env, stream, inMemory, g, output);
    evs := reportEvents;
    if report.Err? {
      if stream {
        StagesTraceOf(inMemory, g, output, report, pending, unsent, reportEvents, skipped, skipped);
      }
      return Err(report.error), evs;
    }
    var request, requestEvents := RequestStage(b, env, stream, inMemory, g, output);
    evs := evs + requestEvents;
    if request.Err? {
      if stream {
        StagesTraceOf(inMemory, g, output, report, request, unsent, reportEvents, requestEvents, skipped);
      }
      return Err(request.error), evs;
    }
    var email, emailEvents := EmailStage(b, env, stream, inMemory, g, output);
    if stream {
      StagesTraceOf(inMemory, g, output, report, request, email, reportEvents, requestEvents, emailEvents);
    }
    evs := evs + emailEvents;
    if email.Err? {
      return Err(email.error), evs;
    }
    r := Ok(GroupDocuments(report.value, request.value, email.value));
  }

  /** `_run_pipeline`: parse the rows, group them, run the loop body for every
      group and collect the three document lists. `stream` says whether a
      progress callback was given, `embedFiles` whether in-memory documents
      were asked for; `events` are the calls of the callback, in order. */
  method RunPipeline(b: Backend, env: PipelineEnv, cal: Calendar, csvContent: string, csvFilename: string,
                     stream: bool, embedFiles: bool)
    returns (r: Result<PipelineResult, PipelineError>, events: seq<Event>)
    modifies b
    ensures r == RunOutcome(b.respond, env, cal, csvContent, csvFilename, stream || embedFiles)
    ensures events == RunEvents(b.respond, env, cal, csvContent, csvFilename, stream, stream || embedFiles)
    ensures r.Ok? ==>
      && |r.value.reports| == |r.value.groups| && |r.value.requests| == |r.value.groups|
      && |r.value.emails| == |r.value.groups|
      && events == RunTrace(stream, stream || embedFiles, r.value)
    ensures r.Err? ==> AllQuiet(events)
    ensures !stream ==> events == []
  {
    var inMemory := stream || embedFiles;
    events := if stream then [CsvParsingStep] else [];
    var rows := ParseCsvRows(env.readCsv(csvContent), csvFilename);
    if rows == [] {
      return Err(HttpError(400, NoRowsDetail)), events;
    }
    if stream {
      events := events + [ItemGroupingStep];
    }
    var grouped := GroupBySupplier(cal, rows);
    if grouped.Err? {
      return Err(GroupingFailed(grouped.error)), events;
    }
    var groups := grouped.value;
    if groups == [] {
      return Err(HttpError(400, NoGroupsDetail)), events;
    }
    var result, groupEvents := RunGrouped(b, env, stream, inMemory, groups);
    events := (if stream then [CsvParsingStep, ItemGroupingStep, ItemGroupingDoneStep(|groups|)] else []) + groupEvents;
    RunEventsComplete(b.respond, env, cal, csvContent, csvFilename, inMemory);
    r := result;
  }

  /** The loop and, when it completes, the `complete` event. */
  method RunGrouped(b: Backend, env: PipelineEnv, stream: bool, inMemory: bool, groups: seq<Group>)
    returns (r: Result<PipelineResult, PipelineError>, events: seq<Event>)
    requires stream ==> inMemory
    modifies b
    ensures r == GroupsOutcome(GroupStepOf(b.respond, env, inMemory), groups)
    ensures stream ==>
      [CsvParsingStep, ItemGroupingStep, ItemGroupingDoneStep(|groups|)] + events
        == GroupedEvents(GroupStepOf(b.respond, env, inMemory), GroupTraceOf(b.respond, env, stream, inMemory), groups)
    ensures r.Err? ==> AllQuiet(events)
    ensures !stream ==> events == []
  {
    r, events := RunGroups(b, env, stream, inMemory, groups);
    if stream {
      EventsAssoc([CsvParsingStep, ItemGroupingStep, ItemGroupingDoneStep(|groups|)], events,
                  if r.Ok? then [CompleteStep(r.value)] else []);
      events := events + (if r.Ok? then [CompleteStep(r.value)] else []);
    }
  }

  /** The loop over the groups, stopping at the first exception. */
  method RunGroups(b: Backend, env: PipelineEnv, stream: bool, inMemory: bool, groups: seq<Group>)
    returns (r: Result<PipelineResult, PipelineError>, events: seq<Event>)
    requires stream ==> inMemory
    modifies b
    ensures r == GroupsOutcome(GroupStepOf(b.respond, env, inMemory), groups)
    ensures events == LoopEvents(GroupStepOf(b.respond, env, inMemory), GroupTraceOf(b.respond, env, stream, inMemory), groups)
    ensures r.Ok? ==>
      && r.value.groups == groups
      && |r.value.reports| == |groups| && |r.value.requests| == |groups| && |r.value.emails| == |groups|
      && events == GroupsTrace(stream, inMemory, groups, r.value.reports, r.value.requests, r.value.emails)
    ensures AllQuiet(events)
    ensures !stream ==> events == []
  {
    ghost var step := GroupStepOf(b.respond, env, inMemory);
    ghost var trace := GroupTraceOf(b.respond, env, stream, inMemory);
    var reports: seq<Document> := [];
    var requests: seq<Document> := [];
    var emails: seq<Document> := [];
    events := [];
    for k := 0 to |groups|
      invariant |reports| == k && |requests| == k && |emails| == k
      invariant GroupsOutcome(step, groups[..k]) == Ok(PipelineResult(groups[..k], reports, requests, emails))
      invariant events == GroupsTrace(stream, inMemory, groups[..k], reports, requests, emails)
      invariant events == LoopEvents(step, trace, groups[..k])
      invariant AllQuiet(events)
      invariant !stream ==> events == []
    {
      var d, evs := RunGroup(b, env, stream, inMemory, groups[k]);
      GroupTraceShape(b.respond, env, stream, inMemory, groups[k]);
      GroupsOutcomeNext(step, groups, k, PipelineResult(groups[..k], reports, requests, emails));
      LoopEventsNext(step, trace, groups, k);
      QuietConcat(events, evs);
      if d.Err? {
        return Err(d.error), events + evs;
      }
      GroupsTraceNext(stream, inMemory, groups, k, reports, requests, emails, d.value);
      events := events + evs;
      reports := reports + [d.value.report];
      requests := requests + [d.value.request];
      emails := emails + [d.value.email];
    }
    assert groups[..|groups|] == groups;
    r := Ok(PipelineResult(groups, reports, requests, emails));
  }

  // ------------------------------------------------------------ the relay

  /** A `complete` or an `error` event ends the stream. */
  predicate Terminal(e: Event) {
    e.CompleteStep? || e.ErrorStep?
  }

  /** What the relay forwards of the queue: every event up to and including
      the first terminal one, or all of them when there is none. */
  function Relayed(queue: seq<Event>): seq<Event> {
    if queue == [] then []
    else if Terminal(queue[0]) then [queue[0]]
    else [queue[0]] + Relayed(queue[1..])
  }

  /** The relay forwards a prefix of the queue that stops at the first
      terminal event: before it no event is terminal, and it ends with a
      terminal event exactly when the queue holds one. */
  lemma {:induction false} RelayedShape(queue: seq<Event>)
    ensures var out := Relayed(queue);
      && |out| <= |queue| && out == queue[..|out|]
      && (forall i :: 0 <= i < |out| - 1 ==> !Terminal(out[i]))
      && ((exists i :: 0 <= i < |queue| && Terminal(queue[i])) <==> (out != [] && Terminal(out[|out| - 1])))
  {
    if queue != [] && !Terminal(queue[0]) {
      RelayedShape(queue[1..]);
      var rest := Relayed(queue[1..]);
      if exists i :: 0 <= i < |queue| && Terminal(queue[i]) {
        var i :| 0 <= i < |queue| && Terminal(queue[i]);
        assert queue[1..][i - 1] == queue[i];
      }
      if rest != [] && Terminal(rest[|rest| - 1]) {
        assert queue[1..][|rest| - 1] == rest[|rest| - 1];
      }
    }
  }

  /** A queue whose only terminal event is its last is forwarded whole. */
  lemma {:induction false} RelayedWhole(queue: seq<Event>)
    requires queue != [] && Terminal(queue[|queue| - 1])
    requires forall i :: 0 <= i < |queue| - 1 ==> !Terminal(queue[i])
    ensures Relayed(queue) == queue
  {
    if |queue| > 1 {
      var rest := queue[1..];
      assert forall i :: 0 <= i < |rest| - 1 ==> rest[i] == queue[i + 1];
      RelayedWhole(rest);
    }
  }

  /** The server-sent event of one queued event, given `json.dumps` of its fields. */
  function Frame(eventJson: Event -> string, e: Event): string {
    "data: " + eventJson(e) + "\n\n"
  }

  function Frames(eventJson: Event -> string, es: seq<Event>): seq<string> {
    seq(|es|, i requires 0 <= i < |es| => Frame(eventJson, es[i]))
  }

  /** Forwarding the event at `i`: after a terminal event the relay is done,
      after any other the rest of the relay starts at `i + 1`. */
  lemma RelayedFrom(queue: seq<Event>, i: nat)
    requires i < |queue| && Relayed(queue) == queue[..i] + Relayed(queue[i..])
    ensures Terminal(queue[i]) ==> Relayed(queue) == queue[..i + 1]
    ensures !Terminal(queue[i]) ==> Relayed(queue) == queue[..i + 1] + Relayed(queue[i + 1..])
  {
    var rest := queue[i..];
    assert rest[0] == queue[i] && rest[1..] == queue[i + 1..];
    assert queue[..i + 1] == queue[..i] + [queue[i]];
    if !Terminal(queue[i]) {
      EventsAssoc(queue[..i], [queue[i]], Relayed(queue[i + 1..]));
    }
  }

  lemma EventsAssoc(a: seq<Event>, b: seq<Event>, c: seq<Event>)
    ensures a + (b + c) == (a + b) + c
  {
  }

  lemma FramesSnoc(eventJson: Event -> string, es: seq<Event>, e: Event)
    ensures Frames(eventJson, es + [e]) == Frames(eventJson, es) + [Frame(eventJson, e)]
  {
  }

  /** The loop of `_stream_pipeline_events` over a queue the run has filled:
      forward each event, and stop after a `complete` or an `error` event or
      once the queue is empty. */
  method Relay(queue: seq<Event>, eventJson: Event -> string) returns (frames: seq<string>)
    ensures frames == Frames(eventJson, Relayed(queue))
  {
    frames := [];
    var i := 0;
    while i < |queue|
      invariant i <= |queue|
      invariant Relayed(queue) == queue[..i] + Relayed(queue[i..])
      invariant frames == Frames(eventJson, queue[..i])
    {
      var msg := queue[i];
      RelayedFrom(queue, i);
      assert queue[..i + 1] == queue[..i] + [msg];
      FramesSnoc(eventJson, queue[..i], msg);
      frames := frames + [Frame(eventJson, msg)];
      if msg.CompleteStep? {
        return;
      }
      if msg.ErrorStep? {
        return;
      }
      i := i + 1;
    }
    assert queue[..i] == queue;
  }

  /** `_stream_pipeline_events`: a streamed run whose events, followed by its
      exception as an `error` event when it raises, fill the queue the relay
      forwards. */
  method StreamEvents(b: Backend, env: PipelineEnv, cal: Calendar, csvContent: string, csvFilename: string,
                      eventJson: Event -> string)
    returns (queue: seq<Event>, frames: seq<string>)
    modifies b
    ensures frames == Frames(eventJson, queue)
    ensures queue != [] && Terminal(queue[|queue| - 1])
    ensures forall i :: 0 <= i < |queue| - 1 ==> !Terminal(queue[i])
    ensures var o := RunOutcome(b.respond, env, cal, csvContent, csvFilename, true);
      && queue == RunEvents(b.respond, env, cal, csvContent, csvFilename, true, true)
                  + (if o.Err? then [ErrorStep(ErrorText(o.error))] else [])
      && (o.Ok? ==> |o.value.reports| == |o.value.groups| && |o.value.requests| == |o.value.groups|
                    && |o.value.emails| == |o.value.groups| && queue == RunTrace(true, true, o.value))
      && (o.Ok? ==> queue[|queue| - 1] == CompleteStep(o.value))
      && (o.Err? ==> queue[|queue| - 1] == ErrorStep(ErrorText(o.error)))
  {
    var r, events := RunPipeline(b, env, cal, csvContent, csvFilename, true, false);
    queue := events;
    if r.Err? {
      queue := queue + [ErrorStep(ErrorText(r.error))];
    } else {
      RunTraceShape(true, r.value);
    }
    RelayedWhole(queue);
    frames := Relay(queue, eventJson);
  }
}
