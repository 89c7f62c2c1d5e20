/**
 * Document ingestion: the two header scans that give a supplier history its
 * supplier name and an item history its item code, and the bookkeeping of
 * the upload endpoints, which process every uploaded PDF (or every PDF of an
 * uploaded ZIP archive) on its own and report one result per file.
 *
 * PDF text extraction and ZIP extraction are functions of an `IngestEnv`;
 * the vector store is a `Store` object.
 */
module Ingest {
  import opened Wrappers
  import opened Text
  import opened VectorStore

  // ---------------------------------------------------------- header scans

  /** The end of the run of whitespace that starts at `i`. */
  function SkipSpace(s: string, i: nat): (j: nat)
    requires i <= |s|
    ensures i <= j <= |s| && (j == |s| || !IsSpace(s[j]))
    decreases |s| - i
  {
    if i < |s| && IsSpace(s[i]) then SkipSpace(s, i + 1) else i
  }

  /** Everything SkipSpace passes over is whitespace. */
  lemma {:induction false} SkipSpaceShape(s: string, i: nat)
    requires i <= |s|
    ensures forall k :: i <= k < SkipSpace(s, i) ==> IsSpace(s[k])
    decreases |s| - i
  {
    if i < |s| && IsSpace(s[i]) {
      SkipSpaceShape(s, i + 1);
    }
  }

  /** The first position at or after `j` where `(?:\r?\n|$)` matches. */
  function LineEnd(s: string, j: nat): (k: nat)
    requires j <= |s|
    ensures j <= k <= |s|
    decreases |s| - j
  {
    if j == |s| || s[j] == '\n' || (s[j] == '\r' && j + 1 < |s| && s[j + 1] == '\n') then j
    else LineEnd(s, j + 1)
  }

  /** A line break cannot occur before the line end, and the line end is a
      line break (alone or after a carriage return) or the end of the text. */
  lemma {:induction false} LineEndShape(s: string, j: nat)
    requires j <= |s|
    ensures '\n' !in s[j..LineEnd(s, j)]
    ensures var k := LineEnd(s, j);
      k == |s| || s[k] == '\n' || (s[k] == '\r' && k + 1 < |s| && s[k + 1] == '\n')
    decreases |s| - j
  {
    if !(j == |s| || s[j] == '\n' || (s[j] == '\r' && j + 1 < |s| && s[j + 1] == '\n')) {
      LineEndShape(s, j + 1);
      assert s[j..LineEnd(s, j)] == [s[j]] + s[j + 1..LineEnd(s, j)];
    }
  }

  /** `re.search`: the leftmost position in `i..n` where `at` matches, and
      what it captures there. Both header scans are this search. */
  function FirstMatch(at: nat -> Option<string>, n: nat, i: nat): Option<string>
    decreases n - i
  {
    if i >= n then None
    else if at(i).Some? then at(i)
    else FirstMatch(at, n, i + 1)
  }

  lemma {:induction false} FirstMatchSpec(at: nat -> Option<string>, n: nat, i: nat)
    ensures FirstMatch(at, n, i).Some? <==> exists p: nat :: i <= p < n && at(p).Some?
    ensures FirstMatch(at, n, i).Some? ==>
      exists p: nat :: i <= p < n && at(p) == FirstMatch(at, n, i)
        && forall q: nat :: i <= q < p ==> at(q).None?
    decreases n - i
  {
    if i < n && at(i).None? {
      FirstMatchSpec(at, n, i + 1);
      assert forall p: nat :: i <= p < n && at(p).Some? ==> i + 1 <= p;
    }
  }

  /** What `Supplier\s*:\s*(.+?)(?:\r?\n|$)` (ignoring case, `.` matching any
      character) captures when tried at `p`. After the colon the whitespace
      is taken greedily and the group is the rest of the line; when only
      whitespace follows to the end of the text the engine gives back its
      last character to the group; with nothing at all after the colon there
      is no match. */
  function SupplierGroupAt(text: string, p: nat): Option<string> {
    if !AtIgnoreCase(text, p, "supplier") then None
    else
      var c := SkipSpace(text, p + 8);
      if c == |text| || text[c] != ':' then None
      else
        var e := SkipSpace(text, c + 1);
        if e < |text| then Some(text[e..LineEnd(text, e + 1)])
        else if e > c + 1 then Some(text[e - 1..e])
        else None
  }

  /** The name returned for a header matched at `p`: `group.split("\n")[0].strip()`. */
  function SupplierAt(text: string, p: nat): Option<string> {
    match SupplierGroupAt(text, p)
    case None => None
    case Some(group) => Some(Strip(Split(group, '\n')[0]))
  }

  const MissingSupplierHeader := "Missing 'Supplier: ...' header in supplier history document."

  /** `_extract_supplier_name`; `Err` with the `ValueError` message. */
  function ExtractSupplierName(text: string): Result<string, string> {
    match FirstMatch((p: nat) => SupplierAt(text, p), |text|, 0)
    case None => Err(MissingSupplierHeader)
    case Some(name) => Ok(name)
  }

  /** The name comes from the leftmost header, and extraction fails, with the
      header message, exactly when the text has no header at all. */
  lemma SupplierNameLeftmost(text: string)
    ensures ExtractSupplierName(text).Err? <==> forall p: nat :: p < |text| ==> SupplierAt(text, p).None?
    ensures ExtractSupplierName(text).Err? ==> ExtractSupplierName(text).error == MissingSupplierHeader
    ensures ExtractSupplierName(text).Ok? ==>
      exists p: nat :: p < |text| && SupplierAt(text, p) == Some(ExtractSupplierName(text).value)
        && forall q: nat :: q < p ==> SupplierAt(text, q).None?
  {
    var at := (p: nat) => SupplierAt(text, p);
    FirstMatchSpec(at, |text|, 0);
    forall p: nat ensures at(p) == SupplierAt(text, p) {
    }
  }

  /** A matched header: the colon at `c`, the captured group after the
      whitespace that ends at `e`. */
  lemma SupplierGroupShape(text: string, p: nat)
    requires SupplierGroupAt(text, p).Some?
    ensures var group := SupplierGroupAt(text, p).value;
      && p + 8 <= |text|
      && var c := SkipSpace(text, p + 8);
         var e := SkipSpace(text, c + 1);
         && c < |text| && text[c] == ':'
         && (e < |text| ==> group == text[e..LineEnd(text, e + 1)] && '\n' !in group && !IsSpace(group[0]))
         && (e == |text| ==> |group| == 1 && IsSpace(group[0]))
  {
    var c := SkipSpace(text, p + 8);
    var e := SkipSpace(text, c + 1);
    assert c < |text| && text[c] == ':';
    if e < |text| {
      assert SupplierGroupAt(text, p) == Some(text[e..LineEnd(text, e + 1)]);
      LineGroupShape(text, e);
    } else {
      assert SupplierGroupAt(text, p) == Some(text[e - 1..e]);
      SkipSpaceShape(text, c + 1);
      assert IsSpace(text[e - 1]);
    }
  }

  /** The rest of a line from a non-space character on: no line break, and
      not starting with whitespace. */
  lemma LineGroupShape(text: string, e: nat)
    requires e < |text| && !IsSpace(text[e])
    ensures var g := text[e..LineEnd(text, e + 1)]; g != [] && '\n' !in g && !IsSpace(g[0])
  {
    LineEndShape(text, e + 1);
    var g := text[e..LineEnd(text, e + 1)];
    assert g == [text[e]] + text[e + 1..LineEnd(text, e + 1)];
  }

  /** Splitting a string without the separator gives the string alone. */
  lemma SplitAbsent(s: string, sep: char)
    requires sep !in s
    ensures Split(s, sep) == [s]
  {
  }

  /** Stripping keeps a part of the string. */
  lemma StripWithin(s: string, c: char)
    requires c !in s
    ensures c !in Strip(s)
  {
    LStripShape(s);
    RStripShape(LStrip(s));
  }

  /** A returned name holds no line break and has no surrounding whitespace;
      it is the stripped rest of the header line, or "" when only whitespace
      follows the colon up to the end of the text. */
  lemma SupplierAtShape(text: string, p: nat)
    requires SupplierAt(text, p).Some?
    ensures var name := SupplierAt(text, p).value;
      && '\n' !in name && Trimmed(name)
      && p + 8 <= |text|
      && var c := SkipSpace(text, p + 8);
         var e := SkipSpace(text, c + 1);
         && c < |text| && text[c] == ':'
         && name == (if e < |text| then Strip(text[e..LineEnd(text, e + 1)]) else "")
  {
    var group := SupplierGroupAt(text, p).value;
    SupplierGroupShape(text, p);
    var c := SkipSpace(text, p + 8);
    var e := SkipSpace(text, c + 1);
    if e < |text| {
      SplitAbsent(group, '\n');
      StripWithin(group, '\n');
      StripShape(group);
    } else if group[0] == '\n' {
      assert Split(group, '\n')[0] == [];
    } else {
      SplitAbsent(group, '\n');
      assert LStrip(group) == LStrip(group[1..]);
    }
  }

  /** `(\d+)`: the end of the run of digits that starts at `i`. */
  function DigitRunEnd(s: string, i: nat): (j: nat)
    requires i <= |s|
    ensures i <= j <= |s| && (j == |s| || !IsDigit(s[j]))
    decreases |s| - i
  {
    if i < |s| && IsDigit(s[i]) then DigitRunEnd(s, i + 1) else i
  }

  /** Everything DigitRunEnd passes over is a digit. */
  lemma {:induction false} DigitRunShape(s: string, i: nat)
    requires i <= |s|
    ensures AllDigits(s[i..DigitRunEnd(s, i)])
    decreases |s| - i
  {
    if i < |s| && IsDigit(s[i]) {
      DigitRunShape(s, i + 1);
      assert s[i..DigitRunEnd(s, i)] == [s[i]] + s[i + 1..DigitRunEnd(s, i)];
    }
  }

  /** What `ItemCode\s*[:\-]?\s*(\d+)` (ignoring case) captures when tried at
      `p`. Backtracking cannot help here: giving back whitespace or the
      optional separator leaves a non-digit where the digits must start. */
  function ItemCodeAt(text: string, p: nat): Option<string> {
    if !AtIgnoreCase(text, p, "itemcode") then None
    else
      var a := SkipSpace(text, p + 8);
      var b := if a < |text| && (text[a] == ':' || text[a] == '-') then a + 1 else a;
      var d := SkipSpace(text, b);
      if d < |text| && IsDigit(text[d]) then Some(text[d..DigitRunEnd(text, d)]) else None
  }

  /** `_extract_item_code` */
  function ExtractItemCode(text: string): Option<string> {
    FirstMatch((p: nat) => ItemCodeAt(text, p), |text|, 0)
  }

  /** The item code is the capture of the leftmost "ItemCode" label that has
      one; there is none exactly when no label has digits. */
  lemma ItemCodeLeftmost(text: string)
    ensures ExtractItemCode(text).None? <==> forall p: nat :: p < |text| ==> ItemCodeAt(text, p).None?
    ensures ExtractItemCode(text).Some? ==>
      exists p: nat :: p < |text| && ItemCodeAt(text, p) == ExtractItemCode(text)
        && forall q: nat :: q < p ==> ItemCodeAt(text, q).None?
  {
    var at := (p: nat) => ItemCodeAt(text, p);
    FirstMatchSpec(at, |text|, 0);
    forall p: nat ensures at(p) == ItemCodeAt(text, p) {
    }
  }

  /** A captured code is a non-empty run of digits of the text that is not
      followed by another digit. */
  lemma ItemCodeAtShape(text: string, p: nat)
    requires ItemCodeAt(text, p).Some?
    ensures var code := ItemCodeAt(text, p).value;
      && code != [] && AllDigits(code)
      && exists d :: At(text, d, code) && (d + |code| == |text| || !IsDigit(text[d + |code|]))
  {
    var a := SkipSpace(text, p + 8);
    var b := if a < |text| && (text[a] == ':' || text[a] == '-') then a + 1 else a;
    var d := SkipSpace(text, b);
    DigitRunShape(text, d);
    assert At(text, d, text[d..DigitRunEnd(text, d)]);
  }

  // ------------------------------------------------------------- uploads

  type Bytes = seq<bv8>

  /** `extractText` is `extract_text_from_pdf` on the saved upload (`Err`
      with the exception text where it raises); `unzip` lists the PDFs of an
      archive as (content, file name) pairs. */
  datatype IngestEnv = IngestEnv(
    extractText: Bytes -> Result<string, string>,
    unzip: Bytes -> seq<(Bytes, string)>)

  /** An uploaded file; a missing file name is "". */
  datatype Upload = Upload(filename: string, content: Bytes)

  /** One entry of `results`: `ok` true with the collection's metadata, or
      `ok` false with the error text. */
  datatype FileResult = Ingested(filename: string, metadata: Metadata) | Rejected(filename: string, error: string)

  datatype HttpError = HttpError(status: nat, detail: string)

  /** The endpoint's response: `store` is present for the example collections. */
  datatype IngestResponse = IngestResponse(store: Option<string>, processed: nat, results: seq<FileResult>)

  const NoFiles := "At least one PDF file required."
  const PdfRequired := "PDF file required."
  const ZipRequired := "ZIP file required."
  const NoPdfInZip := "No PDF files found inside the ZIP."

  function StoreLabel(c: Collection): Option<string> {
    match c
    case SupplierHistory => None
    case ItemHistory => None
    case AnalysisExamples => Some("analysis_examples")
    case RequestExamples => Some("request_examples")
    case EmailExamples => Some("email_examples")
  }

  /** `file.filename.lower().endswith(suffix)` for a present file name. */
  predicate HasSuffix(name: string, suffix: string) {
    name != "" && EndsWith(Lower(name), suffix)
  }

  /** The metadata a collection takes from the document text. */
  function MetadataFor(c: Collection, text: string): Result<Metadata, string> {
    match c
    case SupplierHistory =>
      (match ExtractSupplierName(text)
       case Ok(name) => Ok(SupplierName(name))
       case Err(m) => Err(m))
    case ItemHistory => Ok(ItemCode(ExtractItemCode(text)))
    case _ => Ok(NoMetadata)
  }

  /** The `try` block for one PDF: extract its text, take the metadata, ingest. */
  function PdfResult(env: IngestEnv, outcome: Ingestion -> Option<string>, c: Collection, name: string,
                     content: Bytes): FileResult
  {
    match env.extractText(content)
    case Err(m) => Rejected(name, m)
    case Ok(text) =>
      match MetadataFor(c, text)
      case Err(m) => Rejected(name, m)
      case Ok(meta) =>
        match outcome(Ingestion(c, text, meta))
        case Some(m) => Rejected(name, m)
        case None => Ingested(name, meta)
  }

  /** The document a PDF hands to the store, if it gets that far. */
  function PdfIngestion(env: IngestEnv, c: Collection, content: Bytes): Option<Ingestion> {
    match env.extractText(content)
    case Err(_) => None
    case Ok(text) =>
      match MetadataFor(c, text)
      case Err(_) => None
      case Ok(meta) => Some(Ingestion(c, text, meta))
  }

  /** What processing one PDF adds to the store's log: its document, or nothing. */
  function PdfIngestions(env: IngestEnv, c: Collection, content: Bytes): seq<Ingestion> {
    match PdfIngestion(env, c, content)
    case Some(d) => [d]
    case None => []
  }

  /** The result for one uploaded file: a file that is not a PDF is refused
      without being read. */
  function UploadResult(env: IngestEnv, outcome: Ingestion -> Option<string>, c: Collection, f: Upload): FileResult {
    if !HasSuffix(f.filename, ".pdf") then Rejected(if f.filename == "" then "(unknown)" else f.filename, PdfRequired)
    else PdfResult(env, outcome, c, f.filename, f.content)
  }

  function UploadIngestion(env: IngestEnv, c: Collection, f: Upload): seq<Ingestion> {
    if HasSuffix(f.filename, ".pdf") then PdfIngestions(env, c, f.content) else []
  }

  /** `[f(x) for x in xs]` */
  function Each<A, B>(f: A -> B, xs: seq<A>): (ys: seq<B>)
    ensures |ys| == |xs|
  {
    if xs == [] then [] else Each(f, xs[..|xs| - 1]) + [f(xs[|xs| - 1])]
  }

  /** Element `i` of the mapped list is `f` of element `i`. */
  lemma {:induction false} EachAt<A, B>(f: A -> B, xs: seq<A>)
    ensures forall i :: 0 <= i < |xs| ==> Each(f, xs)[i] == f(xs[i])
  {
    if xs != [] {
      EachAt(f, xs[..|xs| - 1]);
    }
  }

  /** The concatenation of `f(x)` over `xs`, in order. */
  function Gather<A, B>(f: A -> seq<B>, xs: seq<A>): seq<B> {
    if xs == [] then [] else Gather(f, xs[..|xs| - 1]) + f(xs[|xs| - 1])
  }

  /** Extending the list by one element extends both by that element's share. */
  lemma EachGatherNext<A, B, C>(f: A -> B, g: A -> seq<C>, xs: seq<A>, k: nat)
    requires k < |xs|
    ensures Each(f, xs[..k + 1]) == Each(f, xs[..k]) + [f(xs[k])]
    ensures Gather(g, xs[..k + 1]) == Gather(g, xs[..k]) + g(xs[k])
  {
    assert xs[..k + 1][..k] == xs[..k];
  }

  /** What each uploaded file adds to the store's log, in order. */
  function UploadIngestions(env: IngestEnv, c: Collection, files: seq<Upload>): seq<Ingestion> {
    Gather((f: Upload) => UploadIngestion(env, c, f), files)
  }

  /** The results for the uploaded files, in order. */
  function UploadResults(env: IngestEnv, outcome: Ingestion -> Option<string>, c: Collection, files: seq<Upload>)
    : seq<FileResult>
  {
    Each((f: Upload) => UploadResult(env, outcome, c, f), files)
  }

  /** One file more: its result and its share of the log come last. */
  lemma UploadsNext(env: IngestEnv, outcome: Ingestion -> Option<string>, c: Collection, files: seq<Upload>, k: nat)
    requires k < |files|
    ensures UploadResults(env, outcome, c, files[..k + 1])
      == UploadResults(env, outcome, c, files[..k]) + [UploadResult(env, outcome, c, files[k])]
    ensures UploadIngestions(env, c, files[..k + 1]) == UploadIngestions(env, c, files[..k]) + UploadIngestion(env, c, files[k])
  {
    EachGatherNext((f: Upload) => UploadResult(env, outcome, c, f), (f: Upload) => UploadIngestion(env, c, f), files, k);
  }

  /** What each PDF of an archive adds to the store's log, in order. */
  function ZipIngestions(env: IngestEnv, c: Collection, pdfs: seq<(Bytes, string)>): seq<Ingestion> {
    Gather((pdf: (Bytes, string)) => PdfIngestions(env, c, pdf.0), pdfs)
  }

  /** A refused file hands nothing to the store; an ingested one hands over
      exactly the document it reports. */
  lemma UploadResultIngestion(env: IngestEnv, outcome: Ingestion -> Option<string>, c: Collection, f: Upload)
    ensures !HasSuffix(f.filename, ".pdf") ==>
      && UploadResult(env, outcome, c, f) == Rejected(if f.filename == "" then "(unknown)" else f.filename, PdfRequired)
      && UploadIngestion(env, c, f) == []
    ensures UploadResult(env, outcome, c, f).Ingested? ==>
      && HasSuffix(f.filename, ".pdf")
      && UploadResult(env, outcome, c, f).filename == f.filename
      && PdfIngestion(env, c, f.content).Some?
      && UploadIngestion(env, c, f) == [PdfIngestion(env, c, f.content).value]
      && PdfIngestion(env, c, f.content).value.metadata == UploadResult(env, outcome, c, f).metadata
      && outcome(PdfIngestion(env, c, f.content).value).None?
  {
  }

  /** A supplier-history PDF without a header is refused with the header message. */
  lemma MissingHeaderRefused(env: IngestEnv, outcome: Ingestion -> Option<string>, name: string, content: Bytes)
    requires env.extractText(content).Ok?
    requires var text := env.extractText(content).value;
      forall p: nat :: p < |text| ==> SupplierAt(text, p).None?
    ensures PdfResult(env, outcome, SupplierHistory, name, content) == Rejected(name, MissingSupplierHeader)
    ensures PdfIngestions(env, SupplierHistory, content) == []
  {
    SupplierNameLeftmost(env.extractText(content).value);
  }

  /** One PDF, as the endpoints process it. */
  method ProcessPdf(store: Store, env: IngestEnv, c: Collection, name: string, content: Bytes)
    returns (result: FileResult)
    modifies store
    ensures result == PdfResult(env, store.outcome, c, name, content)
    ensures store.ingested == old(store.ingested) + PdfIngestions(env, c, content)
  {
    var text := env.extractText(content);
    if text.Err? {
      return Rejected(name, text.error);
    }
    var meta := MetadataFor(c, text.value);
    if meta.Err? {
      return Rejected(name, meta.error);
    }
    var error := store.Ingest(Ingestion(c, text.value, meta.value));
    if error.Some? {
      return Rejected(name, error.value);
    }
    result := Ingested(name, meta.value);
  }

  /** One uploaded file: refused by name, or processed as a PDF. */
  method ProcessUpload(store: Store, env: IngestEnv, c: Collection, f: Upload) returns (result: FileResult)
    modifies store
    ensures result == UploadResult(env, store.outcome, c, f)
    ensures store.ingested == old(store.ingested) + UploadIngestion(env, c, f)
  {
    if !HasSuffix(f.filename, ".pdf") {
      return Rejected(if f.filename == "" then "(unknown)" else f.filename, PdfRequired);
    }
    result := ProcessPdf(store, env, c, f.filename, f.content);
  }

  /** The `files` endpoints: one result per file, in order, a failed file not
      stopping the others. */
  method IngestUploads(store: Store, env: IngestEnv, c: Collection, files: seq<Upload>)
    returns (r: Result<IngestResponse, HttpError>)
    modifies store
    ensures files == [] ==> r == Err(HttpError(400, NoFiles)) && store.ingested == old(store.ingested)
    ensures files != [] ==>
      && r.Ok? && r.value.store == StoreLabel(c)
      && r.value.processed == |r.value.results| == |files|
      && (forall i :: 0 <= i < |files| ==> r.value.results[i] == UploadResult(env, store.outcome, c, files[i]))
      && store.ingested == old(store.ingested) + UploadIngestions(env, c, files)
  {
    if files == [] {
      return Err(HttpError(400, NoFiles));
    }
    var results := ProcessUploads(store, env, c, files);
    EachAt((f: Upload) => UploadResult(env, store.outcome, c, f), files);
    r := Ok(IngestResponse(StoreLabel(c), |results|, results));
  }

  /** The loop of the `files` endpoints: every file in turn. */
  method ProcessUploads(store: Store, env: IngestEnv, c: Collection, files: seq<Upload>)
    returns (results: seq<FileResult>)
    modifies store
    ensures results == UploadResults(env, store.outcome, c, files)
    ensures store.ingested == old(store.ingested) + UploadIngestions(env, c, files)
  {
    results := [];
    for k := 0 to |files|
      invariant results == UploadResults(env, store.outcome, c, files[..k])
      invariant store.ingested == old(store.ingested) + UploadIngestions(env, c, files[..k])
    {
      UploadsNext(env, store.outcome, c, files, k);
      var result := ProcessUpload(store, env, c, files[k]);
      results := results + [result];
    }
    assert files[..|files|] == files;
  }

  /** The `/zip` endpoints: every PDF of the archive, one result each. */
  method IngestZip(store: Store, env: IngestEnv, c: Collection, zipName: string, zipContent: Bytes)
    returns (r: Result<IngestResponse, HttpError>)
    modifies store
    ensures !HasSuffix(zipName, ".zip") ==> r == Err(HttpError(400, ZipRequired)) && store.ingested == old(store.ingested)
    ensures HasSuffix(zipName, ".zip") && env.unzip(zipContent) == [] ==>
      r == Err(HttpError(400, NoPdfInZip)) && store.ingested == old(store.ingested)
    ensures HasSuffix(zipName, ".zip") && env.unzip(zipContent) != [] ==>
      var pdfs := env.unzip(zipContent);
      && r.Ok? && r.value.store == StoreLabel(c)
      && r.value.processed == |r.value.results| == |pdfs|
      && (forall i :: 0 <= i < |pdfs| ==>
            r.value.results[i] == PdfResult(env, store.outcome, c, pdfs[i].1, pdfs[i].0))
      && store.ingested == old(store.ingested) + ZipIngestions(env, c, pdfs)
  {
    if !HasSuffix(zipName, ".zip") {
      return Err(HttpError(400, ZipRequired));
    }
    var pdfs := env.unzip(zipContent);
    if pdfs == [] {
      return Err(HttpError(400, NoPdfInZip));
    }
    var results := ProcessPdfs(store, env, c, pdfs);
    EachAt((pdf: (Bytes, string)) => PdfResult(env, store.outcome, c, pdf.1, pdf.0), pdfs);
    r := Ok(IngestResponse(StoreLabel(c), |results|, results));
  }

  /** The loop of the `/zip` endpoints: every PDF of the archive in turn. */
  method ProcessPdfs(store: Store, env: IngestEnv, c: Collection, pdfs: seq<(Bytes, string)>)
    returns (results: seq<FileResult>)
    modifies store
    ensures results == Each((pdf: (Bytes, string)) => PdfResult(env, store.outcome, c, pdf.1, pdf.0), pdfs)
    ensures store.ingested == old(store.ingested) + ZipIngestions(env, c, pdfs)
  {
    ghost var resultOf := (pdf: (Bytes, string)) => PdfResult(env, store.outcome, c, pdf.1, pdf.0);
    ghost var ingestionOf := (pdf: (Bytes, string)) => PdfIngestions(env, c, pdf.0);
    results := [];
    for k := 0 to |pdfs|
      invariant results == Each(resultOf, pdfs[..k])
      invariant store.ingested == old(store.ingested) + Gather(ingestionOf, pdfs[..k])
    {
      EachGatherNext(resultOf, ingestionOf, pdfs, k);
      var result := ProcessPdf(store, env, c, pdfs[k].1, pdfs[k].0);
      results := results + [result];
    }
    assert pdfs[..|pdfs|] == pdfs;
  }
}
