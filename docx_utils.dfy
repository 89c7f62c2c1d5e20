/**
 * Word export helpers: the file-name sanitiser, the markdown pipe-table row
 * tests, and the line walk that turns markdown text into document blocks.
 * The Word document itself is not modelled: the walk produces the sequence
 * of blocks that the source adds to the document, in order.
 */
module DocxUtils {
  import opened Text

  // ------------------------------------------------------ _sanitize_filename

  /** One of the characters `<>:"/\|?*`. */
  predicate Forbidden(c: char) {
    c == '<' || c == '>' || c == ':' || c == '"' || c == '/' || c == '\\' || c == '|' || c == '?' || c == '*'
  }

  /** `re.sub(r'[<>:"/\\|?*]', "_", s)` */
  function ReplaceForbidden(s: string): (r: string)
    ensures |r| == |s|
    ensures forall i :: 0 <= i < |s| ==> r[i] == if Forbidden(s[i]) then '_' else s[i]
  {
    seq(|s|, i requires 0 <= i < |s| => if Forbidden(s[i]) then '_' else s[i])
  }

  /** `re.sub(r"\s+", "_", s)`: every maximal run of whitespace becomes one underscore. */
  function CollapseSpace(s: string): (r: string)
    ensures forall i :: 0 <= i < |r| ==> !IsSpace(r[i]) && (r[i] == '_' || r[i] in s)
    decreases |s|
  {
    if s == [] then []
    else if IsSpace(s[0]) then LStripShape(s[1..]); "_" + CollapseSpace(LStrip(s[1..]))
    else [s[0]] + CollapseSpace(s[1..])
  }

  predicate DotOrUnderscore(c: char) { c == '.' || c == '_' }

  /** `s.lstrip("._")` */
  function LStripDots(s: string): (r: string)
    ensures |r| <= |s| && r == s[|s| - |r|..]
    ensures r == [] || !DotOrUnderscore(r[0])
  {
    if |s| > 0 && DotOrUnderscore(s[0]) then LStripDots(s[1..]) else s
  }

  /** `s.rstrip("._")` */
  function RStripDots(s: string): (r: string)
    ensures |r| <= |s| && r == s[..|r|]
    ensures r == [] || !DotOrUnderscore(r[|r| - 1])
  {
    if |s| > 0 && DotOrUnderscore(s[|s| - 1]) then RStripDots(s[..|s| - 1]) else s
  }

  /** `_sanitize_filename` */
  function SanitizeFilename(name: string): string {
    var t := RStripDots(LStripDots(CollapseSpace(ReplaceForbidden(name))));
    if t == "" then "unknown" else t
  }

  /** A name the sanitiser leaves alone: non-empty, none of the forbidden
      characters, no whitespace, and no '.' or '_' at either end. */
  predicate SafeName(s: string) {
    && |s| > 0
    && Clean(s)
    && !DotOrUnderscore(s[0]) && !DotOrUnderscore(s[|s| - 1])
  }

  /** No forbidden character and no whitespace. */
  predicate Clean(s: string) {
    forall i :: 0 <= i < |s| ==> !Forbidden(s[i]) && !IsSpace(s[i])
  }

  lemma CleanSlice(s: string, lo: nat, hi: nat)
    requires Clean(s) && lo <= hi <= |s|
    ensures Clean(s[lo..hi])
  {
    forall i | 0 <= i < hi - lo ensures !Forbidden(s[lo..hi][i]) && !IsSpace(s[lo..hi][i]) {
      assert s[lo..hi][i] == s[lo + i];
    }
  }

  lemma CollapseKeepsAllowed(s: string)
    requires forall i :: 0 <= i < |s| ==> !Forbidden(s[i])
    ensures forall i :: 0 <= i < |CollapseSpace(s)| ==> !Forbidden(CollapseSpace(s)[i])
  {
    var r := CollapseSpace(s);
    forall i | 0 <= i < |r|
      ensures !Forbidden(r[i])
    {
      if r[i] != '_' {
        var k :| 0 <= k < |s| && s[k] == r[i];
      }
    }
  }

  lemma CleanCollapsed(name: string)
    ensures Clean(CollapseSpace(ReplaceForbidden(name)))
  {
    CollapseKeepsAllowed(ReplaceForbidden(name));
  }

  lemma StrippedSafe(b: string)
    requires Clean(b)
    ensures RStripDots(LStripDots(b)) == [] || SafeName(RStripDots(LStripDots(b)))
  {
    var c := LStripDots(b);
    CleanSlice(b, |b| - |c|, |b|);
    var d := RStripDots(c);
    CleanSlice(c, 0, |d|);
    if d != [] {
      assert d[0] == c[..|d|][0] == c[0];
    }
  }

  /** The sanitised name is never empty, has none of `<>:"/\|?*`, no whitespace,
      and neither starts nor ends with '.' or '_'. */
  lemma SanitizeShape(name: string)
    ensures SafeName(SanitizeFilename(name))
  {
    var b := CollapseSpace(ReplaceForbidden(name));
    CleanCollapsed(name);
    StrippedSafe(b);
    UnknownSafe();
  }

  lemma UnknownSafe()
    ensures SafeName("unknown")
  {
    assert "unknown"[0] == 'u' && "unknown"[6] == 'n';
  }

  lemma {:induction false} CollapseNoSpace(s: string)
    requires forall i :: 0 <= i < |s| ==> !IsSpace(s[i])
    ensures CollapseSpace(s) == s
  {
    if s != [] {
      CollapseNoSpace(s[1..]);
    }
  }

  /** A safe name passes through every step unchanged. */
  lemma SanitizeSafe(s: string)
    requires SafeName(s)
    ensures SanitizeFilename(s) == s
  {
    var a := ReplaceForbidden(s);
    assert a == s by {
      forall i | 0 <= i < |s| ensures a[i] == s[i] { assert !Forbidden(s[i]); }
    }
    CollapseNoSpace(s);
    assert LStripDots(s) == s;
    assert RStripDots(s) == s;
  }

  /** Sanitising twice is sanitising once. */
  lemma SanitizeIdempotent(name: string)
    ensures SanitizeFilename(SanitizeFilename(name)) == SanitizeFilename(name)
  {
    SanitizeShape(name);
    SanitizeSafe(SanitizeFilename(name));
  }

  // ------------------------------------------------------- pipe-table rows

  /** `s[1:-1]`, which is empty for a string shorter than two characters. */
  function Interior(s: string): string {
    if |s| >= 2 then s[1..|s| - 1] else ""
  }

  /** `s.startswith("|") and s.endswith("|")` */
  predicate PipeDelimited(s: string) {
    |s| >= 1 && s[0] == '|' && s[|s| - 1] == '|'
  }

  /** `_is_table_row` */
  predicate IsTableRow(line: string) {
    var s := Strip(line);
    |s| >= 2 && PipeDelimited(s) && '|' in Interior(s)
  }

  predicate SeparatorChar(c: char) { IsSpace(c) || c == '|' || c == '-' || c == ':' }

  /** `_is_separator_row`: the stripped interior matches `^[\s|\-:]+$`. */
  predicate IsSeparatorRow(line: string) {
    var s := Strip(line);
    PipeDelimited(s) &&
      var inner := Strip(Interior(s));
      |inner| > 0 && forall k :: 0 <= k < |inner| ==> SeparatorChar(inner[k])
  }

  /** `_parse_table_row` */
  function ParseTableRow(line: string): seq<string> {
    var s := Strip(line);
    if !PipeDelimited(s) then []
    else
      var parts := Split(Interior(s), '|');
      seq(|parts|, k requires 0 <= k < |parts| => Strip(parts[k]))
  }

  /** "|a|" and a lone "|" are not table rows; "|a|b|" is. */
  lemma TableRowExamples()
    ensures !IsTableRow("|a|")
    ensures !IsTableRow("|")
    ensures IsTableRow("|a|b|")
  {
    assert Strip("|a|") == "|a|" by { StripTrimmed("|a|"); }
    assert Interior("|a|") == "a";
    assert Strip("|") == "|" by { StripTrimmed("|"); }
    assert Strip("|a|b|") == "|a|b|" by { StripTrimmed("|a|b|"); }
    assert Interior("|a|b|")[1] == '|';
  }

  /** A pipe-delimited line gives one cell more than its interior has pipes;
      any other line gives no cells. */
  lemma ParseTableRowCount(line: string)
    ensures !PipeDelimited(Strip(line)) ==> ParseTableRow(line) == []
    ensures PipeDelimited(Strip(line)) ==>
      |ParseTableRow(line)| == Count(Interior(Strip(line)), '|') + 1
  {
    if PipeDelimited(Strip(line)) {
      SplitCount(Interior(Strip(line)), '|');
    }
  }

  /** Every cell is stripped. */
  lemma ParseTableRowTrimmed(line: string)
    ensures forall k :: 0 <= k < |ParseTableRow(line)| ==> Trimmed(ParseTableRow(line)[k])
  {
    var s := Strip(line);
    if PipeDelimited(s) {
      var parts := Split(Interior(s), '|');
      forall k | 0 <= k < |parts|
        ensures Trimmed(Strip(parts[k]))
      {
        StripShape(parts[k]);
      }
    }
  }

  /** A table row has at least two cells. */
  lemma TableRowCells(line: string)
    requires IsTableRow(line)
    ensures |ParseTableRow(line)| >= 2
  {
    ParseTableRowCount(line);
    CountPositive(Interior(Strip(line)), '|');
  }

  lemma {:induction false} CountPositive(s: string, c: char)
    requires c in s
    ensures Count(s, c) >= 1
  {
    if s[0] != c {
      CountPositive(s[1..], c);
    }
  }

  // ------------------------------------------------ _content_to_docx_paragraphs

  /** What the walk adds to the document. `Heading` levels are 0, 1 and 2; a
      `Table` stands for the Word table and the empty paragraph added after it. */
  datatype Block =
    | Blank
    | Heading(level: nat, text: string)
    | Table(rows: seq<seq<string>>)
    | Para(text: string)

  /** `s.replace("\r\n", "\n")` */
  function UnixNewlines(s: string): (r: string)
    ensures |r| <= |s|
  {
    if |s| >= 2 && s[0] == '\r' && s[1] == '\n' then "\n" + UnixNewlines(s[2..])
    else if s == [] then []
    else [s[0]] + UnixNewlines(s[1..])
  }

  function Lines(content: string): seq<string> {
    Split(UnixNewlines(content), '\n')
  }

  /** The block for a line that does not start a table. */
  function LineBlock(line: string): Block {
    var s := Strip(line);
    if s == "" then Blank
    else if StartsWith(s, "# ") then Heading(0, Strip(s[2..]))
    else if StartsWith(s, "## ") then Heading(1, Strip(s[3..]))
    else if StartsWith(s, "### ") then Heading(2, Strip(s[4..]))
    else Para(s)
  }

  /** A line that starts a table: not blank, not a heading, and a table row. */
  predicate StartsTable(line: string) {
    var s := Strip(line);
    s != "" && !StartsWith(s, "# ") && !StartsWith(s, "## ") && !StartsWith(s, "### ") && IsTableRow(s)
  }

  /** End of the run of table rows that starts at `i`. */
  function RunEnd(lines: seq<string>, i: nat): (j: nat)
    requires i <= |lines|
    ensures i <= j <= |lines|
    decreases |lines| - i
  {
    if i == |lines| || !IsTableRow(lines[i]) then i else RunEnd(lines, i + 1)
  }

  /** The run is a maximal stretch of table rows. */
  lemma RunEndShape(lines: seq<string>, i: nat)
    requires i <= |lines|
    ensures forall k :: i <= k < RunEnd(lines, i) ==> IsTableRow(lines[k])
    ensures RunEnd(lines, i) == |lines| || !IsTableRow(lines[RunEnd(lines, i)])
  {
    RunEndStops(lines, i);
    forall k | i <= k < RunEnd(lines, i) ensures IsTableRow(lines[k]) {
      RunEndRow(lines, i, k);
    }
  }

  lemma {:induction false} RunEndStops(lines: seq<string>, i: nat)
    requires i <= |lines|
    ensures RunEnd(lines, i) == |lines| || !IsTableRow(lines[RunEnd(lines, i)])
    decreases |lines| - i
  {
    if i < |lines| && IsTableRow(lines[i]) {
      RunEndStops(lines, i + 1);
    }
  }

  lemma {:induction false} RunEndRow(lines: seq<string>, i: nat, k: nat)
    requires i <= |lines| && i <= k < RunEnd(lines, i)
    ensures IsTableRow(lines[k])
    decreases k - i
  {
    if k > i {
      RunEndRow(lines, i + 1, k);
    }
  }

  /** One table row more: the run from `j` ends where the run from `j + 1`
      does, and the row joins the table unless it is a separator row. */
  lemma ReadStep(lines: seq<string>, i: nat, j: nat, rows: seq<seq<string>>)
    requires i <= j < |lines| && IsTableRow(lines[j]) && rows == TableRows(lines, i, j)
    ensures RunEnd(lines, j) == RunEnd(lines, j + 1)
    ensures TableRows(lines, i, j + 1) == rows + (if IsSeparatorRow(lines[j]) then [] else [ParseTableRow(lines[j])])
  {
  }

  /** The parsed rows of `lines[i..j]`, separator rows left out. */
  function TableRows(lines: seq<string>, i: nat, j: nat): seq<seq<string>>
    requires i <= j <= |lines|
    decreases j - i
  {
    if j == i then []
    else TableRows(lines, i, j - 1) + (if IsSeparatorRow(lines[j - 1]) then [] else [ParseTableRow(lines[j - 1])])
  }

  /** The blocks for `lines[i..]`. */
  function BlocksFrom(lines: seq<string>, i: nat): seq<Block>
    requires i <= |lines|
    decreases |lines| - i
  {
    if i == |lines| then []
    else if StartsTable(lines[i]) then
      StripIdempotent(lines[i]);
      var j := RunEnd(lines, i);
      var rows := TableRows(lines, i, j);
      (if rows == [] then [] else [Table(rows)]) + BlocksFrom(lines, j)
    else [LineBlock(lines[i])] + BlocksFrom(lines, i + 1)
  }

  /** The blocks `_content_to_docx_paragraphs` adds for `content`. */
  function Blocks(content: string): seq<Block> {
    BlocksFrom(Lines(content), 0)
  }

  /** A line that does not start a table gives its own block. */
  lemma BlocksFromLine(lines: seq<string>, i: nat)
    requires i < |lines| && !StartsTable(lines[i])
    ensures BlocksFrom(lines, i) == [LineBlock(lines[i])] + BlocksFrom(lines, i + 1)
  {
  }

  /** A line that starts a table gives the table of its run, when it has rows. */
  lemma TableStep(lines: seq<string>, i: nat, tableRows: seq<seq<string>>, next: nat)
    requires i < |lines| && StartsTable(lines[i])
    requires next == RunEnd(lines, i) && tableRows == TableRows(lines, i, next)
    ensures next > i
    ensures BlocksFrom(lines, i) == (if tableRows == [] then [] else [Table(tableRows)]) + BlocksFrom(lines, next)
  {
    StripIdempotent(lines[i]);
  }

  lemma ConcatAssoc(a: seq<Block>, b: seq<Block>, c: seq<Block>)
    ensures a + (b + c) == (a + b) + c
  {
  }

  /** `_content_to_docx_paragraphs`, with the document replaced by the list of
      blocks it receives. */
  method ContentToBlocks(content: string) returns (blocks: seq<Block>)
    ensures blocks == Blocks(content)
  {
    var lines := Lines(content);
    blocks := [];
    var i := 0;
    while i < |lines|
      invariant 0 <= i <= |lines|
      invariant blocks + BlocksFrom(lines, i) == BlocksFrom(lines, 0)
      decreases |lines| - i
    {
      var line := lines[i];
      var stripped := Strip(line);
      if stripped == "" {
        BlocksFromLine(lines, i);
        ConcatAssoc(blocks, [Blank], BlocksFrom(lines, i + 1));
        blocks := blocks + [Blank];
        i := i + 1;
      } else if StartsWith(stripped, "# ") {
        BlocksFromLine(lines, i);
        ConcatAssoc(blocks, [Heading(0, Strip(stripped[2..]))], BlocksFrom(lines, i + 1));
        blocks := blocks + [Heading(0, Strip(stripped[2..]))];
        i := i + 1;
      } else if StartsWith(stripped, "## ") {
        BlocksFromLine(lines, i);
        ConcatAssoc(blocks, [Heading(1, Strip(stripped[3..]))], BlocksFrom(lines, i + 1));
        blocks := blocks + [Heading(1, Strip(stripped[3..]))];
        i := i + 1;
      } else if StartsWith(stripped, "### ") {
        BlocksFromLine(lines, i);
        ConcatAssoc(blocks, [Heading(2, Strip(stripped[4..]))], BlocksFrom(lines, i + 1));
        blocks := blocks + [Heading(2, Strip(stripped[4..]))];
        i := i + 1;
      } else if IsTableRow(stripped) {
        var tableRows, next := ReadTable(lines, i);
        TableStep(lines, i, tableRows, next);
        // the table is added only when some row is not a separator row
        var made: seq<Block> := if tableRows != [] then [Table(tableRows)] else [];
        ConcatAssoc(blocks, made, BlocksFrom(lines, next));
        blocks := blocks + made;
        i := next;
      } else {
        BlocksFromLine(lines, i);
        ConcatAssoc(blocks, [Para(stripped)], BlocksFrom(lines, i + 1));
        blocks := blocks + [Para(stripped)];
        i := i + 1;
      }
    }
  }

  /** The inner loop: gather the rows of the table run starting at `i`, skipping
      separator rows. */
  method ReadTable(lines: seq<string>, i: nat) returns (tableRows: seq<seq<string>>, j: nat)
    requires i <= |lines|
    ensures j == RunEnd(lines, i) && tableRows == TableRows(lines, i, j)
  {
    j := i;
    tableRows := [];
    ghost var end := RunEnd(lines, i);
    while j < |lines| && IsTableRow(lines[j])
      invariant i <= j <= |lines|
      invariant RunEnd(lines, j) == end
      invariant tableRows == TableRows(lines, i, j)
      decreases |lines| - j
    {
      var rowLine := lines[j];
      ReadStep(lines, i, j, tableRows);
      if !IsSeparatorRow(rowLine) {
        tableRows := tableRows + [ParseTableRow(rowLine)];
      }
      j := j + 1;
    }
  }

  // ------------------------------------------------------ facts about blocks

  /** Every block is well formed: heading levels are 0 to 2 and their text
      stripped, paragraphs are non-empty and stripped, and a table has at least
      one row, each of at least one cell. */
  predicate WellFormed(b: Block) {
    match b
    case Blank => true
    case Heading(level, text) => level <= 2 && Trimmed(text)
    case Para(text) => text != "" && Trimmed(text)
    case Table(rows) => |rows| > 0 && forall r :: r in rows ==> |r| >= 1
  }

  lemma LineBlockWellFormed(line: string)
    ensures WellFormed(LineBlock(line))
  {
    var s := Strip(line);
    StripShape(line);
    if StartsWith(s, "# ") { StripShape(s[2..]); }
    if StartsWith(s, "## ") { StripShape(s[3..]); }
    if StartsWith(s, "### ") { StripShape(s[4..]); }
  }

  lemma {:induction false} TableRowsCells(lines: seq<string>, i: nat, j: nat)
    requires i <= j <= |lines|
    requires forall k :: i <= k < j ==> IsTableRow(lines[k])
    ensures forall r :: r in TableRows(lines, i, j) ==> |r| >= 1
    decreases j - i
  {
    if j > i {
      TableRowsCells(lines, i, j - 1);
      TableRowCells(lines[j - 1]);
    }
  }

  /** Each line makes at most one block, every block is well formed. */
  lemma {:induction false} BlocksFromShape(lines: seq<string>, i: nat)
    requires i <= |lines|
    ensures |BlocksFrom(lines, i)| <= |lines| - i
    ensures forall b :: b in BlocksFrom(lines, i) ==> WellFormed(b)
    decreases |lines| - i
  {
    if i < |lines| {
      if StartsTable(lines[i]) {
        StripIdempotent(lines[i]);
        var j := RunEnd(lines, i);
        RunEndShape(lines, i);
        TableRowsCells(lines, i, j);
        BlocksFromShape(lines, j);
      } else {
        LineBlockWellFormed(lines[i]);
        BlocksFromShape(lines, i + 1);
      }
    }
  }

  /** A line that is not a table row does not start a table. */
  lemma NotRowNoTable(line: string)
    requires !IsTableRow(line)
    ensures !StartsTable(line)
  {
    StripIdempotent(line);
  }

  /** Text without table rows makes exactly one block per line, each the line's
      own block. */
  lemma {:induction false} BlocksWithoutTables(lines: seq<string>, i: nat)
    requires i <= |lines|
    requires forall k :: i <= k < |lines| ==> !IsTableRow(lines[k])
    ensures |BlocksFrom(lines, i)| == |lines| - i
    ensures forall k :: i <= k < |lines| ==> BlocksFrom(lines, i)[k - i] == LineBlock(lines[k])
    decreases |lines| - i
  {
    if i < |lines| {
      NotRowNoTable(lines[i]);
      BlocksFromLine(lines, i);
      BlocksWithoutTables(lines, i + 1);
      var rest := BlocksFrom(lines, i + 1);
      forall k | i < k < |lines| ensures BlocksFrom(lines, i)[k - i] == LineBlock(lines[k]) {
        assert BlocksFrom(lines, i)[k - i] == rest[k - i - 1];
      }
    }
  }

  // ---------------------------------------------------- save_*_docx names

  /** The three kinds of saved document. */
  datatype Artifact = Analysis | PurchaseRequest | EmailDraft

  function ArtifactPrefix(a: Artifact): string {
    match a
    case Analysis => "analysis_"
    case PurchaseRequest => "pr_"
    case EmailDraft => "email_draft_"
  }

  /** The file name `save_analysis_docx`, `save_pr_docx` and `save_email_draft_docx` use. */
  function ArtifactFilename(a: Artifact, snapshotDate: string, supplier: string): (r: string)
    ensures StartsWith(r, ArtifactPrefix(a)) && EndsWith(r, ".docx")
  {
    ArtifactPrefix(a) + snapshotDate + "_" + SanitizeFilename(supplier) + ".docx"
  }

  /** The folders under output/. */
  datatype Folder = AnalysisFolder | PrFolder | EmailDraftFolder | TempFolder

  /** Where a document is saved: the temp folder when temp output is on, else its own folder. */
  function SaveFolder(useTemp: bool, a: Artifact): (f: Folder)
    ensures useTemp <==> f == TempFolder
  {
    if useTemp then TempFolder
    else match a
      case Analysis => AnalysisFolder
      case PurchaseRequest => PrFolder
      case EmailDraft => EmailDraftFolder
  }
}
