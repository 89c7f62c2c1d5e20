/**
 * The download side of the generated Word files: the filename pattern a
 * download must match, the directories a name is looked up in, and the
 * listing of the temporary output directory.
 *
 * Whether a file exists is a predicate of the caller (`isFile`), taken after
 * the expired temporary files have been removed.
 */
module Output {
  import opened Wrappers
  import opened Text
  import opened DocxUtils

  // ------------------------------------------------------- filename pattern

  /** `[a-zA-Z0-9_\-\.]` */
  predicate SafeChar(c: char) {
    ('a' <= c <= 'z') || ('A' <= c <= 'Z') || ('0' <= c <= '9') || c == '_' || c == '-' || c == '.'
  }

  predicate AllSafe(s: string) { forall k :: 0 <= k < |s| ==> SafeChar(s[k]) }

  /** Where `(analysis_|pr_|email_draft_)` ends when matched at the start. The
      alternatives begin with different letters, so at most one can match. */
  function PrefixEnd(s: string): Option<nat> {
    if StartsWith(s, "analysis_") then Some(9)
    else if StartsWith(s, "pr_") then Some(3)
    else if StartsWith(s, "email_draft_") then Some(12)
    else None
  }

  /** The greedy run of pattern characters that starts at `i`. */
  function SafeRunEnd(s: string, i: nat): (j: nat)
    requires i <= |s|
    ensures i <= j <= |s| && (j == |s| || !SafeChar(s[j]))
    decreases |s| - i
  {
    if i < |s| && SafeChar(s[i]) then SafeRunEnd(s, i + 1) else i
  }

  /** `$` without MULTILINE: the end of the text, or just before a final line break. */
  predicate EndAnchor(s: string, k: nat) {
    k == |s| || (k == |s| - 1 && s[k] == '\n')
  }

  /** The rest of the pattern, `\.docx$`, after the character run took `s[i..k]`;
      on failure the run gives back one character at a time, down to one. */
  predicate BodyMatch(s: string, i: nat, k: nat)
    requires i < k <= |s|
    decreases k
  {
    (At(s, k, ".docx") && EndAnchor(s, k + 5)) || (k > i + 1 && BodyMatch(s, i, k - 1))
  }

  /** `_SAFE_FILENAME.match(filename)`, computed as the regular expression
      engine does it: prefix, greedy run, backtracking over the suffix. */
  predicate SafeMatch(s: string) {
    match PrefixEnd(s)
    case None => false
    case Some(i) =>
      var j := SafeRunEnd(s, i);
      j > i && BodyMatch(s, i, j)
  }

  /** What may follow the prefix: a body of at least one pattern character,
      then ".docx", then at most one line break. */
  predicate ValidTail(t: string) {
    var u := Chomp(t);
    |u| >= 6 && AllSafe(u) && EndsWith(u, ".docx")
  }

  /** The text without its final line break, if it has one. */
  function Chomp(t: string): string {
    if |t| > 0 && t[|t| - 1] == '\n' then t[..|t| - 1] else t
  }

  /** Chomping a suffix of `s` that is not empty cuts it where chomping `s` does. */
  lemma ChompFrom(s: string, i: nat)
    requires i < |s|
    ensures i <= |Chomp(s)| && Chomp(s) == s[..|Chomp(s)|] && Chomp(s[i..]) == s[i..|Chomp(s)|]
    ensures |Chomp(s)| == |s| || s[|Chomp(s)|] == '\n'
  {
    assert s[i..][|s| - i - 1] == s[|s| - 1];
    if s[|s| - 1] == '\n' {
      assert s[i..][..|s| - i - 1] == s[i..|s| - 1];
    }
  }

  lemma AllSafeJoin(s: string, a: nat, b: nat, c: nat)
    requires a <= b <= c <= |s| && AllSafe(s[a..b]) && AllSafe(s[b..c])
    ensures AllSafe(s[a..c])
  {
    forall k | 0 <= k < c - a ensures SafeChar(s[a..c][k]) {
      if k < b - a {
        assert s[a..c][k] == s[a..b][k];
      } else {
        assert s[a..c][k] == s[b..c][k - (b - a)];
      }
    }
  }

  lemma AllSafeSlice(s: string, a: nat, b: nat, c: nat, d: nat)
    requires a <= c <= d <= b <= |s| && AllSafe(s[a..b])
    ensures AllSafe(s[c..d])
  {
    forall k | 0 <= k < d - c ensures SafeChar(s[c..d][k]) {
      assert s[c..d][k] == s[a..b][k + c - a];
    }
  }

  lemma DocxSafe()
    ensures AllSafe(".docx") && ".docx"[4] == 'x'
  {
  }

  /** The names the pattern describes, stated without reference to matching. */
  predicate AcceptedName(s: string) {
    || (StartsWith(s, "analysis_") && ValidTail(s[9..]))
    || (StartsWith(s, "pr_") && ValidTail(s[3..]))
    || (StartsWith(s, "email_draft_") && ValidTail(s[12..]))
  }

  lemma {:induction false} SafeRunShape(s: string, i: nat)
    requires i <= |s|
    ensures AllSafe(s[i..SafeRunEnd(s, i)])
    decreases |s| - i
  {
    if i < |s| && SafeChar(s[i]) {
      SafeRunShape(s, i + 1);
      assert s[i..SafeRunEnd(s, i)] == [s[i]] + s[i + 1..SafeRunEnd(s, i)];
    }
  }

  /** A run of pattern characters that stops at a non-pattern character or the
      end is the greedy run. */
  lemma {:induction false} SafeRunIs(s: string, i: nat, m: nat)
    requires i <= m <= |s| && AllSafe(s[i..m]) && (m == |s| || !SafeChar(s[m]))
    ensures SafeRunEnd(s, i) == m
    decreases m - i
  {
    if i < m {
      assert s[i] == s[i..m][0];
      assert s[i + 1..m] == s[i..m][1..];
      SafeRunIs(s, i + 1, m);
    }
  }

  /** Backtracking succeeds exactly when ".docx" followed by the end anchor
      starts somewhere in the part the run may give back. */
  lemma {:induction false} BodyMatchSpec(s: string, i: nat, k: nat)
    requires i < k <= |s|
    ensures BodyMatch(s, i, k) <==> exists q :: i < q <= k && At(s, q, ".docx") && EndAnchor(s, q + 5)
    decreases k
  {
    if k > i + 1 {
      BodyMatchSpec(s, i, k - 1);
    }
  }

  /** The accepting suffix sits at the end of the run. */
  lemma TailFromMatch(s: string, i: nat, j: nat, q: nat)
    requires i < q <= j <= |s| && j == SafeRunEnd(s, i)
    requires At(s, q, ".docx") && EndAnchor(s, q + 5)
    ensures ValidTail(s[i..])
  {
    SafeRunShape(s, i);
    AllSafeSlice(s, i, j, i, q);
    DocxSafe();
    AllSafeJoin(s, i, q, q + 5);
    ChompFrom(s, i);
    assert |Chomp(s)| == q + 5 by {
      if q + 5 == |s| {
        assert s[|s| - 1] == s[q..q + 5][4];
      }
    }
    var u := s[i..q + 5];
    assert u[|u| - 5..] == s[q..q + 5];
  }

  /** A valid tail makes the backtracking succeed. */
  lemma MatchFromTail(s: string, i: nat)
    requires i <= |s| && ValidTail(s[i..])
    ensures SafeRunEnd(s, i) > i && BodyMatch(s, i, SafeRunEnd(s, i))
  {
    ChompFrom(s, i);
    var m := |Chomp(s)|;
    SafeRunIs(s, i, m);
    assert At(s, m - 5, ".docx") by {
      assert s[m - 5..m] == s[i..m][m - 5 - i..];
    }
    assert EndAnchor(s, m);
    BodyMatchSpec(s, i, m);
  }

  /** The description, read through the prefix the name starts with. */
  lemma AcceptedByPrefix(s: string)
    ensures AcceptedName(s) <==> PrefixEnd(s).Some? && ValidTail(s[PrefixEnd(s).value..])
  {
    if StartsWith(s, "analysis_") {
      assert s[0] == 'a';
    } else if StartsWith(s, "pr_") {
      assert s[0] == 'p';
    }
    if StartsWith(s, "pr_") {
      assert s[0] == 'p';
    }
    if StartsWith(s, "email_draft_") {
      assert s[0] == 'e';
    }
  }

  /** The engine's answer and the description agree on every name. */
  lemma SafeMatchIff(s: string)
    ensures SafeMatch(s) <==> AcceptedName(s)
  {
    AcceptedByPrefix(s);
    match PrefixEnd(s)
    case None =>
    case Some(i) =>
      if SafeMatch(s) {
        MatchedTail(s);
      }
      if ValidTail(s[i..]) {
        MatchFromTail(s, i);
      }
  }

  /** The three prefixes are made of pattern characters. */
  lemma PrefixSafe(s: string)
    requires PrefixEnd(s).Some?
    ensures PrefixEnd(s).value <= |s| && AllSafe(s[..PrefixEnd(s).value])
  {
    var i := PrefixEnd(s).value;
    if StartsWith(s, "analysis_") {
      assert s[..i] == "analysis_";
    } else if StartsWith(s, "pr_") {
      assert s[..i] == "pr_";
    } else {
      assert s[..i] == "email_draft_";
    }
  }

  /** Pattern characters followed by a valid tail: the whole name, without
      its optional final line break, is pattern characters ending in ".docx". */
  lemma TailShape(s: string, i: nat)
    requires i <= |s| && AllSafe(s[..i]) && ValidTail(s[i..])
    ensures AllSafe(Chomp(s)) && EndsWith(Chomp(s), ".docx")
  {
    ChompFrom(s, i);
    var n := |Chomp(s)|;
    assert s[0..i] == s[..i];
    AllSafeJoin(s, 0, i, n);
    assert s[0..n] == Chomp(s);
    assert Chomp(s)[n - 5..] == s[i..n][n - i - 5..];
  }

  /** The successful match: the prefix alternative matched and a valid tail follows it. */
  lemma MatchedTail(s: string)
    requires SafeMatch(s)
    ensures PrefixEnd(s).Some? && PrefixEnd(s).value <= |s| && ValidTail(s[PrefixEnd(s).value..])
  {
    var i := PrefixEnd(s).value;
    var j := SafeRunEnd(s, i);
    BodyMatchSpec(s, i, j);
    var q :| i < q <= j && At(s, q, ".docx") && EndAnchor(s, q + 5);
    TailFromMatch(s, i, j, q);
  }

  /** Pattern characters, chomped, hold no path separator. */
  lemma NoSeparator(s: string)
    requires AllSafe(Chomp(s))
    ensures '/' !in s && '\\' !in s
  {
    if s != [] {
      ChompFrom(s, 0);
      forall k | 0 <= k < |s| ensures s[k] != '/' && s[k] != '\\' {
        if k < |Chomp(s)| {
          assert s[k] == Chomp(s)[k];
        }
      }
    }
  }

  /** An accepted name starts with one of the three prefixes; without its
      optional final line break it is made of pattern characters only and
      ends in ".docx"; so it holds no path separator. */
  lemma SafeNameShape(s: string)
    requires SafeMatch(s)
    ensures StartsWith(s, "analysis_") || StartsWith(s, "pr_") || StartsWith(s, "email_draft_")
    ensures AllSafe(Chomp(s)) && EndsWith(Chomp(s), ".docx")
    ensures '/' !in s && '\\' !in s
  {
    MatchedTail(s);
    PrefixSafe(s);
    TailShape(s, PrefixEnd(s).value);
    NoSeparator(s);
  }

  lemma AllSafeConcat(x: string, y: string)
    requires AllSafe(x) && AllSafe(y)
    ensures AllSafe(x + y)
  {
    forall k | 0 <= k < |x + y| ensures SafeChar((x + y)[k]) {
      if k >= |x| {
        assert (x + y)[k] == y[k - |x|];
      }
    }
  }

  /** Any valid tail after an artifact's prefix gives an accepted name. */
  lemma PrefixedAccepted(a: Artifact, t: string)
    requires ValidTail(t)
    ensures SafeMatch(ArtifactPrefix(a) + t)
  {
    var p := ArtifactPrefix(a);
    assert (p + t)[..|p|] == p;
    assert (p + t)[|p|..] == t;
    assert AcceptedName(p + t);
    SafeMatchIff(p + t);
  }

  /** Prefix, date, "_", body and ".docx" make an accepted name when the
      date and the body use pattern characters only. */
  lemma PartsAccepted(a: Artifact, date: string, body: string)
    requires AllSafe(date) && AllSafe(body)
    ensures SafeMatch(ArtifactPrefix(a) + date + "_" + body + ".docx")
  {
    AllSafeConcat(date, "_");
    AllSafeConcat(date + "_", body);
    AllSafeConcat(date + "_" + body, ".docx");
    var t := date + "_" + body + ".docx";
    assert t[|t| - 5..] == ".docx";
    PrefixedAccepted(a, t);
    assert ArtifactPrefix(a) + date + "_" + body + ".docx" == ArtifactPrefix(a) + t;
  }

  /** A document the pipeline saves can be downloaded by its file name when
      its date and its sanitized supplier name use pattern characters only. */
  lemma ArtifactDownloadable(a: Artifact, snapshotDate: string, supplier: string)
    requires AllSafe(snapshotDate) && AllSafe(SanitizeFilename(supplier))
    ensures SafeMatch(ArtifactFilename(a, snapshotDate, supplier))
  {
    PartsAccepted(a, snapshotDate, SanitizeFilename(supplier));
  }

  // ------------------------------------------------------------------ lookup

  /** A file `name` inside directory `dir` of the output root. */
  datatype Location = Location(dir: Folder, name: string)

  /** The directories searched, in order, outside temporary mode. */
  const SearchOrder: seq<Folder> := [AnalysisFolder, PrFolder, EmailDraftFolder]

  /** `_resolve_path` */
  method ResolvePath(isFile: Location -> bool, useTemp: bool, filename: string) returns (r: Option<Location>)
    ensures r.Some? ==> SafeMatch(filename) && r.value.name == filename && isFile(r.value)
    ensures !SafeMatch(filename) ==> r == None
    ensures SafeMatch(filename) && useTemp ==> r == (if isFile(Location(TempFolder, filename)) then Some(Location(TempFolder, filename)) else None)
    ensures SafeMatch(filename) && !useTemp ==>
      (r.None? <==> forall i :: 0 <= i < |SearchOrder| ==> !isFile(Location(SearchOrder[i], filename)))
    ensures SafeMatch(filename) && !useTemp && r.Some? ==>
      exists i :: 0 <= i < |SearchOrder| && r.value.dir == SearchOrder[i]
        && forall j :: 0 <= j < i ==> !isFile(Location(SearchOrder[j], filename))
  {
    if !SafeMatch(filename) {
      return None;
    }
    if useTemp {
      var path := Location(TempFolder, filename);
      if isFile(path) {
        return Some(path);
      }
      return None;
    }
    for i := 0 to |SearchOrder|
      invariant forall j :: 0 <= j < i ==> !isFile(Location(SearchOrder[j], filename))
    {
      var path := Location(SearchOrder[i], filename);
      if isFile(path) {
        return Some(path);
      }
    }
    return None;
  }

  const WordMediaType := "application/vnd.openxmlformats-officedocument.wordprocessingml.document"
  const NotFound := "File not found or invalid filename."

  datatype HttpError = HttpError(status: nat, detail: string)

  /** A file response: the file, its media type and its download header. */
  datatype FileDownload = FileDownload(location: Location, mediaType: string, contentDisposition: string)

  /** `download_output` */
  method DownloadOutput(isFile: Location -> bool, useTemp: bool, filename: string)
    returns (r: Result<FileDownload, HttpError>)
    ensures r.Err? ==> r.error == HttpError(404, NotFound)
    ensures r.Err? <==> (|| !SafeMatch(filename)
                         || (useTemp && !isFile(Location(TempFolder, filename)))
                         || (!useTemp && forall i :: 0 <= i < |SearchOrder| ==> !isFile(Location(SearchOrder[i], filename))))
    ensures r.Ok? ==>
      && r.value.location.name == filename && isFile(r.value.location)
      && (useTemp <==> r.value.location.dir == TempFolder)
      && r.value.mediaType == WordMediaType
      && r.value.contentDisposition == "attachment; filename=\"" + filename + "\""
  {
    var path := ResolvePath(isFile, useTemp, filename);
    if path.None? {
      return Err(HttpError(404, NotFound));
    }
    r := Ok(FileDownload(path.value, WordMediaType, "attachment; filename=\"" + filename + "\""));
  }

  // ----------------------------------------------------------------- listing

  /** The index of the last `c` in `s`, or -1: `str.rfind`. */
  function LastIndexOf(s: string, c: char): (i: int)
    ensures -1 <= i < |s|
    ensures i >= 0 ==> s[i] == c
    ensures forall k :: i < k < |s| ==> s[k] != c
  {
    if s == [] then -1
    else if s[|s| - 1] == c then |s| - 1
    else LastIndexOf(s[..|s| - 1], c)
  }

  /** `Path(name).suffix`: from the last dot on, unless that dot starts the
      name or ends it. */
  function PathSuffix(name: string): string {
    var i := LastIndexOf(name, '.');
    if 0 < i < |name| - 1 then name[i..] else ""
  }

  /** `f.suffix.lower() == ".docx"` */
  predicate DocxSuffix(name: string) {
    Lower(PathSuffix(name)) == ".docx"
  }

  /** A name has the Word suffix exactly when it ends in ".docx", ignoring
      case, after at least one other character. */
  lemma DocxSuffixIff(name: string)
    ensures DocxSuffix(name) <==> |name| >= 6 && Lower(name[|name| - 5..]) == ".docx"
  {
    var i := LastIndexOf(name, '.');
    if |name| >= 6 && Lower(name[|name| - 5..]) == ".docx" {
      var t := name[|name| - 5..];
      assert LowerChar(t[0]) == '.' && LowerChar(t[1]) == 'd' && LowerChar(t[2]) == 'o';
      assert LowerChar(t[3]) == 'c' && LowerChar(t[4]) == 'x';
      assert name[|name| - 5] == '.';
      assert name[|name| - 4] != '.' && name[|name| - 3] != '.' && name[|name| - 2] != '.' && name[|name| - 1] != '.';
      assert i == |name| - 5;
    }
    if DocxSuffix(name) {
      assert |PathSuffix(name)| == 5;
    }
  }

  /** A directory entry of the temporary directory, in listing order. */
  datatype Entry = Entry(name: string, isFile: bool, mtime: real)

  /** One item of the listing: `{"filename": ..., "created_at": ...}`. */
  datatype Listed = Listed(filename: string, createdAt: real)

  datatype Listing = Listing(files: seq<Listed>, expiryMinutes: int)

  /** The Word files among `entries`, in the same order. */
  function DocxFiles(entries: seq<Entry>): seq<Listed> {
    if entries == [] then []
    else
      var e := entries[|entries| - 1];
      DocxFiles(entries[..|entries| - 1]) + (if e.isFile && DocxSuffix(e.name) then [Listed(e.name, e.mtime)] else [])
  }

  /** Every listed item is a Word file of the directory, and every Word file
      of the directory is listed. */
  lemma {:induction false} DocxFilesShape(entries: seq<Entry>)
    ensures forall x :: x in DocxFiles(entries) <==>
      exists e :: e in entries && e.isFile && DocxSuffix(e.name) && x == Listed(e.name, e.mtime)
  {
    if entries != [] {
      var init := entries[..|entries| - 1];
      DocxFilesShape(init);
      assert entries == init + [entries[|entries| - 1]];
    }
  }

  /** `list_output`; `tempDir` is the listing of the temporary directory, or
      `None` when it does not exist. */
  method ListOutput(useTemp: bool, tempDir: Option<seq<Entry>>, maxAgeMinutes: int) returns (r: Listing)
    ensures !useTemp ==> r == Listing([], 0)
    ensures useTemp ==> r.expiryMinutes == maxAgeMinutes
    ensures useTemp ==> r.files == (if tempDir.Some? then DocxFiles(tempDir.value) else [])
  {
    if !useTemp {
      return Listing([], 0);
    }
    var files: seq<Listed> := [];
    if tempDir.Some? {
      var entries := tempDir.value;
      for k := 0 to |entries|
        invariant files == DocxFiles(entries[..k])
      {
        assert entries[..k + 1][..k] == entries[..k];
        var f := entries[k];
        if f.isFile && DocxSuffix(f.name) {
          files := files + [Listed(f.name, f.mtime)];
        }
      }
      assert entries[..|entries|] == entries;
    }
    r := Listing(files, maxAgeMinutes);
  }
}
