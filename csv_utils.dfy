/**
 * Row normaliser: the snapshot date hidden in a CSV file name, forgiving
 * column-name matching, and stamping every row with the run's snapshot date.
 * A CSV row is an ordered list of (column, cell) pairs, as `csv.DictReader`
 * yields it; order matters because the first matching column wins.
 */
module CsvUtils {
  import opened Wrappers
  import opened Text

  type Row = seq<(string, string)>

  // ------------------------------------------------ snapshot_date_from_filename

  /** Six ASCII digits start at index `i` of `s`. */
  predicate SixDigitsAt(s: string, i: int) {
    0 <= i && i + 6 <= |s| && forall k :: i <= k < i + 6 ==> IsDigit(s[k])
  }

  /** Where `re.search(r"(\d{2})(\d{2})(\d{2})", s)` matches, searching from `from`. */
  function FirstSixDigits(s: string, from: nat): (r: Option<nat>)
    ensures r.Some? ==> from <= r.value && SixDigitsAt(s, r.value)
    ensures r.Some? ==> forall j :: from <= j < r.value ==> !SixDigitsAt(s, j)
    ensures r.None? ==> forall j :: from <= j ==> !SixDigitsAt(s, j)
    decreases |s| - from
  {
    if from + 6 > |s| then None
    else if SixDigitsAt(s, from) then Some(from)
    else FirstSixDigits(s, from + 1)
  }

  /** `s.zfill(width)` for a string of digits. */
  function ZFill(s: string, width: nat): string
    decreases width - |s|
  {
    if |s| >= width then s else ZFill("0" + s, width)
  }

  /** `snapshot_date_from_filename`: DDMMYY from the first six-digit run becomes
      "{2000 + YY}-{MM}-{DD}", with no calendar check. */
  function SnapshotDateFromFilename(name: string): Option<string> {
    if name == "" then None
    else
      match FirstSixDigits(name, 0)
      case None => None
      case Some(i) =>
        var dd, mm, yy := name[i..i + 2], name[i + 2..i + 4], name[i + 4..i + 6];
        var year := 2000 + DigitsValue(yy);
        Some(NatToString(year) + "-" + ZFill(NatToString(DigitsValue(mm)), 2) + "-"
             + ZFill(NatToString(DigitsValue(dd)), 2))
  }

  lemma DigitCharValue(c: char)
    requires IsDigit(c)
    ensures DigitChar(DigitValue(c)) == c
  {
  }

  lemma TwoDigitsValue(t: string)
    requires |t| == 2 && AllDigits(t)
    ensures DigitsValue(t) == 10 * DigitValue(t[0]) + DigitValue(t[1])
  {
    var h := t[..1];
    assert h[..0] == [];
    assert DigitsValue(h) == DigitValue(t[0]);
  }

  /** Two digits survive `str(int(t)).zfill(2)` unchanged. */
  lemma TwoDigitsRoundTrip(t: string)
    requires |t| == 2 && AllDigits(t)
    ensures ZFill(NatToString(DigitsValue(t)), 2) == t
  {
    TwoDigitsValue(t);
    var v := DigitsValue(t);
    DigitCharValue(t[0]);
    DigitCharValue(t[1]);
    if v < 10 {
      assert t[0] == '0';
      assert NatToString(v) == [t[1]];
      assert ZFill([t[1]], 2) == ZFill("0" + [t[1]], 2);
    } else {
      assert v / 10 == DigitValue(t[0]) && v % 10 == DigitValue(t[1]);
      assert NatToString(v) == [t[0], t[1]];
    }
  }

  /** `str(2000 + int(yy))` is "20" followed by the two digits. */
  lemma YearDigits(yy: string)
    requires |yy| == 2 && AllDigits(yy)
    ensures NatToString(2000 + DigitsValue(yy)) == "20" + yy
  {
    TwoDigitsValue(yy);
    var d0, d1 := DigitValue(yy[0]), DigitValue(yy[1]);
    var n := 2000 + DigitsValue(yy);
    assert n == 2000 + 10 * d0 + d1;
    DigitCharValue(yy[0]);
    DigitCharValue(yy[1]);
    assert n / 10 == 200 + d0 && n % 10 == d1;
    assert (200 + d0) / 10 == 20 && (200 + d0) % 10 == d0;
    assert NatToString(20) == "20";
    assert NatToString(200 + d0) == "20" + [yy[0]];
  }

  /** The date from a file name is the first DDMMYY run rearranged as 20YY-MM-DD. */
  lemma FilenameDateAt(name: string, i: nat)
    requires SixDigitsAt(name, i)
    requires forall j :: 0 <= j < i ==> !SixDigitsAt(name, j)
    ensures SnapshotDateFromFilename(name)
         == Some("20" + name[i + 4..i + 6] + "-" + name[i + 2..i + 4] + "-" + name[i..i + 2])
  {
    YearDigits(name[i + 4..i + 6]);
    TwoDigitsRoundTrip(name[i + 2..i + 4]);
    TwoDigitsRoundTrip(name[i..i + 2]);
  }

  /** No six-digit run (including the empty name): no date. */
  lemma FilenameDateNone(name: string)
    ensures SnapshotDateFromFilename(name).None? <==> forall j :: !SixDigitsAt(name, j)
  {
  }

  // ------------------------------------------------------------ field names

  function RemoveChar(s: string, c: char): (r: string)
    ensures c !in r
    ensures forall x :: x in r ==> x in s
  {
    if s == [] then []
    else (if s[0] == c then [] else [s[0]]) + RemoveChar(s[1..], c)
  }

  /** The characters `_normalize_key` deletes. */
  predicate Ignored(c: char) {
    c == '\U{FEFF}' || c == ' ' || c == '_'
  }

  /** `_normalize_key`, one character at a time: ignored characters are dropped and
      the rest lower-cased. */
  function NormalizeKey(key: string): string {
    if key == [] then []
    else (if Ignored(key[0]) then [] else [LowerChar(key[0])]) + NormalizeKey(key[1..])
  }

  lemma RemoveCharCons(c: char, s: string, x: char)
    ensures RemoveChar([c] + s, x) == (if c == x then [] else [c]) + RemoveChar(s, x)
  {
    assert ([c] + s)[0] == c && ([c] + s)[1..] == s;
  }

  lemma LowerCons(c: char, s: string)
    ensures Lower([c] + s) == [LowerChar(c)] + Lower(s)
  {
    var l, r := Lower([c] + s), [LowerChar(c)] + Lower(s);
    assert |l| == |r|;
    forall i | 0 <= i < |l|
      ensures l[i] == r[i]
    {
      if i > 0 {
        assert ([c] + s)[i] == s[i - 1];
      }
    }
  }

  lemma NormalizeCons(c: char, s: string)
    ensures NormalizeKey([c] + s) == (if Ignored(c) then [] else [LowerChar(c)]) + NormalizeKey(s)
  {
    assert ([c] + s)[0] == c && ([c] + s)[1..] == s;
  }

  /** The per-character definition is the source's chain of three `replace` calls
      followed by `lower`. */
  lemma {:induction false} NormalizeKeyIsReplaceLower(key: string)
    ensures NormalizeKey(key) == Lower(RemoveChar(RemoveChar(RemoveChar(key, '\U{FEFF}'), ' '), '_'))
  {
    if key == [] {
    } else {
      var c, s := key[0], key[1..];
      assert key == [c] + s;
      NormalizeCons(c, s);
      NormalizeKeyIsReplaceLower(s);
      var a := RemoveChar(s, '\U{FEFF}');
      var b := RemoveChar(a, ' ');
      var d := RemoveChar(b, '_');
      assert [] + a == a && [] + b == b && [] + d == d;
      RemoveCharCons(c, s, '\U{FEFF}');
      if c != '\U{FEFF}' {
        RemoveCharCons(c, a, ' ');
        if c != ' ' {
          RemoveCharCons(c, b, '_');
          if c != '_' {
            LowerCons(c, d);
          }
        }
      }
    }
  }

  lemma {:induction false} NormalizeAppend(a: string, b: string)
    ensures NormalizeKey(a + b) == NormalizeKey(a) + NormalizeKey(b)
  {
    if a == [] {
      assert a + b == b;
      assert NormalizeKey(a) == [];
    } else {
      assert a == [a[0]] + a[1..];
      assert a + b == [a[0]] + (a[1..] + b);
      NormalizeCons(a[0], a[1..] + b);
      NormalizeCons(a[0], a[1..]);
      NormalizeAppend(a[1..], b);
    }
  }

  predicate Normalized(k: string) {
    forall i :: 0 <= i < |k| ==> !Ignored(k[i]) && !('A' <= k[i] <= 'Z')
  }

  /** A normalised key holds none of the removed characters and no upper-case letter,
      so normalising it again changes nothing. */
  lemma {:induction false} NormalizeKeyShape(key: string)
    ensures Normalized(NormalizeKey(key))
    ensures NormalizeKey(NormalizeKey(key)) == NormalizeKey(key)
  {
    if key != [] {
      NormalizeKeyShape(key[1..]);
      var n := NormalizeKey(key);
      var t := NormalizeKey(key[1..]);
      forall i | 0 <= i < |n|
        ensures !Ignored(n[i]) && !('A' <= n[i] <= 'Z')
      {
        if !Ignored(key[0]) && i > 0 {
          assert n[i] == t[i - 1];
        }
      }
    }
    NormalizedFixed(NormalizeKey(key));
  }

  lemma {:induction false} NormalizedFixed(k: string)
    requires Normalized(k)
    ensures NormalizeKey(k) == k
  {
    if k != [] {
      assert k == [k[0]] + k[1..];
      NormalizeCons(k[0], k[1..]);
      NormalizedFixed(k[1..]);
    }
  }

  /** An underscore anywhere in a column name is ignored, so each pair of spellings
      the source tries ("snapshotdate" / "snapshot_date", ...) finds the same column. */
  lemma UnderscoreIgnored(a: string, b: string)
    ensures NormalizeKey(a + "_" + b) == NormalizeKey(a + b)
  {
    NormalizeAppend(a + "_", b);
    NormalizeAppend(a, "_");
    NormalizeAppend(a, b);
    NormalizeCons('_', []);
    assert "_" == ['_'] + [];
    assert NormalizeKey([]) == [];
  }

  /** Whether two column names normalise alike, decided by walking both names
      together and skipping the characters normalisation deletes. */
  predicate KeyMatches(key: string, target: string)
    decreases |key| + |target|
  {
    if key != [] && Ignored(key[0]) then KeyMatches(key[1..], target)
    else if target != [] && Ignored(target[0]) then KeyMatches(key, target[1..])
    else if key == [] || target == [] then key == [] && target == []
    else LowerChar(key[0]) == LowerChar(target[0]) && KeyMatches(key[1..], target[1..])
  }

  lemma LowerCharKept(c: char)
    requires !Ignored(c)
    ensures !Ignored(LowerChar(c))
  {
  }

  /** The walk agrees with comparing the two normalised names. */
  lemma {:induction false} KeyMatchesNormalize(key: string, target: string)
    ensures KeyMatches(key, target) <==> NormalizeKey(key) == NormalizeKey(target)
    decreases |key| + |target|
  {
    if key != [] {
      assert key == [key[0]] + key[1..];
      NormalizeCons(key[0], key[1..]);
    }
    if target != [] {
      assert target == [target[0]] + target[1..];
      NormalizeCons(target[0], target[1..]);
    }
    assert NormalizeKey([]) == [];
    if key != [] && Ignored(key[0]) {
      KeyMatchesNormalize(key[1..], target);
    } else if target != [] && Ignored(target[0]) {
      KeyMatchesNormalize(key, target[1..]);
    } else if key == [] || target == [] {
      if key != [] {
        assert NormalizeKey(key)[0] == LowerChar(key[0]);
      }
      if target != [] {
        assert NormalizeKey(target)[0] == LowerChar(target[0]);
      }
    } else {
      KeyMatchesNormalize(key[1..], target[1..]);
      var nk, nt := NormalizeKey(key), NormalizeKey(target);
      assert nk[0] == LowerChar(key[0]) && nk[1..] == NormalizeKey(key[1..]);
      assert nt[0] == LowerChar(target[0]) && nt[1..] == NormalizeKey(target[1..]);
    }
  }

  /** The value `find_field` returns: that of the first column, in row order,
      whose normalised name equals the normalised target. */
  function Lookup(row: Row, target: string): Option<string> {
    if row == [] then None
    else if KeyMatches(row[0].0, target) then Some(row[0].1)
    else Lookup(row[1..], target)
  }

  /** Lookup finds the first matching column, and nothing when none matches. */
  lemma {:induction false} LookupFirst(row: Row, target: string)
    ensures Lookup(row, target).None? <==> forall i :: 0 <= i < |row| ==> !KeyMatches(row[i].0, target)
    ensures forall i :: 0 <= i < |row| && KeyMatches(row[i].0, target) &&
                        (forall j :: 0 <= j < i ==> !KeyMatches(row[j].0, target)) ==>
                        Lookup(row, target) == Some(row[i].1)
  {
    if row != [] {
      LookupFirst(row[1..], target);
      assert forall i :: 1 <= i < |row| ==> row[i] == row[1..][i - 1];
    }
  }

  /** `find_field`: a loop over the row's columns with an early return. */
  method FindField(row: Row, target: string) returns (r: Option<string>)
    ensures r == Lookup(row, target)
  {
    var normTarget := NormalizeKey(target);
    var i := 0;
    while i < |row|
      invariant 0 <= i <= |row|
      invariant Lookup(row, target) == Lookup(row[i..], target)
    {
      assert row[i..][1..] == row[i + 1..];
      KeyMatchesNormalize(row[i].0, target);
      if NormalizeKey(row[i].0) == normTarget {
        return Some(row[i].1);
      }
      i := i + 1;
    }
    return None;
  }

  // ------------------------------------------------------------ parse_csv_rows

  /** Python truthiness of a looked-up cell: present and non-empty. */
  predicate Truthy(o: Option<string>) {
    o.Some? && o.value != ""
  }

  /** Python's `a or b` on two looked-up cells. */
  function Or(a: Option<string>, b: Option<string>): Option<string> {
    if Truthy(a) then a else b
  }

  /** The exact-key entry `r[key]` of a row, if any. */
  function Get(row: Row, key: string): Option<string> {
    if row == [] then None
    else if row[0].0 == key then Some(row[0].1)
    else Get(row[1..], key)
  }

  /** `r[key] = v` on a dict: replace the value of an existing key in place,
      otherwise add the key at the end. */
  function SetField(row: Row, key: string, v: string): (r: Row)
    ensures Get(r, key) == Some(v)
    ensures |r| == |row| || (|r| == |row| + 1 && r[|row|] == (key, v))
    ensures forall i :: 0 <= i < |row| ==> r[i].0 == row[i].0
    ensures forall i :: 0 <= i < |row| && row[i].0 != key ==> r[i] == row[i]
    ensures forall k :: k != key ==> Get(r, k) == Get(row, k)
  {
    if row == [] then [(key, v)]
    else if row[0].0 == key then [(key, v)] + row[1..]
    else [row[0]] + SetField(row[1..], key, v)
  }

  /** The snapshot-date column of a row, as `find_field(row, "snapshotdate") or
      find_field(row, "snapshot_date")` reads it. */
  function SnapshotColumn(row: Row): Option<string> {
    Or(Lookup(row, "snapshotdate"), Lookup(row, "snapshot_date"))
  }

  /** The run's snapshot date after seeing `row`: once set (by the file name or by
      an earlier row) it never changes; otherwise a truthy column sets it, stripped. */
  function NextSnapshot(state: Option<string>, row: Row): Option<string> {
    if state.None? && Truthy(SnapshotColumn(row)) then Some(Strip(SnapshotColumn(row).value))
    else state
  }

  /** The output row: stamped with the snapshot date when that date is truthy. */
  function Stamp(row: Row, state: Option<string>): Row {
    if Truthy(state) then SetField(row, "snapshot_date", state.value) else row
  }

  function NormalizeFrom(rows: seq<Row>, state: Option<string>): seq<Row> {
    if rows == [] then []
    else
      var s := NextSnapshot(state, rows[0]);
      [Stamp(rows[0], s)] + NormalizeFrom(rows[1..], s)
  }

  /** The date taken from the file name, when a file name is given. */
  function FileDate(filename: string): Option<string> {
    if filename != "" then SnapshotDateFromFilename(filename) else None
  }

  /** What `parse_csv_rows` returns for the decoded rows and the file name. */
  function NormalizeRows(rows: seq<Row>, filename: string): seq<Row> {
    NormalizeFrom(rows, FileDate(filename))
  }

  /** The run's snapshot date once the first `n` rows have been read. */
  function SnapshotAfter(rows: seq<Row>, state: Option<string>, n: nat): Option<string>
    requires n <= |rows|
  {
    if n == 0 then state else SnapshotAfter(rows[1..], NextSnapshot(state, rows[0]), n - 1)
  }

  lemma {:induction false} NormalizeFromLength(rows: seq<Row>, state: Option<string>)
    ensures |NormalizeFrom(rows, state)| == |rows|
  {
    if rows != [] {
      NormalizeFromLength(rows[1..], NextSnapshot(state, rows[0]));
    }
  }

  /** Output row `i` is input row `i` stamped with the date known after reading
      rows 0..i. */
  lemma {:induction false} NormalizeFromIndex(rows: seq<Row>, state: Option<string>, i: nat)
    requires i < |rows|
    ensures |NormalizeFrom(rows, state)| == |rows|
    ensures NormalizeFrom(rows, state)[i] == Stamp(rows[i], SnapshotAfter(rows, state, i + 1))
  {
    NormalizeFromLength(rows, state);
    if i > 0 {
      var s := NextSnapshot(state, rows[0]);
      NormalizeFromIndex(rows[1..], s, i - 1);
      assert rows[1..][i - 1] == rows[i];
    }
  }

  /** One output row per input row, row `i` stamped with the date known after
      reading rows 0..i. */
  lemma NormalizeFromAt(rows: seq<Row>, state: Option<string>)
    ensures |NormalizeFrom(rows, state)| == |rows|
    ensures forall i :: 0 <= i < |rows| ==>
      NormalizeFrom(rows, state)[i] == Stamp(rows[i], SnapshotAfter(rows, state, i + 1))
  {
    NormalizeFromLength(rows, state);
    forall i | 0 <= i < |rows|
      ensures NormalizeFrom(rows, state)[i] == Stamp(rows[i], SnapshotAfter(rows, state, i + 1))
    {
      NormalizeFromIndex(rows, state, i);
    }
  }

  lemma {:induction false} SnapshotAfterStep(rows: seq<Row>, state: Option<string>, n: nat)
    requires n < |rows|
    ensures SnapshotAfter(rows, state, n + 1) == NextSnapshot(SnapshotAfter(rows, state, n), rows[n])
  {
    if n > 0 {
      SnapshotAfterStep(rows[1..], NextSnapshot(state, rows[0]), n - 1);
      assert rows[1..][n - 1] == rows[n];
    }
  }

  /** `parse_csv_rows` after CSV decoding: a loop carrying the snapshot date. */
  method ParseCsvRows(rows: seq<Row>, filename: string) returns (out: seq<Row>)
    ensures out == NormalizeRows(rows, filename)
  {
    var snapshotDate := if filename != "" then SnapshotDateFromFilename(filename) else None;
    ghost var init := snapshotDate;
    ghost var expected := NormalizeFrom(rows, init);
    NormalizeFromLength(rows, init);
    out := [];
    var i := 0;
    while i < |rows|
      invariant 0 <= i <= |rows|
      invariant out == expected[..i]
      invariant snapshotDate == SnapshotAfter(rows, init, i)
    {
      SnapshotAfterStep(rows, init, i);
      NormalizeFromIndex(rows, init, i);
      var r;
      snapshotDate, r := StampRow(snapshotDate, rows[i]);
      assert expected[..i + 1] == expected[..i] + [r];
      out := out + [r];
      i := i + 1;
    }
    assert expected[..|rows|] == expected;
  }

  /** The body of the loop of `parse_csv_rows`: update the carried snapshot
      date from the row, then stamp the row with it. */
  method StampRow(snapshotDate: Option<string>, row: Row) returns (next: Option<string>, r: Row)
    ensures next == NextSnapshot(snapshotDate, row)
    ensures r == Stamp(row, next)
  {
    next := snapshotDate;
    var snap := next;
    if !Truthy(snap) {
      snap := FindField(row, "snapshotdate");
      if !Truthy(snap) {
        snap := FindField(row, "snapshot_date");
      }
    }
    if Truthy(snap) {
      next := if next.None? then Some(Strip(snap.value)) else next;
    }
    r := row;
    if Truthy(next) {
      r := SetField(r, "snapshot_date", next.value);
    }
  }

  /** Once the date is known it never changes. */
  lemma {:induction false} SnapshotAfterKeeps(rows: seq<Row>, d: string, n: nat)
    requires n <= |rows|
    ensures SnapshotAfter(rows, Some(d), n) == Some(d)
  {
    if n > 0 {
      SnapshotAfterKeeps(rows[1..], d, n - 1);
    }
  }

  /** A fixed truthy date stamps every row with that date. */
  lemma {:induction false} NormalizeFromFixed(rows: seq<Row>, d: string)
    requires d != ""
    ensures NormalizeFrom(rows, Some(d)) == seq(|rows|, i requires 0 <= i < |rows| => SetField(rows[i], "snapshot_date", d))
  {
    if rows != [] {
      NormalizeFromFixed(rows[1..], d);
    }
  }

  /** With a date in the file name, every output row carries it as "snapshot_date". */
  lemma FilenameDateStampsAll(rows: seq<Row>, filename: string, d: string)
    requires FileDate(filename) == Some(d)
    ensures |NormalizeRows(rows, filename)| == |rows|
    ensures forall i :: 0 <= i < |rows| ==> NormalizeRows(rows, filename)[i] == SetField(rows[i], "snapshot_date", d)
  {
    NormalizeFromFixed(rows, d);
  }

  /** A fixed date that is the empty string (a whitespace-only column) stamps nothing. */
  lemma {:induction false} NormalizeFromEmpty(rows: seq<Row>)
    ensures NormalizeFrom(rows, Some("")) == rows
  {
    if rows != [] {
      NormalizeFromEmpty(rows[1..]);
    }
  }

  /** With no date yet, rows with no truthy snapshot column pass through unchanged. */
  lemma {:induction false} NormalizeFromUnset(rows: seq<Row>, f: nat)
    requires f <= |rows|
    requires forall j :: 0 <= j < f ==> !Truthy(SnapshotColumn(rows[j]))
    ensures NormalizeFrom(rows, None) == rows[..f] + NormalizeFrom(rows[f..], None)
  {
    if f > 0 {
      assert !Truthy(SnapshotColumn(rows[0]));
      assert NormalizeFrom(rows, None) == [rows[0]] + NormalizeFrom(rows[1..], None);
      forall j | 0 <= j < f - 1 ensures !Truthy(SnapshotColumn(rows[1..][j])) {
        assert rows[1..][j] == rows[j + 1];
      }
      NormalizeFromUnset(rows[1..], f - 1);
      assert rows[1..][..f - 1] == rows[1..f];
      assert rows[1..][f - 1..] == rows[f..];
      assert rows[..f] == [rows[0]] + rows[1..f];
      RowsAssoc([rows[0]], rows[1..f], NormalizeFrom(rows[f..], None));
    }
  }

  lemma RowsAssoc(a: seq<Row>, b: seq<Row>, c: seq<Row>)
    ensures a + (b + c) == (a + b) + c
  {
  }

  /** Without a file-name date, the first row with a truthy snapshot column fixes
      the stripped date for itself and every later row; earlier rows are untouched. */
  lemma FirstRowDateStampsRest(rows: seq<Row>, f: nat)
    requires f < |rows|
    requires Truthy(SnapshotColumn(rows[f]))
    requires forall j :: 0 <= j < f ==> !Truthy(SnapshotColumn(rows[j]))
    ensures |NormalizeFrom(rows, None)| == |rows|
    ensures forall i :: 0 <= i < f ==> NormalizeFrom(rows, None)[i] == rows[i]
    ensures forall i :: f <= i < |rows| ==>
      NormalizeFrom(rows, None)[i] == Stamp(rows[i], Some(Strip(SnapshotColumn(rows[f]).value)))
  {
    var d := Strip(SnapshotColumn(rows[f]).value);
    NormalizeFromUnset(rows, f);
    var tail := rows[f..];
    assert tail[0] == rows[f];
    assert NormalizeFrom(tail, None) == [Stamp(rows[f], Some(d))] + NormalizeFrom(tail[1..], Some(d));
    if d == "" {
      NormalizeFromEmpty(tail[1..]);
    } else {
      NormalizeFromFixed(tail[1..], d);
    }
    forall i | f <= i < |rows|
      ensures NormalizeFrom(rows, None)[i] == Stamp(rows[i], Some(d))
    {
      if i > f {
        assert tail[1..][i - f - 1] == rows[i];
      }
    }
  }

  /** No file-name date and no truthy snapshot column anywhere: rows pass through. */
  lemma NoDateAnywhere(rows: seq<Row>, filename: string)
    requires FileDate(filename).None?
    requires forall j :: 0 <= j < |rows| ==> !Truthy(SnapshotColumn(rows[j]))
    ensures NormalizeRows(rows, filename) == rows
  {
    NormalizeFromUnset(rows, |rows|);
    assert rows[..|rows|] == rows;
  }
}
