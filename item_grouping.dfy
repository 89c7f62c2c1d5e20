/**
 * Replenishment calculator and supplier grouping: for every usable CSV row a
 * latest PO date, a latest delivery date, their timing labels and a
 * 26-week-coverage order quantity; rows are then gathered per supplier in the
 * order suppliers are first seen.
 *
 * Dates are day numbers, the proleptic Gregorian ordinals of
 * `date.toordinal()`. Turning the snapshot text into a day number
 * (`strptime`) and a day number back into "YYYY-MM-DD" (`strftime`) are the
 * two halves of a `Calendar`, which the caller supplies.
 */
module ItemGrouping {
  import opened Wrappers
  import opened Text
  import opened Json
  import opened PyFloat
  import opened CsvUtils

  const ImportLeadWeeks: int := 16
  const InternalLeadWeeks: int := 2
  const TotalLeadWeeks: int := ImportLeadWeeks + InternalLeadWeeks
  const CoverageWeeksAfterDelivery: int := 26

  /** The range of `datetime`: 0001-01-01 is day 1 and 9999-12-31 is day 3652059. */
  const MinDay: int := 1
  const MaxDay: int := 3652059
  /** `timedelta` takes its day count as a C int and allows at most 999999999 days. */
  const MaxCInt: int := 0x7FFF_FFFF
  const MaxDeltaDays: int := 999999999
  /** 2^1024 - 2^970: a double product at least this large rounds to infinity. */
  const DoubleOverflow: real :=
    179769313486231580793728971405303415079934132710037826936173778980444968292764750946649017977587207096330286416692887910946555547851940402630657488671505820681908902000708383676273854845817711531764475730270069855571366959622842914819860834936475292719074168444365510704342711559699508093042880177904174497792.0

  /** `parse` is `strptime(text + " 00:00:00", "%Y-%m-%d %H:%M:%S")` on already
      stripped text: the day, or the message of the ValueError it raises (a
      format mismatch, "day is out of range for month", "unconverted data
      remains: ..."); `format` is `strftime("%Y-%m-%d")`. */
  datatype Calendar = Calendar(parse: string -> Result<int, string>, format: int -> string)

  /** The exceptions grouping can raise: the ValueErrors of `_parse_date`,
      `strptime` and `float`, and the OverflowErrors of the date arithmetic. */
  datatype GroupingError =
    | MissingSnapshotDate(text: string)
    | UnparsableSnapshotDate(text: string, message: string)
    | NotANumber(text: string)
    | InfiniteDays
    | DaysBeyondCInt
    | DaysBeyondDelta(days: nat)
    | DateOutOfRange

  const FloatErrorPrefix := "could not convert string to float: "

  /** `str(e)` for each error. A float error quotes the cell with `repr`, so
      the cell can be read back from the message. */
  function ErrorMessage(e: GroupingError): (m: string)
    ensures e.MissingSnapshotDate? ==> m == "snapshot_date is missing or invalid: " + e.text
    ensures e.UnparsableSnapshotDate? ==> m == e.message
    ensures e.NotANumber? ==> StartsWith(m, FloatErrorPrefix) && Unrepr(m[|FloatErrorPrefix|..]) == Some(e.text)
    ensures e.InfiniteDays? ==> m == "cannot convert float infinity to integer"
    ensures e.DaysBeyondCInt? ==> m == "Python int too large to convert to C int"
    ensures e.DaysBeyondDelta? ==>
      m == "days=" + NatToString(e.days) + "; must have magnitude <= 999999999"
    ensures e.DateOutOfRange? ==> m == "date value out of range"
  {
    match e
    case MissingSnapshotDate(t) => "snapshot_date is missing or invalid: " + t
    case UnparsableSnapshotDate(_, message) => message
    case NotANumber(t) =>
      ReprRoundTrip(t);
      assert (FloatErrorPrefix + Repr(t))[|FloatErrorPrefix|..] == Repr(t);
      FloatErrorPrefix + Repr(t)
    case InfiniteDays => "cannot convert float infinity to integer"
    case DaysBeyondCInt => "Python int too large to convert to C int"
    case DaysBeyondDelta(d) => "days=" + NatToString(d) + "; must have magnitude <= 999999999"
    case DateOutOfRange => "date value out of range"
  }

  // ----------------------------------------------------------- _parse_date

  /** `_parse_date`: an empty string raises; otherwise the stripped text is parsed. */
  function ParseDate(cal: Calendar, s: string): (r: Result<int, GroupingError>)
    ensures s == "" ==> r == Err(MissingSnapshotDate(s))
    ensures s != "" && cal.parse(Strip(s)).Err? ==>
      r == Err(UnparsableSnapshotDate(Strip(s), cal.parse(Strip(s)).error))
    ensures s != "" && cal.parse(Strip(s)).Ok? ==> r == Ok(cal.parse(Strip(s)).value)
  {
    if s == "" then Err(MissingSnapshotDate(s))
    else
      match cal.parse(Strip(s))
      case Err(m) => Err(UnparsableSnapshotDate(Strip(s), m))
      case Ok(d) => Ok(d)
  }

  // ------------------------------------------------ numbers from CSV cells

  /** `float(raw)` on a looked-up cell: `None` for an absent cell (TypeError)
      and for text that is not a number (ValueError). The functions below take
      this conversion's result rather than the raw cell. */
  function FloatOf(raw: Option<string>): Option<real> {
    match raw
    case None => None
    case Some(s) => ParseFloat(s)
  }

  /** Python's `int(x)`: truncation toward zero. */
  function Trunc(x: real): (r: int)
    ensures x >= 0.0 ==> 0 <= r && r as real <= x < r as real + 1.0
    ensures x < 0.0 ==> r <= 0 && r as real - 1.0 < x <= r as real
  {
    if x >= 0.0 then x.Floor else -((-x).Floor)
  }

  /** The weeks-to-out-of-stock actually used, given `float(wks_to_oos_raw)`
      (`None` where it raises): the value when positive, else the 18-week lead time. */
  function EffectiveWeeks(wks: Option<real>): real {
    match wks
    case Some(w) => if w > 0.0 then w else TotalLeadWeeks as real
    case None => TotalLeadWeeks as real
  }

  /** A missing, non-numeric or non-positive value is replaced by 16 + 2 = 18 weeks;
      a positive one is used as is. */
  lemma EffectiveWeeksDefault(wks: Option<real>)
    ensures EffectiveWeeks(wks) > 0.0
    ensures (wks.None? || wks.value <= 0.0) ==> EffectiveWeeks(wks) == 18.0
    ensures wks.Some? && wks.value > 0.0 ==> EffectiveWeeks(wks) == wks.value
  {
  }

  // ------------------------------------------ build_recommendations_for_item

  /** The two recommended days, as day numbers. */
  datatype Schedule = Schedule(poDay: int, deliveryDay: int)

  /** Delivery: the snapshot plus the whole days of stock left; PO: the delivery
      less the total lead time, but never before the snapshot. `int(weeks * 7)`
      raises on an infinite product, `timedelta` on a day count beyond a C int
      or beyond its 999999999 days, and each of the two additions when its
      result leaves the calendar's range; the clamp comes after both. */
  function ScheduleFor(snapshot: int, wks: Option<real>): Result<Schedule, GroupingError> {
    var x := EffectiveWeeks(wks) * 7.0;
    if x >= DoubleOverflow then Err(InfiniteDays)
    else
      var days := Trunc(x);
      if days > MaxCInt then Err(DaysBeyondCInt)
      else if days > MaxDeltaDays then Err(DaysBeyondDelta(days))
      else
        var delivery := snapshot + days;
        if !(MinDay <= delivery <= MaxDay) then Err(DateOutOfRange)
        else
          var po := delivery - TotalLeadWeeks * 7;
          if !(MinDay <= po <= MaxDay) then Err(DateOutOfRange)
          else Ok(Schedule(if po < snapshot then snapshot else po, delivery))
  }

  /** snapshot <= PO date <= delivery date, with the delivery `trunc(weeks * 7)`
      days after the snapshot and the PO date `max(snapshot, delivery - 126)`,
      all within the calendar's range. */
  lemma ScheduleBounds(snapshot: int, wks: Option<real>)
    ensures var r := ScheduleFor(snapshot, wks);
      r.Ok? ==>
        var s := r.value;
        && snapshot <= s.poDay <= s.deliveryDay
        && MinDay <= s.poDay && s.deliveryDay <= MaxDay
        && s.deliveryDay - snapshot == Trunc(EffectiveWeeks(wks) * 7.0)
        && (s.deliveryDay - 126 >= snapshot ==> s.poDay == s.deliveryDay - 126)
        && (s.deliveryDay - 126 < snapshot ==> s.poDay == snapshot)
  {
    EffectiveWeeksDefault(wks);
  }

  /** For a snapshot in range the schedule raises exactly when the product is
      infinite, or the delivery day lies past 9999-12-31, or the day 126 days
      before it lies before 0001-01-01 (checked before the clamp); the error
      is the first check that fails. */
  lemma ScheduleRaises(snapshot: int, wks: Option<real>)
    requires MinDay <= snapshot <= MaxDay
    ensures var x := EffectiveWeeks(wks) * 7.0;
      var d := Trunc(x);
      && (ScheduleFor(snapshot, wks).Err? <==>
            x >= DoubleOverflow || snapshot + d > MaxDay || snapshot + d - 126 < MinDay)
      && (x >= DoubleOverflow ==> ScheduleFor(snapshot, wks) == Err(InfiniteDays))
      && (x < DoubleOverflow && d > MaxCInt ==> ScheduleFor(snapshot, wks) == Err(DaysBeyondCInt))
      && (x < DoubleOverflow && MaxDeltaDays < d <= MaxCInt ==>
            ScheduleFor(snapshot, wks) == Err(DaysBeyondDelta(d)))
      && (x < DoubleOverflow && d <= MaxDeltaDays && (snapshot + d > MaxDay || snapshot + d - 126 < MinDay) ==>
            ScheduleFor(snapshot, wks) == Err(DateOutOfRange))
  {
    EffectiveWeeksDefault(wks);
    var x := EffectiveWeeks(wks) * 7.0;
    assert x > 0.0;
    assert Trunc(x) >= 0;
  }

  /** 500000 weeks from 2025-01-01 runs past 9999-12-31; one week from
      0001-01-05 puts the unclamped PO date before 0001-01-01; 150000000 weeks
      is beyond `timedelta`, 1e9 weeks beyond a C int and 1e400 weeks infinite. */
  lemma ScheduleOverflowExamples()
    ensures ScheduleFor(739252, Some(500000.0)) == Err(DateOutOfRange)
    ensures ScheduleFor(5, Some(1.0)) == Err(DateOutOfRange)
    ensures ScheduleFor(739252, Some(150000000.0)) == Err(DaysBeyondDelta(1050000000))
    ensures ScheduleFor(739252, Some(1000000000.0)) == Err(DaysBeyondCInt)
    ensures ScheduleFor(739252, Some(10000000000000000000000000000000000000000000000000000000000000000000000000000000000000000000000000000000000000000000000000000000000000000000000000000000000000000000000000000000000000000000000000000000000000000000000000000000000000000000000000000000000000000000000000000000000000000000000000000000000000000000000000000000000000000000000000000000000000000000000000000000000000000000000000000000000000000.0)) == Err(InfiniteDays)
    ensures ScheduleFor(739252, Some(2.0)) == Ok(Schedule(739252, 739266))
  {
    assert (3500000.0).Floor == 3500000;
    assert (7.0).Floor == 7;
    assert (1050000000.0).Floor == 1050000000;
    assert (7000000000.0).Floor == 7000000000;
    assert (14.0).Floor == 14;
  }

  /** Without a usable weeks value the delivery is 126 days out and the PO is
      due now, unless the delivery lies past 9999-12-31. */
  lemma ScheduleDefault(snapshot: int, wks: Option<real>)
    requires wks.None? || wks.value <= 0.0
    ensures ScheduleFor(snapshot, wks) ==
      if MinDay <= snapshot && snapshot + 126 <= MaxDay then Ok(Schedule(snapshot, snapshot + 126))
      else Err(DateOutOfRange)
  {
    EffectiveWeeksDefault(wks);
    assert 18.0 * 7.0 == 126.0;
  }

  /** Python's `round(x)`: to the nearest integer, ties to the even one. */
  function RoundHalfEven(x: real): (r: int)
    ensures x - 0.5 <= r as real <= x + 0.5
    ensures (r as real == x - 0.5 || r as real == x + 0.5) ==> r % 2 == 0
  {
    var f := x.Floor;
    var frac := x - f as real;
    if frac < 0.5 then f
    else if frac > 0.5 then f + 1
    else if f % 2 == 0 then f else f + 1
  }

  /** `_build_timing_label_from_weeks`, with inclusive upper bounds. */
  function TimingLabel(weeks: real): string {
    if weeks <= 0.5 then "immediately"
    else if weeks <= 1.0 then "within 1 week"
    else if weeks <= 2.0 then "within 2 weeks"
    else if weeks <= 4.0 then "within 2\U{2013}4 weeks"
    else if weeks <= 8.0 then "within 4\U{2013}8 weeks"
    else "within " + NatToString(RoundHalfEven(weeks)) + " weeks"
  }

  /** The label for a whole number of days after the snapshot (weeks = days / 7). */
  lemma DaysLabel(days: int)
    requires days >= 0
    ensures days <= 3 ==> TimingLabel(days as real / 7.0) == "immediately"
    ensures 4 <= days <= 7 ==> TimingLabel(days as real / 7.0) == "within 1 week"
    ensures 8 <= days <= 14 ==> TimingLabel(days as real / 7.0) == "within 2 weeks"
    ensures 15 <= days <= 28 ==> TimingLabel(days as real / 7.0) == "within 2\U{2013}4 weeks"
    ensures 29 <= days <= 56 ==> TimingLabel(days as real / 7.0) == "within 4\U{2013}8 weeks"
    ensures days >= 57 ==> TimingLabel(days as real / 7.0) == "within " + NatToString((days + 3) / 7) + " weeks"
  {
    if days >= 57 {
      RoundedWeeks(days);
    }
  }

  /** `round(days / 7)` is `(days + 3) / 7`: a remainder of 3 days rounds down, 4 up. */
  lemma RoundedWeeks(days: nat)
    ensures RoundHalfEven(days as real / 7.0) == (days + 3) / 7
  {
    var w := days as real / 7.0;
    var q, r := days / 7, days % 7;
    assert days == 7 * q + r;
    assert w == q as real + r as real / 7.0;
    assert w.Floor == q;
    if r <= 3 {
      assert RoundHalfEven(w) == q;
    } else {
      assert RoundHalfEven(w) == q + 1;
    }
  }

  /** The 0.5-week bound is inclusive and exactly eight weeks is still "4–8". */
  lemma LabelBoundaries()
    ensures TimingLabel(0.5) == "immediately"
    ensures TimingLabel(0.51) == "within 1 week"
    ensures TimingLabel(8.0) == "within 4\U{2013}8 weeks"
    ensures TimingLabel(8.4) == "within 8 weeks"
    ensures TimingLabel(8.5) == "within 8 weeks"
    ensures TimingLabel(9.5) == "within 10 weeks"
  {
    assert RoundHalfEven(8.4) == 8;
    assert RoundHalfEven(8.5) == 8;
    assert RoundHalfEven(9.5) == 10;
    assert NatToString(10) == NatToString(1) + [DigitChar(0)];
  }

  /** The dictionary `build_recommendations_for_item` returns. */
  datatype Recommendation = Recommendation(
    poDate: string, deliveryDate: string, poTiming: string, deliveryTiming: string)

  /** `build_recommendations_for_item(snapshot_text, raw)`, given `wks = float(raw)`:
      the error of the date parse or of the schedule, or the formatted days
      and the labels of their distances from the snapshot. */
  function BuildRecommendations(cal: Calendar, snapshotText: string, wks: Option<real>)
    : (r: Result<Recommendation, GroupingError>)
    ensures ParseDate(cal, snapshotText).Err? ==> r == Err(ParseDate(cal, snapshotText).error)
    ensures ParseDate(cal, snapshotText).Ok? ==>
      var snap := ParseDate(cal, snapshotText).value;
      && (ScheduleFor(snap, wks).Err? ==> r == Err(ScheduleFor(snap, wks).error))
      && (ScheduleFor(snap, wks).Ok? ==>
            var s := ScheduleFor(snap, wks).value;
            r == Ok(Recommendation(cal.format(s.poDay), cal.format(s.deliveryDay),
                                   TimingLabel((s.poDay - snap) as real / 7.0),
                                   TimingLabel((s.deliveryDay - snap) as real / 7.0))))
  {
    match ParseDate(cal, snapshotText)
    case Err(e) => Err(e)
    case Ok(snap) => Recommend(cal, snap, ScheduleFor(snap, wks))
  }

  /** The recommendation for a parsed snapshot day and its schedule. */
  function Recommend(cal: Calendar, snap: int, schedule: Result<Schedule, GroupingError>)
    : (r: Result<Recommendation, GroupingError>)
    ensures schedule.Err? ==> r == Err(schedule.error)
    ensures schedule.Ok? ==>
      var s := schedule.value;
      r == Ok(Recommendation(cal.format(s.poDay), cal.format(s.deliveryDay),
                             TimingLabel((s.poDay - snap) as real / 7.0),
                             TimingLabel((s.deliveryDay - snap) as real / 7.0)))
  {
    match schedule
    case Err(e) => Err(e)
    case Ok(s) =>
      Ok(Recommendation(cal.format(s.poDay), cal.format(s.deliveryDay),
                        TimingLabel((s.poDay - snap) as real / 7.0),
                        TimingLabel((s.deliveryDay - snap) as real / 7.0)))
  }

  /** With no usable weeks value the PO is due "immediately" and delivery is
      "within 18 weeks", unless the snapshot is within 126 days of 9999-12-31. */
  lemma DefaultRecommendationLabels(cal: Calendar, snapshotText: string, wks: Option<real>)
    requires ParseDate(cal, snapshotText).Ok?
    requires wks.None? || wks.value <= 0.0
    ensures var snap := ParseDate(cal, snapshotText).value;
      BuildRecommendations(cal, snapshotText, wks).Ok? <==> MinDay <= snap && snap + 126 <= MaxDay
    ensures BuildRecommendations(cal, snapshotText, wks).Ok? ==>
      && BuildRecommendations(cal, snapshotText, wks).value.poTiming == "immediately"
      && BuildRecommendations(cal, snapshotText, wks).value.deliveryTiming == "within 18 weeks"
  {
    var snap := ParseDate(cal, snapshotText).value;
    ScheduleDefault(snap, wks);
    if MinDay <= snap && snap + 126 <= MaxDay {
      assert (snap - snap) as real / 7.0 == 0.0;
      assert (snap + 126 - snap) as real / 7.0 == 18.0;
      EighteenWeeks();
    }
  }

  lemma EighteenWeeks()
    ensures TimingLabel(18.0) == "within 18 weeks"
  {
    assert RoundHalfEven(18.0) == 18;
    assert NatToString(18) == NatToString(1) + [DigitChar(8)];
  }

  // ------------------------------- compute_suggested_quantity_at_latest_delivery

  /** `int(q) + (1 if q % 1 else 0)`: for q > 0, the least integer not below q. */
  function RoundUp(q: real): (r: int)
    requires q > 0.0
    ensures r as real >= q && (r - 1) as real < q
  {
    var t := Trunc(q);
    t + (if q - t as real != 0.0 then 1 else 0)
  }

  /** `compute_suggested_quantity_at_latest_delivery`, given `float(stock_raw)` and
      `float(wks_raw)` (`None` where a conversion raises): demand per week times the
      26-week coverage, rounded up; `None` unless both are numbers above zero. */
  function SuggestedQuantity(stock: Option<real>, wks: Option<real>): Option<int> {
    if stock.None? || wks.None? then None
    else if !(stock.value > 0.0 && wks.value > 0.0) then None
    else
      var orderQty := stock.value / wks.value * CoverageWeeksAfterDelivery as real;
      if orderQty <= 0.0 then Some(0) else Some(RoundUp(orderQty))
  }

  /** A quantity exists exactly when both values are numbers above zero (zero
      stock gives none), and it is the ceiling of stock * 26 / weeks. */
  lemma SuggestedQuantitySpec(stock: Option<real>, wks: Option<real>)
    ensures SuggestedQuantity(stock, wks).Some? <==>
      stock.Some? && wks.Some? && stock.value > 0.0 && wks.value > 0.0
    ensures SuggestedQuantity(stock, wks).Some? ==>
      var q := stock.value * 26.0 / wks.value;
      var n := SuggestedQuantity(stock, wks).value;
      n >= 1 && n as real >= q && (n - 1) as real < q
  {
    if SuggestedQuantity(stock, wks).Some? {
      var st, w := stock.value, wks.value;
      assert st / w * 26.0 == st * 26.0 / w;
      assert st / w * 26.0 > 0.0;
    }
  }

  lemma QuantityExamples()
    ensures SuggestedQuantity(Some(130.0), Some(26.0)) == Some(130)
    ensures SuggestedQuantity(Some(100.0), Some(25.0)) == Some(104)
    ensures SuggestedQuantity(Some(10.0), Some(3.0)) == Some(87)
    ensures SuggestedQuantity(Some(0.0), Some(3.0)) == None
    ensures SuggestedQuantity(Some(5.0), Some(-1.0)) == None
    ensures SuggestedQuantity(None, Some(3.0)) == None
  {
    assert 130.0 / 26.0 * 26.0 == 130.0;
    assert 100.0 / 25.0 * 26.0 == 104.0;
    assert (130.0).Floor == 130 && (104.0).Floor == 104;
    var q := 10.0 / 3.0 * 26.0;
    assert 86.0 < q < 87.0;
    assert q.Floor == 86;
  }

  // ------------------------------------------------------ one row, one item

  /** The item dictionary built for a usable row. */
  datatype Item = Item(
    itemCode: string,
    itemName: string,
    riskLevel: string,
    currentStock: Option<real>,
    wksToOos: Option<real>,
    suggestedQuantity: Option<int>,
    recommendation: Recommendation)

  /** A usable row: its supplier, its group-forming snapshot date and its item. */
  datatype Entry = Entry(supplier: string, snapshotDate: string, item: Item)

  datatype RowOutcome = Skip | Keep(entry: Entry) | Fail(error: GroupingError)

  /** `find_field(row, a) or find_field(row, b)`. */
  function Field(row: Row, a: string, b: string): Option<string> {
    Or(Lookup(row, a), Lookup(row, b))
  }

  /** `str(find_field(row, a) or find_field(row, b) or "").strip()`. */
  function TextField(row: Row, a: string, b: string): string {
    var f := Field(row, a, b);
    Strip(if Truthy(f) then f.value else "")
  }

  /** The cells one row contributes, as the loop body reads them. */
  datatype Cells = Cells(
    snapshotDate: string, supplier: string, riskLevel: string,
    itemCode: Option<string>, itemName: Option<string>,
    stockRaw: Option<string>, wksRaw: Option<string>)

  function ReadCells(row: Row): Cells {
    Cells(TextField(row, "snapshotdate", "snapshot_date"),
          TextField(row, "suppliername", "supplier"),
          TextField(row, "risklevel", "risk_level"),
          Lookup(row, "itemcode"),
          Field(row, "itemname", "item_name"),
          Field(row, "currentstock", "current_stock"),
          Field(row, "wkstooos", "wks_to_oos"))
  }

  /** The text cells are stripped. */
  lemma ReadCellsTrimmed(row: Row)
    ensures Trimmed(ReadCells(row).snapshotDate) && Trimmed(ReadCells(row).supplier)
    ensures Trimmed(ReadCells(row).riskLevel)
  {
    var f1 := Field(row, "snapshotdate", "snapshot_date");
    var f2 := Field(row, "suppliername", "supplier");
    var f3 := Field(row, "risklevel", "risk_level");
    StripShape(if Truthy(f1) then f1.value else "");
    StripShape(if Truthy(f2) then f2.value else "");
    StripShape(if Truthy(f3) then f3.value else "");
  }

  /** `float(raw) if raw is not None else None`: a cell that is present but not a
      number (the empty cell included) raises. */
  function StrictFloat(raw: Option<string>): Result<Option<real>, GroupingError> {
    if raw.None? then Ok(None)
    else if FloatOf(raw).None? then Err(NotANumber(raw.value))
    else Ok(FloatOf(raw))
  }

  /** The loop body of `group_by_supplier_and_recommend` once the cells are read. */
  function ClassifyCells(cal: Calendar, c: Cells): RowOutcome {
    if c.snapshotDate == "" || c.supplier == "" || c.itemCode.None? || c.itemName.None? then Skip
    else
      match BuildRecommendations(cal, c.snapshotDate, FloatOf(c.wksRaw))
      case Err(e) => Fail(e)
      case Ok(rec) =>
        var qty := SuggestedQuantity(FloatOf(c.stockRaw), FloatOf(c.wksRaw));
        match StrictFloat(c.stockRaw)
        case Err(e) => Fail(e)
        case Ok(stock) =>
          match StrictFloat(c.wksRaw)
          case Err(e) => Fail(e)
          case Ok(wks) =>
            Keep(Entry(c.supplier, c.snapshotDate,
                       Item(c.itemCode.value, c.itemName.value, if c.riskLevel == "" then "N/A" else c.riskLevel,
                            stock, wks, qty, rec)))
  }

  function ClassifyRow(cal: Calendar, row: Row): RowOutcome {
    ClassifyCells(cal, ReadCells(row))
  }

  /** Which rows are dropped, which raise, and what a kept row carries. */
  lemma ClassifyCellsSpec(cal: Calendar, c: Cells)
    ensures ClassifyCells(cal, c).Skip? <==>
      (c.snapshotDate == "" || c.supplier == "" || c.itemCode.None? || c.itemName.None?)
    ensures !ClassifyCells(cal, c).Skip? && BuildRecommendations(cal, c.snapshotDate, FloatOf(c.wksRaw)).Err? ==>
      ClassifyCells(cal, c) == Fail(BuildRecommendations(cal, c.snapshotDate, FloatOf(c.wksRaw)).error)
    ensures !ClassifyCells(cal, c).Skip? && BuildRecommendations(cal, c.snapshotDate, FloatOf(c.wksRaw)).Ok? ==>
      (ClassifyCells(cal, c).Fail? <==> StrictFloat(c.stockRaw).Err? || StrictFloat(c.wksRaw).Err?)
    ensures ClassifyCells(cal, c).Keep? ==>
      var e := ClassifyCells(cal, c).entry;
      && e.supplier == c.supplier != "" && e.snapshotDate == c.snapshotDate != ""
      && e.item.itemCode == c.itemCode.value && e.item.itemName == c.itemName.value
      && e.item.riskLevel == (if c.riskLevel == "" then "N/A" else c.riskLevel)
      && e.item.currentStock == FloatOf(c.stockRaw) && e.item.wksToOos == FloatOf(c.wksRaw)
      && (c.stockRaw.None? ==> e.item.currentStock.None?)
      && BuildRecommendations(cal, c.snapshotDate, FloatOf(c.wksRaw)) == Ok(e.item.recommendation)
      && e.item.suggestedQuantity == SuggestedQuantity(FloatOf(c.stockRaw), FloatOf(c.wksRaw))
  {
  }

  /** A usable row whose stock cell is present but empty makes grouping fail:
      only an absent column gives `None`. */
  lemma EmptyStockCellFails(cal: Calendar, c: Cells)
    requires !ClassifyCells(cal, c).Skip?
    requires BuildRecommendations(cal, c.snapshotDate, FloatOf(c.wksRaw)).Ok?
    requires c.stockRaw == Some("")
    ensures ClassifyCells(cal, c) == Fail(NotANumber(""))
  {
    assert ParseFloat("") == None;
  }

  // ------------------------------------------------------------ the grouping

  /** What the loop body does with each row, in row order. */
  function Outcomes(cal: Calendar, rows: seq<Row>): (outs: seq<RowOutcome>)
    ensures |outs| == |rows|
  {
    if rows == [] then [] else Outcomes(cal, rows[..|rows| - 1]) + [ClassifyRow(cal, rows[|rows| - 1])]
  }

  lemma {:induction false} OutcomesAt(cal: Calendar, rows: seq<Row>, i: nat)
    requires i < |rows|
    ensures Outcomes(cal, rows)[i] == ClassifyRow(cal, rows[i])
  {
    if i < |rows| - 1 {
      OutcomesAt(cal, rows[..|rows| - 1], i);
    }
  }

  /** The entries of the rows read so far, or the first error raised. */
  function Collect(outs: seq<RowOutcome>): Result<seq<Entry>, GroupingError> {
    if outs == [] then Ok([])
    else
      match Collect(outs[..|outs| - 1])
      case Err(e) => Err(e)
      case Ok(es) =>
        match outs[|outs| - 1]
        case Skip => Ok(es)
        case Keep(e) => Ok(es + [e])
        case Fail(err) => Err(err)
  }

  /** The distinct suppliers of `es`, in order of first appearance. */
  function Suppliers(es: seq<Entry>): seq<string> {
    if es == [] then []
    else
      var prev := Suppliers(es[..|es| - 1]);
      if es[|es| - 1].supplier in prev then prev else prev + [es[|es| - 1].supplier]
  }

  /** The items of one supplier, in row order. */
  function ItemsOf(es: seq<Entry>, s: string): seq<Item> {
    if es == [] then []
    else ItemsOf(es[..|es| - 1], s) + (if es[|es| - 1].supplier == s then [es[|es| - 1].item] else [])
  }

  predicate HasSupplier(es: seq<Entry>, s: string) {
    exists i :: 0 <= i < |es| && es[i].supplier == s
  }

  /** Index of the first entry of supplier `s`. */
  function FirstIndex(es: seq<Entry>, s: string): (i: nat)
    requires HasSupplier(es, s)
    ensures i < |es| && es[i].supplier == s && forall j :: 0 <= j < i ==> es[j].supplier != s
  {
    if es[0].supplier == s then 0
    else
      assert HasSupplier(es[1..], s) by {
        var k :| 0 <= k < |es| && es[k].supplier == s;
        assert es[1..][k - 1] == es[k];
      }
      1 + FirstIndex(es[1..], s)
  }

  /** One supplier group: `{snapshot_date, supplier, items}`. */
  datatype Group = Group(snapshotDate: string, supplier: string, items: seq<Item>)

  function GroupOf(es: seq<Entry>, s: string): Group
    requires HasSupplier(es, s)
  {
    Group(es[FirstIndex(es, s)].snapshotDate, s, ItemsOf(es, s))
  }

  lemma {:induction false} SuppliersMembership(es: seq<Entry>)
    ensures forall s :: s in Suppliers(es) <==> HasSupplier(es, s)
  {
    if es != [] {
      var prev := es[..|es| - 1];
      SuppliersMembership(prev);
      forall s
        ensures s in Suppliers(es) <==> HasSupplier(es, s)
      {
        if HasSupplier(prev, s) {
          var k :| 0 <= k < |prev| && prev[k].supplier == s;
          assert es[k] == prev[k];
        }
        if HasSupplier(es, s) && es[|es| - 1].supplier != s {
          var k :| 0 <= k < |es| && es[k].supplier == s;
          assert prev[k] == es[k];
        }
      }
    }
  }

  /** The group list, one group per distinct supplier in first-seen order. */
  function Grouping(es: seq<Entry>): seq<Group> {
    SuppliersMembership(es);
    seq(|Suppliers(es)|, i requires 0 <= i < |Suppliers(es)| => GroupOf(es, Suppliers(es)[i]))
  }

  /** What `group_by_supplier_and_recommend` returns for the rows, or the error it raises. */
  function GroupRows(cal: Calendar, rows: seq<Row>): Result<seq<Group>, GroupingError> {
    match Collect(Outcomes(cal, rows))
    case Err(e) => Err(e)
    case Ok(es) => Ok(Grouping(es))
  }

  lemma FirstIndexAppend(es: seq<Entry>, e: Entry, s: string)
    requires HasSupplier(es, s)
    ensures HasSupplier(es + [e], s)
    ensures FirstIndex(es + [e], s) == FirstIndex(es, s)
  {
    var i := FirstIndex(es, s);
    assert forall k :: 0 <= k < |es| ==> (es + [e])[k] == es[k];
    assert (es + [e])[i] == es[i];
  }

  lemma FirstIndexNew(es: seq<Entry>, e: Entry)
    requires !HasSupplier(es, e.supplier)
    ensures HasSupplier(es + [e], e.supplier)
    ensures FirstIndex(es + [e], e.supplier) == |es|
  {
    assert (es + [e])[|es|] == e;
    assert forall k :: 0 <= k < |es| ==> (es + [e])[k] == es[k];
  }

  /** The dict `groups` and its insertion order stand for the grouping of `es`. */
  ghost predicate GroupsMatch(es: seq<Entry>, groups: map<string, Group>, order: seq<string>) {
    && order == Suppliers(es)
    && (forall s :: s in groups <==> s in order)
    && (forall s :: s in groups ==> HasSupplier(es, s) && groups[s] == GroupOf(es, s))
  }

  lemma ItemsOfAppend(es: seq<Entry>, e: Entry, s: string)
    ensures ItemsOf(es + [e], s) == ItemsOf(es, s) + (if e.supplier == s then [e.item] else [])
  {
    assert (es + [e])[..|es|] == es;
  }

  lemma SuppliersAppend(es: seq<Entry>, e: Entry)
    ensures Suppliers(es + [e]) == if e.supplier in Suppliers(es) then Suppliers(es) else Suppliers(es) + [e.supplier]
  {
    assert (es + [e])[..|es|] == es;
  }

  /** Adding one entry keeps the group of another supplier, or of the same one
      with the item appended. */
  lemma GroupOfAppend(es: seq<Entry>, e: Entry, s: string)
    requires HasSupplier(es, s)
    ensures HasSupplier(es + [e], s)
    ensures GroupOf(es + [e], s) ==
      var g := GroupOf(es, s);
      if e.supplier == s then g.(items := g.items + [e.item]) else g
  {
    FirstIndexAppend(es, e, s);
    ItemsOfAppend(es, e, s);
    assert (es + [e])[FirstIndex(es, s)] == es[FirstIndex(es, s)];
  }

  lemma GroupOfNew(es: seq<Entry>, e: Entry)
    requires !HasSupplier(es, e.supplier)
    ensures HasSupplier(es + [e], e.supplier)
    ensures GroupOf(es + [e], e.supplier) == Group(e.snapshotDate, e.supplier, [e.item])
  {
    FirstIndexNew(es, e);
    ItemsOfAppend(es, e, e.supplier);
    ItemsOfCount(es, e.supplier);
  }

  /** Adding one entry: insert the supplier's group if it is new, then append the item. */
  lemma GroupsMatchStep(es: seq<Entry>, e: Entry, groups: map<string, Group>, order: seq<string>,
                        groups': map<string, Group>, order': seq<string>)
    requires GroupsMatch(es, groups, order)
    requires order' == if e.supplier in groups then order else order + [e.supplier]
    requires groups' ==
      var g := if e.supplier in groups then groups[e.supplier] else Group(e.snapshotDate, e.supplier, []);
      groups[e.supplier := g.(items := g.items + [e.item])]
    ensures GroupsMatch(es + [e], groups', order')
  {
    SuppliersAppend(es, e);
    SuppliersMembership(es);
    forall s | s in groups'
      ensures HasSupplier(es + [e], s) && groups'[s] == GroupOf(es + [e], s)
    {
      if s in groups {
        GroupOfAppend(es, e, s);
      } else {
        GroupOfNew(es, e);
      }
    }
  }

  /** Reading one more row. */
  lemma CollectStep(outs: seq<RowOutcome>, i: nat)
    requires i < |outs| && Collect(outs[..i]).Ok?
    ensures Collect(outs[..i + 1]) ==
      match outs[i]
      case Skip => Collect(outs[..i])
      case Keep(e) => Ok(Collect(outs[..i]).value + [e])
      case Fail(err) => Err(err)
  {
    assert outs[..i + 1][..i] == outs[..i];
  }

  /** `group_by_supplier_and_recommend`: a map from supplier to its group plus
      the map's insertion order, as in a Python dict. */
  method GroupBySupplier(cal: Calendar, rows: seq<Row>) returns (r: Result<seq<Group>, GroupingError>)
    ensures r == GroupRows(cal, rows)
  {
    ghost var outs := Outcomes(cal, rows);
    var groups: map<string, Group> := map[];
    var order: seq<string> := [];
    ghost var entries: seq<Entry> := [];
    var i := 0;
    while i < |rows|
      invariant 0 <= i <= |rows|
      invariant Collect(outs[..i]) == Ok(entries)
      invariant GroupsMatch(entries, groups, order)
    {
      var outcome := ClassifyRow(cal, rows[i]);
      OutcomesAt(cal, rows, i);
      CollectStep(outs, i);
      match outcome {
        case Skip =>
        case Fail(err) =>
          GroupRowsErr(cal, rows, i, err);
          return Err(err);
        case Keep(e) =>
          groups, order := AddEntry(groups, order, entries, e);
          entries := entries + [e];
      }
      i := i + 1;
    }
    var values := Values(groups, order, entries);
    GroupRowsOk(cal, rows, entries, values);
    r := Ok(values);
  }

  /** A row that raises ends the whole call with its error. */
  lemma GroupRowsErr(cal: Calendar, rows: seq<Row>, i: nat, err: GroupingError)
    requires i < |rows| && Collect(Outcomes(cal, rows)[..i]).Ok?
    requires ClassifyRow(cal, rows[i]) == Fail(err)
    ensures GroupRows(cal, rows) == Err(err)
  {
    var outs := Outcomes(cal, rows);
    OutcomesAt(cal, rows, i);
    CollectStep(outs, i);
    CollectErrSticky(outs, i + 1);
  }

  /** Once every row is read, the result is the grouping of the entries. */
  lemma GroupRowsOk(cal: Calendar, rows: seq<Row>, es: seq<Entry>, gs: seq<Group>)
    requires Collect(Outcomes(cal, rows)[..|rows|]) == Ok(es) && gs == Grouping(es)
    ensures GroupRows(cal, rows) == Ok(gs)
  {
    assert Outcomes(cal, rows)[..|rows|] == Outcomes(cal, rows);
  }

  /** One kept row: insert the supplier's group if it is new, then append the item. */
  method AddEntry(groups: map<string, Group>, order: seq<string>, ghost es: seq<Entry>, e: Entry)
    returns (groups': map<string, Group>, order': seq<string>)
    requires GroupsMatch(es, groups, order)
    ensures GroupsMatch(es + [e], groups', order')
  {
    groups', order' := groups, order;
    if e.supplier !in groups' {
      groups' := groups'[e.supplier := Group(e.snapshotDate, e.supplier, [])];
      order' := order' + [e.supplier];
    }
    var g := groups'[e.supplier];
    groups' := groups'[e.supplier := g.(items := g.items + [e.item])];
    GroupsMatchStep(es, e, groups, order, groups', order');
  }

  /** `list(groups.values())`, in insertion order. */
  method Values(groups: map<string, Group>, order: seq<string>, ghost es: seq<Entry>) returns (gs: seq<Group>)
    requires GroupsMatch(es, groups, order)
    ensures gs == Grouping(es)
  {
    GroupsMatchKeys(es, groups, order);
    gs := seq(|order|, k requires 0 <= k < |order| => groups[order[k]]);
    GroupingValues(es, groups, order, gs);
  }

  /** Every supplier in the insertion order has a group. */
  lemma GroupsMatchKeys(es: seq<Entry>, groups: map<string, Group>, order: seq<string>)
    requires GroupsMatch(es, groups, order)
    ensures forall k :: 0 <= k < |order| ==> order[k] in groups
  {
  }

  /** `list(groups.values())` is the grouping. */
  lemma GroupingValues(es: seq<Entry>, groups: map<string, Group>, order: seq<string>, gs: seq<Group>)
    requires GroupsMatch(es, groups, order)
    requires |gs| == |order| && forall k :: 0 <= k < |order| ==> order[k] in groups && gs[k] == groups[order[k]]
    ensures gs == Grouping(es)
  {
    SuppliersMembership(es);
    var b := Grouping(es);
    assert |gs| == |b|;
    forall k | 0 <= k < |gs|
      ensures gs[k] == b[k]
    {
      assert order[k] in groups;
    }
  }

  lemma {:induction false} CollectErrSticky(outs: seq<RowOutcome>, n: nat)
    requires 0 < n <= |outs|
    requires Collect(outs[..n]).Err?
    ensures Collect(outs).Err? && Collect(outs).error == Collect(outs[..n]).error
    decreases |outs| - n
  {
    if n < |outs| {
      assert outs[..n + 1][..n] == outs[..n];
      CollectErrSticky(outs, n + 1);
    } else {
      assert outs[..n] == outs;
    }
  }

  // ------------------------------------------------------- grouping properties

  /** No supplier is listed twice. */
  lemma {:induction false} SuppliersDistinct(es: seq<Entry>)
    ensures forall i, j :: 0 <= i < j < |Suppliers(es)| ==> Suppliers(es)[i] != Suppliers(es)[j]
  {
    if es != [] {
      SuppliersDistinct(es[..|es| - 1]);
    }
  }

  lemma {:induction false} ItemsOfCount(es: seq<Entry>, s: string)
    ensures HasSupplier(es, s) <==> |ItemsOf(es, s)| > 0
  {
    if es != [] {
      var prev := es[..|es| - 1];
      ItemsOfCount(prev, s);
      if HasSupplier(prev, s) {
        var k :| 0 <= k < |prev| && prev[k].supplier == s;
        assert es[k] == prev[k];
      }
      if HasSupplier(es, s) && es[|es| - 1].supplier != s {
        var k :| 0 <= k < |es| && es[k].supplier == s;
        assert prev[k] == es[k];
      }
    }
  }

  /** Every group is non-empty, belongs to its supplier, takes its snapshot date
      from the supplier's first row, and lists exactly that supplier's items in row order. */
  lemma GroupingShape(es: seq<Entry>)
    ensures |Grouping(es)| == |Suppliers(es)|
    ensures forall i :: 0 <= i < |Grouping(es)| ==>
      var g := Grouping(es)[i];
      && g.supplier == Suppliers(es)[i]
      && |g.items| > 0
      && g.items == ItemsOf(es, g.supplier)
      && HasSupplier(es, g.supplier)
      && g.snapshotDate == es[FirstIndex(es, g.supplier)].snapshotDate
  {
    SuppliersMembership(es);
    forall i | 0 <= i < |Suppliers(es)|
      ensures |ItemsOf(es, Suppliers(es)[i])| > 0
    {
      ItemsOfCount(es, Suppliers(es)[i]);
    }
  }

  /** Suppliers are listed in the order of their first rows. */
  lemma {:induction false} SuppliersFirstSeenOrder(es: seq<Entry>)
    ensures forall s :: s in Suppliers(es) ==> HasSupplier(es, s)
    ensures forall i, j :: 0 <= i < j < |Suppliers(es)| ==>
      FirstIndex(es, Suppliers(es)[i]) < FirstIndex(es, Suppliers(es)[j])
  {
    SuppliersMembership(es);
    if es != [] {
      var prev := es[..|es| - 1];
      var e := es[|es| - 1];
      assert es == prev + [e];
      SuppliersFirstSeenOrder(prev);
      SuppliersMembership(prev);
      var sp := Suppliers(prev);
      forall k | 0 <= k < |sp|
        ensures FirstIndex(es, sp[k]) == FirstIndex(prev, sp[k])
      {
        FirstIndexAppend(prev, e, sp[k]);
      }
      if e.supplier !in sp {
        FirstIndexNew(prev, e);
      }
    }
  }

  /** Every entry lands in exactly one group: the group sizes add up to the entry count. */
  lemma {:induction false} GroupingPartitions(es: seq<Entry>)
    ensures SumItems(es, Suppliers(es)) == |es|
  {
    if es != [] {
      var prev := es[..|es| - 1];
      var e := es[|es| - 1];
      assert es == prev + [e];
      GroupingPartitions(prev);
      var sp := Suppliers(prev);
      SumItemsStep(prev, e, sp);
      SuppliersDistinct(prev);
      OccurrencesDistinct(sp, e.supplier);
      if e.supplier !in sp {
        SuppliersMembership(prev);
        ItemsOfCount(prev, e.supplier);
        ItemsOfAppend(prev, e, e.supplier);
        SumItemsAppend(es, sp, e.supplier);
      }
    }
  }

  lemma {:induction false} OccurrencesDistinct(ss: seq<string>, x: string)
    requires forall i, j :: 0 <= i < j < |ss| ==> ss[i] != ss[j]
    ensures Occurrences(ss, x) == if x in ss then 1 else 0
  {
    if ss != [] {
      var init := ss[..|ss| - 1];
      assert ss == init + [ss[|ss| - 1]];
      OccurrencesDistinct(init, x);
    }
  }

  /** Total item count of the listed suppliers' groups. */
  function SumItems(es: seq<Entry>, ss: seq<string>): nat {
    if ss == [] then 0 else SumItems(es, ss[..|ss| - 1]) + |ItemsOf(es, ss[|ss| - 1])|
  }

  lemma {:induction false} SumItemsAppend(es: seq<Entry>, ss: seq<string>, s: string)
    ensures SumItems(es, ss + [s]) == SumItems(es, ss) + |ItemsOf(es, s)|
  {
    assert (ss + [s])[..|ss|] == ss;
  }

  /** Adding entry `e`: each listed supplier's group grows by one item when it is e's supplier. */
  lemma {:induction false} SumItemsStep(prev: seq<Entry>, e: Entry, ss: seq<string>)
    ensures var es := prev + [e];
      SumItems(es, ss) == SumItems(prev, ss) + Occurrences(ss, e.supplier)
  {
    var es := prev + [e];
    assert es[..|es| - 1] == prev;
    if ss != [] {
      SumItemsStep(prev, e, ss[..|ss| - 1]);
      OccurrencesLast(ss, e.supplier);
    }
  }

  /** Occurrences of `x` in a sequence of strings. */
  function Occurrences(ss: seq<string>, x: string): nat {
    if ss == [] then 0 else Occurrences(ss[..|ss| - 1], x) + (if ss[|ss| - 1] == x then 1 else 0)
  }

  lemma OccurrencesLast(ss: seq<string>, x: string)
    requires ss != []
    ensures Occurrences(ss, x) == Occurrences(ss[..|ss| - 1], x) + (if ss[|ss| - 1] == x then 1 else 0)
  {
  }

  // --------------------------------------------------- the groups as JSON

  function OptReal(o: Option<real>): Json {
    match o
    case None => JNull
    case Some(v) => JFloat(v)
  }

  function OptInt(o: Option<int>): Json {
    match o
    case None => JNull
    case Some(v) => JInt(v)
  }

  function ItemJson(it: Item): Json {
    JObject([
      ("item_code", JString(it.itemCode)),
      ("item_name", JString(it.itemName)),
      ("risk_level", JString(it.riskLevel)),
      ("current_stock", OptReal(it.currentStock)),
      ("wks_to_oos", OptReal(it.wksToOos)),
      ("suggested_quantity", OptInt(it.suggestedQuantity)),
      ("recommended_latest_po_date", JString(it.recommendation.poDate)),
      ("recommended_latest_delivery_date", JString(it.recommendation.deliveryDate)),
      ("recommended_latest_po_timing", JString(it.recommendation.poTiming)),
      ("recommended_latest_delivery_timing", JString(it.recommendation.deliveryTiming))])
  }

  function ItemsJson(items: seq<Item>): Json {
    JArray(seq(|items|, i requires 0 <= i < |items| => ItemJson(items[i])))
  }

  /** The analysis input `{snapshot_date, supplier, items}`. */
  function GroupJson(g: Group): Json {
    JObject([("snapshot_date", JString(g.snapshotDate)), ("supplier", JString(g.supplier)),
             ("items", ItemsJson(g.items))])
  }
}
