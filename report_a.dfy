/** The single-week table (Viikko5/A): read the rows, convert Wh to kWh, sum
    the six channels per weekday with the last record's date as the label,
    and print the table of the weekdays that occur, Monday first. */
module ReportA {
  import opened Maybe
  import opened PyText
  import opened Meter
  import opened Decimal
  import opened Weekly

  /** The field rule: an empty cell reads as 0 and anything else goes through
      int(), so a cell holding only spaces does not read. */
  function ParseField(text: string): (r: Option<int>)
    ensures r.Some? <==> text == [] || IsNumeral(Strip(text))
    ensures text == [] ==> r == Some(0)
    ensures text != [] ==> r == ParseInt(text)
  {
    if text == "" then Some(0) else ParseInt(text)
  }

  /** A number with whitespace around it reads as that number. */
  lemma ParseFieldNumber(n: int, pre: string, post: string)
    requires AllSpace(pre) && AllSpace(post)
    ensures ParseField(pre + IntText(n) + post) == Some(n)
  {
    ParseIntText(n, pre, post);
    assert |pre + IntText(n) + post| >= |IntText(n)| > 0;
  }

  /** A cell of spaces only is not a number, unlike an empty cell. */
  lemma ParseFieldSpaces(text: string)
    requires text != [] && AllSpace(text)
    ensures ParseField(text) == None
  {
    ParseIntBlank(text);
  }

  // ---------------------------------------------------------------------
  // Aggregation by weekday

  /** Weekday d's accumulator once every record is folded in, before the
      rounding pass: labelled with the date of the last record on d, a
      channel a record lacks counting as 0. */
  function LastFoldedDay(data: seq<Record>, d: Weekday): Option<DayTotals> {
    match LastOn(data, d)
    case None => None
    case Some(i) => Some(DayTotals(DateLabel(data[i].stamp), RunningSums(data, d)))
  }

  /** The summary of a week: a slot exactly for the weekdays that occur,
      holding the date of the weekday's last record and each channel's sum
      over the weekday's records rounded to two decimals; the keys in the
      order the weekdays first occur. */
  function WeekSummary(data: seq<Record>): (s: Summary)
    ensures WellFormed(s)
  {
    var order := FirstSeenOrder(data);
    assert forall j, k :: 0 <= j < k < |order| ==> order[j] != order[k];
    assert forall d: Weekday :: LastOn(data, d).Some? <==> FirstOn(data, d).Some?;
    Summary(seq(7, d requires 0 <= d < 7 => RoundedDay(LastFoldedDay(data, d))), order)
  }

  /** Weekday d has a slot exactly when a record falls on it; the slot is
      labelled with the date of a record on d that no later record on d
      follows, and holds every channel's rounded sum over d's records. */
  lemma SlotMeaning(data: seq<Record>, d: Weekday)
    ensures var t := WeekSummary(data).days[d];
      && (t.Some? <==> exists i :: 0 <= i < |data| && data[i].stamp.weekday == d)
      && (t.Some? ==> exists i :: (0 <= i < |data| && data[i].stamp.weekday == d
            && t.value.date == DateLabel(data[i].stamp)
            && forall j :: i < j < |data| ==> data[j].stamp.weekday != d))
      && (t.Some? ==> (|t.value.sums| == 6 &&
            forall k :: 0 <= k < 6 ==> t.value.sums[k] == Round2(ChannelSum(data, d, Channels[k]))))
  {
    assert WeekSummary(data).days[d] == RoundedDay(LastFoldedDay(data, d));
    RoundedDayMeaning(data, d);
  }

  /** SlotMeaning for weekday d's slot before it is put in the summary. */
  lemma RoundedDayMeaning(data: seq<Record>, d: Weekday)
    ensures var t := RoundedDay(LastFoldedDay(data, d));
      && (t.Some? <==> exists i :: 0 <= i < |data| && data[i].stamp.weekday == d)
      && (t.Some? ==> exists i :: (0 <= i < |data| && data[i].stamp.weekday == d
            && t.value.date == DateLabel(data[i].stamp)
            && forall j :: i < j < |data| ==> data[j].stamp.weekday != d))
      && (t.Some? ==> (|t.value.sums| == 6 &&
            forall k :: 0 <= k < 6 ==> t.value.sums[k] == Round2(ChannelSum(data, d, Channels[k]))))
  {
    var t := RoundedDay(LastFoldedDay(data, d));
    var l := LastOn(data, d);
    if l.Some? {
      var i := l.value;
      assert data[i].stamp.weekday == d;
      assert t.value.date == DateLabel(data[i].stamp);
      assert t.value.sums == RoundedSums(RunningSums(data, d));
    }
  }

  /** A record appended to a week relabels its weekday with its own date and
      adds its channels (a missing one as 0) to that weekday's sums before
      rounding; every other weekday keeps its slot. */
  lemma LastSeenDateWins(data: seq<Record>, r: Record)
    ensures var t := WeekSummary(data + [r]).days[r.stamp.weekday];
      && t.Some? && t.value.date == DateLabel(r.stamp)
      && forall k :: 0 <= k < 6 ==>
        t.value.sums[k] == Round2(ChannelSum(data, r.stamp.weekday, Channels[k]) + ValueOr0(r, Channels[k]))
    ensures forall e: Weekday :: e != r.stamp.weekday ==>
      WeekSummary(data + [r]).days[e] == WeekSummary(data).days[e]
  {
    var all := data + [r];
    assert all[..|all| - 1] == data;
    forall e: Weekday | e != r.stamp.weekday
      ensures WeekSummary(all).days[e] == WeekSummary(data).days[e]
    {
      assert LastOn(all, e) == LastOn(data, e);
      assert RunningSums(all, e) == RunningSums(data, e);
    }
  }

  /** Record i replaces its own weekday's accumulator by one labelled with
      its date whose sums have its values added, and leaves the other
      weekdays' accumulators as they were. */
  lemma FoldSlot(data: seq<Record>, i: nat, e: Weekday, sums: seq<real>)
    requires i < |data| && |sums| == 6
    requires data[i].stamp.weekday == e ==>
      var t := LastFoldedDay(data[..i], e);
      forall k :: 0 <= k < 6 ==>
        sums[k] == (if t.None? then 0.0 else t.value.sums[k]) + ValueOr0(data[i], Channels[k])
    ensures LastFoldedDay(data[..i + 1], e) ==
      if data[i].stamp.weekday == e then Some(DayTotals(DateLabel(data[i].stamp), sums))
      else LastFoldedDay(data[..i], e)
  {
    if data[i].stamp.weekday == e {
      FoldOwnSlot(data, i, sums);
    } else {
      FoldOtherSlot(data, i, e);
    }
  }

  /** FoldSlot for record i's own weekday. */
  lemma FoldOwnSlot(data: seq<Record>, i: nat, sums: seq<real>)
    requires i < |data| && |sums| == 6
    requires var t := LastFoldedDay(data[..i], data[i].stamp.weekday);
      forall k :: 0 <= k < 6 ==>
        sums[k] == (if t.None? then 0.0 else t.value.sums[k]) + ValueOr0(data[i], Channels[k])
    ensures LastFoldedDay(data[..i + 1], data[i].stamp.weekday) == Some(DayTotals(DateLabel(data[i].stamp), sums))
  {
    var e := data[i].stamp.weekday;
    LastOnStep(data, i, e);
    var t := LastFoldedDay(data[..i], e);
    forall k | 0 <= k < 6 ensures sums[k] == ChannelSum(data[..i + 1], e, Channels[k]) {
      ChannelSumStep(data, i, e, Channels[k]);
      if t.None? {
        ChannelSumNone(data[..i], e, Channels[k]);
      } else {
        assert t.value.sums == RunningSums(data[..i], e);
      }
    }
    assert sums == RunningSums(data[..i + 1], e);
  }

  /** FoldSlot for the other weekdays. */
  lemma FoldOtherSlot(data: seq<Record>, i: nat, e: Weekday)
    requires i < |data| && data[i].stamp.weekday != e
    ensures LastFoldedDay(data[..i + 1], e) == LastFoldedDay(data[..i], e)
  {
    LastOnStep(data, i, e);
    forall k | 0 <= k < 6
      ensures ChannelSum(data[..i + 1], e, Channels[k]) == ChannelSum(data[..i], e, Channels[k])
    {
      ChannelSumStep(data, i, e, Channels[k]);
    }
    assert RunningSums(data[..i + 1], e) == RunningSums(data[..i], e);
  }

  /** Record i's fold keeps every slot equal to LastFoldedDay of the records
      so far and the insertion order equal to their first-seen order. */
  lemma FoldStep(ds: seq<Option<DayTotals>>, order: seq<Weekday>, data: seq<Record>, i: nat, sums: seq<real>)
    requires i < |data| && |ds| == 7
    requires forall e: Weekday :: ds[e] == LastFoldedDay(data[..i], e)
    requires order == FirstSeenOrder(data[..i])
    requires |sums| == 6
    requires var t := ds[data[i].stamp.weekday];
      && (t.Some? ==> |t.value.sums| == 6)
      && forall k :: 0 <= k < 6 ==>
        sums[k] == (if t.None? then 0.0 else t.value.sums[k]) + ValueOr0(data[i], Channels[k])
    ensures var d := data[i].stamp.weekday;
      && (forall e: Weekday :: LastFoldedDay(data[..i + 1], e) ==
            if e == d then Some(DayTotals(DateLabel(data[i].stamp), sums)) else ds[e])
      && FirstSeenOrder(data[..i + 1]) == if ds[d].None? then order + [d] else order
  {
    var d := data[i].stamp.weekday;
    forall e: Weekday ensures LastFoldedDay(data[..i + 1], e) ==
      if e == d then Some(DayTotals(DateLabel(data[i].stamp), sums)) else ds[e]
    {
      FoldSlot(data, i, e, sums);
    }
    FirstSeenOrderStep(data, i);
    assert FirstOn(data[..i], d).Some? <==> LastOn(data[..i], d).Some?;
  }

  /** FoldStep for sums added onto the accumulator the fold found or created. */
  lemma FoldAccStep(ds: seq<Option<DayTotals>>, order: seq<Weekday>, data: seq<Record>, i: nat,
                    base: seq<real>, sums: seq<real>)
    requires i < |data| && |ds| == 7
    requires forall e: Weekday :: ds[e] == LastFoldedDay(data[..i], e)
    requires order == FirstSeenOrder(data[..i])
    requires base == if ds[data[i].stamp.weekday].None? then NoSums else ds[data[i].stamp.weekday].value.sums
    requires |base| == 6 && |sums| == 6 && forall k :: 0 <= k < 6 ==> sums[k] == base[k] + ValueOr0(data[i], Channels[k])
    ensures var d := data[i].stamp.weekday;
      && (forall e: Weekday :: LastFoldedDay(data[..i + 1], e) ==
            if e == d then Some(DayTotals(DateLabel(data[i].stamp), sums)) else ds[e])
      && FirstSeenOrder(data[..i + 1]) == if ds[d].None? then order + [d] else order
  {
    FoldStep(ds, order, data, i, sums);
  }

  /** The inner loop of the fold: the record's six channels, a missing one
      as 0, added to an accumulator's sums. */
  method AddValues(r: Record, sums: seq<real>) returns (sums': seq<real>)
    requires |sums| == 6
    ensures |sums'| == 6
    ensures forall k :: 0 <= k < 6 ==> sums'[k] == sums[k] + ValueOr0(r, Channels[k])
  {
    sums' := sums;
    for c := 0 to 6
      invariant |sums'| == 6
      invariant forall k :: 0 <= k < 6 ==> sums'[k] == sums[k] + (if k < c then ValueOr0(r, Channels[k]) else 0.0)
    {
      sums' := sums'[c := sums'[c] + ValueOr0(r, Channels[c])];
    }
  }

  /** One step of the fold in laske_yhteenveto: record i's weekday gets an
      accumulator with an empty label and zero sums if it has none (and joins
      the insertion order), takes the record's date as its label, and adds the
      record's six channels, a channel the record lacks counting as 0. */
  method FoldRecord(days: array<Option<DayTotals>>, order: seq<Weekday>, data: seq<Record>, i: nat)
      returns (order': seq<Weekday>)
    requires days.Length == 7 && i < |data|
    requires forall e: Weekday :: days[e] == LastFoldedDay(data[..i], e)
    requires order == FirstSeenOrder(data[..i])
    modifies days
    ensures forall e: Weekday :: days[e] == LastFoldedDay(data[..i + 1], e)
    ensures order' == FirstSeenOrder(data[..i + 1])
  {
    var rivi := data[i];
    var d := rivi.stamp.weekday;
    ghost var before := days[..];
    var t := days[d];
    order' := order;
    if t.None? {
      days[d] := Some(DayTotals("", NoSums));
      order' := order' + [d];
    }
    var acc := if t.None? then DayTotals("", NoSums) else t.value;
    acc := acc.(date := DateLabel(rivi.stamp));
    var sums := AddValues(rivi, acc.sums);
    FoldAccStep(before, order, data, i, acc.sums, sums);
    days[d] := Some(acc.(sums := sums));
    assert days[..] == before[d := days[d]];
  }

  /** laske_yhteenveto: the fold over the records, then a pass over the keys
      that rounds every sum to two decimals. It cannot fail. */
  method Summarize(data: seq<Record>) returns (s: Summary)
    ensures s == WeekSummary(data)
  {
    var days := new Option<DayTotals>[7](_ => None);
    var order: seq<Weekday> := [];
    for i := 0 to |data|
      invariant forall e: Weekday :: days[e] == LastFoldedDay(data[..i], e)
      invariant order == FirstSeenOrder(data[..i])
    {
      order := FoldRecord(days, order, data, i);
    }
    assert data[..|data|] == data;
    ghost var w := WeekSummary(data);
    forall d: Weekday ensures days[d].Some? <==> d in order {
      assert w.days[d] == RoundedDay(days[d]);
    }
    RoundingPass(days, order);
    assert days[..] == w.days;
    s := Summary(days[..], order);
  }

  // ---------------------------------------------------------------------
  // The table

  /** The title line. */
  const TitleLine: string := "Viikon 42" + TitleSuffix

  /** The phase heading line under HeaderDays. */
  const HeaderPhases: string :=
    Spaces(13) + "(pv.kk.vvvv)" + Spaces(2) + "v1" + Spaces(6) + "v2" + Spaces(6) + "v3"
      + Spaces(12) + "v1" + Spaces(7) + "v2" + Spaces(5) + "v3"

  /** The rule under the headers. */
  const Rule: string := Dashes(79)

  /** A blank line, the title, a blank line, the two headers and the rule. */
  const Headers: seq<string> := ["", TitleLine, "", HeaderDays, HeaderPhases, Rule]

  /** One weekday's line: the name padded to 12, the date, the three
      consumption cells and, seven spaces on, the three production cells,
      cells two spaces apart. */
  function DayLine(d: Weekday, date: string, cells: seq<string>): string
    requires |cells| == 6
  {
    PadRight(WeekdayNames[d], 12) + " " + date + "   "
      + Join(cells[..3], "  ") + "       " + Join(cells[3..], "  ")
  }

  /** Weekday d's line in the table of s. */
  function RowOf(s: Summary, d: Weekday): string
    requires WellFormed(s) && s.days[d].Some?
  {
    var t := s.days[d].value;
    DayLine(d, t.date, Cells(t.sums))
  }

  /** The lines of the weekdays below n that have a slot, Monday first. */
  function RowsUpTo(s: Summary, n: nat): seq<string>
    requires WellFormed(s) && n <= 7
  {
    if n == 0 then []
    else RowsUpTo(s, n - 1) + (if s.days[n - 1].Some? then [RowOf(s, n - 1)] else [])
  }

  /** There is a line for each present weekday below n. */
  lemma {:induction false} RowsUpToLength(s: Summary, n: nat)
    requires WellFormed(s) && n <= 7
    ensures |RowsUpTo(s, n)| == |PresentUpTo(s, n)|
  {
    if n > 0 {
      RowsUpToLength(s, n - 1);
      if s.days[n - 1].Some? {
        assert PresentUpTo(s, n) == PresentUpTo(s, n - 1) + [n - 1];
      } else {
        assert PresentUpTo(s, n) == PresentUpTo(s, n - 1);
      }
    }
  }

  /** Line j below the headers, for one j. */
  lemma {:induction false} RowAt(s: Summary, n: nat, j: nat)
    requires WellFormed(s) && n <= 7 && j < |RowsUpTo(s, n)|
    ensures |RowsUpTo(s, n)| == |PresentUpTo(s, n)|
    ensures RowsUpTo(s, n)[j] == RowOf(s, PresentUpTo(s, n)[j])
  {
    RowsUpToLength(s, n);
    RowsUpToLength(s, n - 1);
    var rows := RowsUpTo(s, n - 1);
    var p := PresentUpTo(s, n - 1);
    if s.days[n - 1].Some? {
      assert RowsUpTo(s, n) == rows + [RowOf(s, n - 1)];
      assert PresentUpTo(s, n) == p + [n - 1];
      if j < |rows| {
        RowAt(s, n - 1, j);
      }
    } else {
      assert RowsUpTo(s, n) == rows;
      assert PresentUpTo(s, n) == p;
      RowAt(s, n - 1, j);
    }
  }

  /** The j-th weekday line belongs to the j-th present weekday. */
  lemma RowsUpToPresent(s: Summary, n: nat)
    requires WellFormed(s) && n <= 7
    ensures |RowsUpTo(s, n)| == |PresentUpTo(s, n)|
    ensures forall j :: 0 <= j < |RowsUpTo(s, n)| ==> RowsUpTo(s, n)[j] == RowOf(s, PresentUpTo(s, n)[j])
  {
    RowsUpToLength(s, n);
    forall j | 0 <= j < |RowsUpTo(s, n)| ensures RowsUpTo(s, n)[j] == RowOf(s, PresentUpTo(s, n)[j]) {
      RowAt(s, n, j);
    }
  }

  /** tulosta_taulukko's lines: the header block, then a line for each
      weekday with a slot, from Monday to Sunday. */
  function TableLines(s: Summary): seq<string>
    requires WellFormed(s)
  {
    Headers + RowsUpTo(s, 7)
  }

  /** tulosta_taulukko: the header block, then the weekdays in calendar order,
      a line for each one that has a key; printing is left to the caller. */
  method Table(s: Summary) returns (lines: seq<string>)
    requires WellFormed(s)
    ensures lines == TableLines(s)
  {
    lines := Headers;
    for d := 0 to 7
      invariant lines == Headers + RowsUpTo(s, d)
    {
      if s.days[d].Some? {
        var row := s.days[d].value;
        var line := DayLine(d, row.date, Cells(row.sums));
        assert line == RowOf(s, d);
        AppendAssociates(Headers, RowsUpTo(s, d), line);
        lines := lines + [line];
      }
    }
  }

  /** The table is the header block and one line per weekday with a slot, in
      calendar order and whatever the insertion order was. */
  lemma TableFrame(s: Summary)
    requires WellFormed(s)
    ensures var lines := TableLines(s);
      && |lines| == 6 + |PresentDays(s)|
      && lines[..6] == Headers
      && forall j :: 0 <= j < |PresentDays(s)| ==> lines[6 + j] == RowOf(s, PresentDays(s)[j])
  {
    RowsUpToPresent(s, 7);
    var lines := TableLines(s);
    assert lines[..6] == Headers;
  }

  /** A weekday line of a ten-character date and six-character cells is 77
      characters wide: the name padded to 12, the date at 13..23, and the six
      cells at fixed columns. */
  lemma DayLineColumns(d: Weekday, date: string, cells: seq<string>)
    requires |date| == 10 && |cells| == 6
    requires forall k :: 0 <= k < 6 ==> |cells[k]| == 6
    ensures var line := DayLine(d, date, cells);
      && |line| == 77
      && line[0..12] == PadRight(WeekdayNames[d], 12)
      && line[13..23] == date
      && line[26..32] == cells[0] && line[34..40] == cells[1] && line[42..48] == cells[2]
      && line[55..61] == cells[3] && line[63..69] == cells[4] && line[71..77] == cells[5]
  {
    assert cells[..3] == [cells[0], cells[1], cells[2]];
    assert cells[3..] == [cells[3], cells[4], cells[5]];
    JoinThree(cells[0], cells[1], cells[2], "  ");
    JoinThree(cells[3], cells[4], cells[5], "  ");
    RunSlices(cells[0], cells[1], cells[2]);
    RunSlices(cells[3], cells[4], cells[5]);
    LineSlices(PadRight(WeekdayNames[d], 12), date, Join(cells[..3], "  "), Join(cells[3..], "  "));
  }

  /** Where the pieces of a weekday line sit. */
  lemma LineSlices(name: string, date: string, cons: string, prod: string)
    requires |name| == 12 && |date| == 10 && |cons| == 22 && |prod| == 22
    ensures var line := name + " " + date + "   " + cons + "       " + prod;
      && |line| == 77 && line[0..12] == name && line[13..23] == date
      && line[26..48] == cons && line[55..77] == prod
  {
    var line := name + " " + date + "   " + cons + "       " + prod;
    assert line[0..12] == name;
    assert line[13..23] == date;
    assert line[26..48] == cons;
    assert line[55..77] == prod;
  }

  // ---------------------------------------------------------------------
  // The program

  /** main: the table of a week's rows, or the failure of the first row that
      does not read. */
  function WeekTable(rows: seq<Row>): Result<seq<string>, Failure>
    requires DistinctCells(rows)
  {
    match ParsedRecords(rows, ParseField)
    case Err(e) => Err(e)
    case Ok(raw) => Ok(TableLines(WeekSummary(InKwh(raw))))
  }

  /** main: read the rows, convert them to kWh in place, summarize and build
      the table. */
  method Run(rows: seq<Row>) returns (r: Result<seq<string>, Failure>)
    requires DistinctCells(rows)
    ensures r == WeekTable(rows)
  {
    var raw := ReadRecords(rows, ParseField);
    if raw.Err? {
      return Err(raw.error);
    }
    var data := new Record[|raw.value|](i requires 0 <= i < |raw.value| => raw.value[i]);
    ConvertToKwh(data);
    assert data[..] == InKwh(raw.value);
    var yhteenveto := Summarize(data[..]);
    var lines := Table(yhteenveto);
    r := Ok(lines);
  }
}
