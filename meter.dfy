/** Metering records: one CSV row of a week's file, its field-value rule
    (the caller passes the variant's rule), and the in-place Wh to kWh
    conversion shared by both variants of the program. */
module Meter {
  import opened Maybe
  import opened PyText

  /** Monday = 0 .. Sunday = 6, the numbering of datetime.weekday(). */
  type Weekday = d: int | 0 <= d < 7

  /** The Finnish weekday names, Monday first. */
  const WeekdayNames: seq<string> :=
    ["maanantai", "tiistai", "keskiviikko", "torstai", "perjantai", "lauantai", "sunnuntai"]

  /** The column holding the timestamp; every other column is a channel. */
  const TimestampColumn: string := "Aika"

  /** The calendar part of a row's timestamp, as the parsed datetime gives it. */
  datatype Stamp = Stamp(year: nat, month: nat, day: nat, weekday: Weekday)

  /** One row after reading: its timestamp and every other column as a number
      (watt-hours when read, kilowatt-hours after conversion). */
  datatype Record = Record(stamp: Stamp, channels: map<string, real>)

  /** f"{day:02d}.{month:02d}.{year}": the dd.mm.yyyy label of a date, made
      of digits and dots only. */
  function DateLabel(st: Stamp): (r: string)
    ensures r != []
    ensures forall k :: 0 <= k < |r| ==> IsDigit(r[k]) || r[k] == '.'
  {
    Pad2(st.day) + "." + Pad2(st.month) + "." + NatText(st.year)
  }

  /** For a real calendar date the label reads back as day, month and year,
      at fixed positions, ten characters long for a four-digit year. */
  lemma DateLabelDecodes(st: Stamp)
    requires 1 <= st.day <= 31 && 1 <= st.month <= 12
    ensures var r := DateLabel(st);
      && |r| >= 7 && r[2] == '.' && r[5] == '.'
      && AllDigits(r[..2]) && DigitsValue(r[..2]) == st.day
      && AllDigits(r[3..5]) && DigitsValue(r[3..5]) == st.month
      && AllDigits(r[6..]) && DigitsValue(r[6..]) == st.year
      && (1000 <= st.year < 10000 ==> |r| == 10)
  {
    var r := DateLabel(st);
    assert r[..2] == Pad2(st.day);
    assert r[3..5] == Pad2(st.month);
    assert r[6..] == NatText(st.year);
  }

  /** One column of a CSV row as csv.DictReader hands it over: header name and
      cell text. */
  datatype Field = Field(name: string, text: string)

  /** One CSV row: the timestamp of its "Aika" cell and all of its cells. */
  datatype Row = Row(stamp: Stamp, fields: seq<Field>)

  /** Why a week cannot be reported: a channel cell that is not an integer
      (ValueError in int()), or a record lacking a channel the summary adds up
      (KeyError). */
  datatype Failure =
    | MalformedChannelValue(row: nat, field: string)
    | MissingChannel(row: nat, channel: string)

  /** The cells of one row come from a dict, so their names are distinct. */
  predicate DistinctNames(fields: seq<Field>) {
    forall j, k :: 0 <= j < k < |fields| ==> fields[j].name != fields[k].name
  }

  predicate BadField(f: Field, rule: string -> Option<int>) {
    f.name != TimestampColumn && rule(f.text).None?
  }

  /** The first channel cell that the field rule rejects. */
  function FirstBadField(fields: seq<Field>, rule: string -> Option<int>): (r: Option<nat>)
    ensures r.None? <==> forall k :: 0 <= k < |fields| ==> !BadField(fields[k], rule)
    ensures r.Some? ==> r.value < |fields| && BadField(fields[r.value], rule)
    ensures r.Some? ==> forall k :: 0 <= k < r.value ==> !BadField(fields[k], rule)
  {
    if fields == [] then None
    else
      var f := FirstBadField(fields[..|fields| - 1], rule);
      assert forall k :: 0 <= k < |fields| - 1 ==> fields[..|fields| - 1][k] == fields[k];
      if f.Some? then f
      else if BadField(fields[|fields| - 1], rule) then Some(|fields| - 1)
      else None
  }

  /** The names of the channel cells of a row. */
  function ChannelNames(fields: seq<Field>): set<string> {
    set k | 0 <= k < |fields| && fields[k].name != TimestampColumn :: fields[k].name
  }

  /** The record a row becomes: every cell but "Aika" goes through the field
      rule; the first cell it rejects names the failure. */
  function RowRecord(stamp: Stamp, fields: seq<Field>, rule: string -> Option<int>): (r: Result<Record, string>)
    requires DistinctNames(fields)
    ensures r.Err? <==> FirstBadField(fields, rule).Some?
    ensures r.Err? ==> r.error == fields[FirstBadField(fields, rule).value].name
    ensures r.Ok? ==> r.value.stamp == stamp && r.value.channels.Keys == ChannelNames(fields)
    ensures r.Ok? ==> forall k :: 0 <= k < |fields| && fields[k].name != TimestampColumn ==>
                        r.value.channels[fields[k].name] == rule(fields[k].text).value as real
  {
    if fields == [] then Ok(Record(stamp, map[]))
    else
      var init := fields[..|fields| - 1];
      var f := fields[|fields| - 1];
      assert forall k :: 0 <= k < |init| ==> init[k] == fields[k];
      assert ChannelNames(fields) == ChannelNames(init) + (if f.name != TimestampColumn then {f.name} else {}) by {
        assert forall k :: 0 <= k < |init| ==> init[k] == fields[k];
      }
      match RowRecord(stamp, init, rule)
      case Err(name) => Err(name)
      case Ok(rec) =>
        if f.name == TimestampColumn then Ok(rec)
        else
          match rule(f.text)
          case None => Err(f.name)
          case Some(v) => Ok(Record(stamp, rec.channels[f.name := v as real]))
  }

  /** Building one record from one row, cell by cell, as the reading loop does. */
  method ParseRow(row: Row, rule: string -> Option<int>) returns (r: Result<Record, string>)
    requires DistinctNames(row.fields)
    ensures r == RowRecord(row.stamp, row.fields, rule)
  {
    var channels: map<string, real> := map[];
    for k := 0 to |row.fields|
      invariant RowRecord(row.stamp, row.fields[..k], rule) == Ok(Record(row.stamp, channels))
    {
      var f := row.fields[k];
      RowRecordStep(row.stamp, row.fields, k, rule);
      if f.name != TimestampColumn {
        var v := rule(f.text);
        if v.None? {
          RowRecordFailsAt(row.stamp, row.fields, k, rule);
          return Err(f.name);
        }
        channels := channels[f.name := v.value as real];
      }
    }
    assert row.fields[..|row.fields|] == row.fields;
    r := Ok(Record(row.stamp, channels));
  }

  /** One more cell extends the record of the cells before it. */
  lemma RowRecordStep(stamp: Stamp, fields: seq<Field>, k: nat, rule: string -> Option<int>)
    requires DistinctNames(fields) && k < |fields|
    ensures DistinctNames(fields[..k]) && DistinctNames(fields[..k + 1])
    ensures RowRecord(stamp, fields[..k], rule).Ok? ==>
      RowRecord(stamp, fields[..k + 1], rule) ==
        var rec := RowRecord(stamp, fields[..k], rule).value;
        var f := fields[k];
        if f.name == TimestampColumn then Ok(rec)
        else if rule(f.text).None? then Err(f.name)
        else Ok(Record(stamp, rec.channels[f.name := rule(f.text).value as real]))
  {
    assert fields[..k + 1][..k] == fields[..k];
  }

  /** The first rejected cell, after a run of accepted ones, is the failure. */
  lemma RowRecordFailsAt(stamp: Stamp, fields: seq<Field>, k: nat, rule: string -> Option<int>)
    requires DistinctNames(fields) && k < |fields|
    requires DistinctNames(fields[..k]) && RowRecord(stamp, fields[..k], rule).Ok?
    requires BadField(fields[k], rule)
    ensures RowRecord(stamp, fields, rule) == Err(fields[k].name)
  {
    assert forall j :: 0 <= j < k ==> fields[..k][j] == fields[j];
    var b := FirstBadField(fields, rule);
    assert b.Some?;
    assert b.value == k;
  }

  predicate DistinctCells(rows: seq<Row>) {
    forall i :: 0 <= i < |rows| ==> DistinctNames(rows[i].fields)
  }

  /** The position of the first false entry. */
  function FirstFalse(bs: seq<bool>): (r: Option<nat>)
    ensures r.None? <==> forall i :: 0 <= i < |bs| ==> bs[i]
    ensures r.Some? ==> r.value < |bs| && !bs[r.value]
    ensures r.Some? ==> forall i :: 0 <= i < r.value ==> bs[i]
  {
    if bs == [] then None
    else if !bs[0] then Some(0)
    else
      var f := FirstFalse(bs[1..]);
      assert forall i :: 0 < i < |bs| ==> bs[1..][i - 1] == bs[i];
      if f.Some? then Some(f.value + 1) else None
  }

  /** The first row that does not become a record. */
  function FirstBadRow(rows: seq<Row>, rule: string -> Option<int>): (r: Option<nat>)
    requires DistinctCells(rows)
    ensures r.None? <==> forall i :: 0 <= i < |rows| ==> RowRecord(rows[i].stamp, rows[i].fields, rule).Ok?
    ensures r.Some? ==> r.value < |rows| && RowRecord(rows[r.value].stamp, rows[r.value].fields, rule).Err?
    ensures r.Some? ==> forall i :: 0 <= i < r.value ==> RowRecord(rows[i].stamp, rows[i].fields, rule).Ok?
  {
    var oks := seq(|rows|, i requires 0 <= i < |rows| => RowRecord(rows[i].stamp, rows[i].fields, rule).Ok?);
    assert forall i :: 0 <= i < |rows| ==> oks[i] == RowRecord(rows[i].stamp, rows[i].fields, rule).Ok?;
    FirstFalse(oks)
  }

  /** A week's records: one per row in file order, or the failure of the first
      row that cannot be read. */
  function ParsedRecords(rows: seq<Row>, rule: string -> Option<int>): (r: Result<seq<Record>, Failure>)
    requires DistinctCells(rows)
  {
    match FirstBadRow(rows, rule)
    case Some(i) => Err(MalformedChannelValue(i, RowRecord(rows[i].stamp, rows[i].fields, rule).error))
    case None => Ok(seq(|rows|, i requires 0 <= i < |rows| => RowRecord(rows[i].stamp, rows[i].fields, rule).value))
  }

  /** The row loop of reading a week's file, the file itself aside. */
  method ReadRecords(rows: seq<Row>, rule: string -> Option<int>) returns (r: Result<seq<Record>, Failure>)
    requires DistinctCells(rows)
    ensures r.Ok? ==> |r.value| == |rows|
    ensures r.Ok? ==> forall i :: 0 <= i < |rows| ==> r.value[i].stamp == rows[i].stamp
    ensures r == ParsedRecords(rows, rule)
  {
    var data: seq<Record> := [];
    for i := 0 to |rows|
      invariant |data| == i
      invariant forall j :: 0 <= j < i ==> RowRecord(rows[j].stamp, rows[j].fields, rule) == Ok(data[j])
    {
      var rivi := ParseRow(rows[i], rule);
      if rivi.Err? {
        return Err(MalformedChannelValue(i, rivi.error));
      }
      data := data + [rivi.value];
    }
    assert data == seq(|rows|, i requires 0 <= i < |rows| => RowRecord(rows[i].stamp, rows[i].fields, rule).value);
    r := Ok(data);
  }

  /** A record with every channel value rescaled from Wh to kWh. */
  function Kwh(r: Record): (k: Record)
    ensures k.stamp == r.stamp && k.channels.Keys == r.channels.Keys
    ensures forall name :: name in r.channels ==> k.channels[name] * 1000.0 == r.channels[name]
  {
    Record(r.stamp, map name | name in r.channels :: r.channels[name] / 1000.0)
  }

  /** Every record of a week in kWh. */
  function InKwh(data: seq<Record>): (r: seq<Record>)
    ensures |r| == |data| && forall i :: 0 <= i < |data| ==> r[i] == Kwh(data[i])
  {
    seq(|data|, i requires 0 <= i < |data| => Kwh(data[i]))
  }

  /** muunna_kwh: divides every channel value of every record by 1000 in place;
      the timestamps, the number of records and their key sets stay as they
      were. */
  method ConvertToKwh(data: array<Record>)
    modifies data
    ensures forall i :: 0 <= i < data.Length ==> data[i] == Kwh(old(data[i]))
  {
    for i := 0 to data.Length
      invariant forall j :: 0 <= j < i ==> data[j] == Kwh(old(data[j]))
      invariant forall j :: i <= j < data.Length ==> data[j] == old(data[j])
    {
      var rivi := data[i];
      var channels := rivi.channels;
      var todo := channels.Keys;
      while todo != {}
        invariant todo <= rivi.channels.Keys && channels.Keys == rivi.channels.Keys
        invariant forall n :: n in rivi.channels && n !in todo ==> channels[n] == rivi.channels[n] / 1000.0
        invariant forall n :: n in todo ==> channels[n] == rivi.channels[n]
        decreases todo
      {
        var n :| n in todo;
        channels := channels[n := channels[n] / 1000.0];
        todo := todo - {n};
      }
      assert channels == Kwh(rivi).channels;
      data[i] := Record(rivi.stamp, channels);
    }
  }
}
