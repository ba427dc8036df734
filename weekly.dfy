/** What both variants compute from a week's records: per weekday, the sums
    of the six channels and the records the date label may come from, plus
    the weekday summary value that the aggregation loops build. */
module Weekly {
  import opened Maybe
  import opened PyText
  import opened Meter
  import opened Decimal

  /** The six channels a weekday accumulator adds up, in its key order:
      three consumption phases, then three production phases. */
  const Channels: seq<string> := [
    "Kulutus vaihe 1 Wh", "Kulutus vaihe 2 Wh", "Kulutus vaihe 3 Wh",
    "Tuotanto vaihe 1 Wh", "Tuotanto vaihe 2 Wh", "Tuotanto vaihe 3 Wh"]

  /** One weekday's accumulator: its date label and the six channel sums in
      the order of Channels. */
  datatype DayTotals = DayTotals(date: string, sums: seq<real>)

  /** The weekday summary: one slot per weekday, None where the dict has no
      key for that day, and the order in which the keys were inserted. */
  datatype Summary = Summary(days: seq<Option<DayTotals>>, order: seq<Weekday>)

  /** Seven slots, six sums in each accumulator, and an insertion order that
      lists every present weekday exactly once. */
  predicate WellFormed(s: Summary) {
    && |s.days| == 7
    && (forall d :: 0 <= d < 7 && s.days[d].Some? ==> |s.days[d].value.sums| == 6)
    && (forall d: Weekday :: s.days[d].Some? <==> d in s.order)
    && (forall j, k :: 0 <= j < k < |s.order| ==> s.order[j] != s.order[k])
  }

  /** A record's value for a channel, 0 when the record has no such key. */
  function ValueOr0(r: Record, name: string): real {
    if name in r.channels then r.channels[name] else 0.0
  }

  /** The sum of one channel over the records that fall on weekday d. */
  function ChannelSum(data: seq<Record>, d: Weekday, name: string): real
  {
    if data == [] then 0.0
    else
      var r := data[|data| - 1];
      ChannelSum(data[..|data| - 1], d, name) + (if r.stamp.weekday == d then ValueOr0(r, name) else 0.0)
  }

  /** The sum over two runs of records is the sum of their sums. */
  lemma {:induction false} ChannelSumAppend(a: seq<Record>, b: seq<Record>, d: Weekday, name: string)
    ensures ChannelSum(a + b, d, name) == ChannelSum(a, d, name) + ChannelSum(b, d, name)
  {
    if b == [] {
      assert a + b == a;
    } else {
      ChannelSumAppend(a, b[..|b| - 1], d, name);
      assert (a + b)[..|a + b| - 1] == a + b[..|b| - 1];
    }
  }

  /** The sums do not depend on the order of the records. */
  lemma {:induction false} ChannelSumPermutation(a: seq<Record>, b: seq<Record>, d: Weekday, name: string)
    requires multiset(a) == multiset(b)
    ensures ChannelSum(a, d, name) == ChannelSum(b, d, name)
  {
    if a == [] {
      assert |b| == |multiset(b)| == 0;
    } else {
      var init := a[..|a| - 1];
      var x := a[|a| - 1];
      assert a == init + [x];
      assert x in multiset(b);
      var k :| 0 <= k < |b| && b[k] == x;
      var rest := b[..k] + b[k + 1..];
      assert b == b[..k] + [x] + b[k + 1..];
      assert multiset(b) == multiset(b[..k]) + multiset{x} + multiset(b[k + 1..]);
      assert multiset(a) == multiset(init) + multiset{x};
      assert multiset(rest) == multiset(b[..k]) + multiset(b[k + 1..]);
      assert multiset(init) == multiset(a) - multiset{x};
      assert multiset(rest) == multiset(b) - multiset{x};
      ChannelSumPermutation(init, rest, d, name);
      ChannelSumAppend(init, [x], d, name);
      ChannelSumAppend(b[..k] + [x], b[k + 1..], d, name);
      ChannelSumAppend(b[..k], [x], d, name);
      ChannelSumAppend(b[..k], b[k + 1..], d, name);
    }
  }

  /** A weekday without records sums to zero. */
  lemma {:induction false} ChannelSumNone(data: seq<Record>, d: Weekday, name: string)
    requires forall i :: 0 <= i < |data| ==> data[i].stamp.weekday != d
    ensures ChannelSum(data, d, name) == 0.0
  {
    if data != [] {
      ChannelSumNone(data[..|data| - 1], d, name);
    }
  }

  /** The index of the first record that falls on weekday d. */
  function FirstOn(data: seq<Record>, d: Weekday): (r: Option<nat>)
    ensures r.None? <==> forall i :: 0 <= i < |data| ==> data[i].stamp.weekday != d
    ensures r.Some? ==> r.value < |data| && data[r.value].stamp.weekday == d
    ensures r.Some? ==> forall i :: 0 <= i < r.value ==> data[i].stamp.weekday != d
  {
    if data == [] then None
    else
      var init := data[..|data| - 1];
      assert forall i :: 0 <= i < |init| ==> init[i] == data[i];
      var f := FirstOn(init, d);
      if f.Some? then f
      else if data[|data| - 1].stamp.weekday == d then Some(|data| - 1)
      else None
  }

  /** Records appended after a weekday's first record do not move it. */
  lemma {:induction false} FirstOnAppend(a: seq<Record>, b: seq<Record>, d: Weekday)
    requires FirstOn(a, d).Some?
    ensures FirstOn(a + b, d) == FirstOn(a, d)
  {
    var f := FirstOn(a + b, d);
    var i := FirstOn(a, d).value;
    assert (a + b)[i] == a[i];
    assert f.Some? && f.value <= i;
    assert (a + b)[f.value] == a[f.value];
  }

  /** The index of the last record that falls on weekday d. */
  function LastOn(data: seq<Record>, d: Weekday): (r: Option<nat>)
    ensures r.None? <==> forall i :: 0 <= i < |data| ==> data[i].stamp.weekday != d
    ensures r.Some? ==> r.value < |data| && data[r.value].stamp.weekday == d
    ensures r.Some? ==> forall i :: r.value < i < |data| ==> data[i].stamp.weekday != d
  {
    if data == [] then None
    else if data[|data| - 1].stamp.weekday == d then Some(|data| - 1)
    else
      var init := data[..|data| - 1];
      assert forall i :: 0 <= i < |init| ==> init[i] == data[i];
      LastOn(init, d)
  }

  /** The weekdays that occur in data, each once, in the order of their first
      record: the insertion order of the summary dict. */
  function FirstSeenOrder(data: seq<Record>): (r: seq<Weekday>)
    ensures forall k :: 0 <= k < |r| ==> FirstOn(data, r[k]).Some?
    ensures forall j, k :: 0 <= j < k < |r| ==> FirstOn(data, r[j]).value < FirstOn(data, r[k]).value
    ensures forall d: Weekday :: FirstOn(data, d).Some? ==> d in r
  {
    if data == [] then []
    else
      var init := FirstSeenOrder(data[..|data| - 1]);
      var d := data[|data| - 1].stamp.weekday;
      if d in init then init else init + [d]
  }

  /** One more record on weekday e becomes e's first record unless e already
      had one. */
  lemma FirstOnStep(data: seq<Record>, i: nat, e: Weekday)
    requires i < |data|
    ensures FirstOn(data[..i + 1], e) ==
      if FirstOn(data[..i], e).Some? then FirstOn(data[..i], e)
      else if data[i].stamp.weekday == e then Some(i) else None
  {
    assert data[..i + 1][..i] == data[..i];
  }

  /** One more record appends its weekday to the first-seen order unless the
      weekday is already there. */
  lemma FirstSeenOrderStep(data: seq<Record>, i: nat)
    requires i < |data|
    ensures FirstSeenOrder(data[..i + 1]) ==
      var order := FirstSeenOrder(data[..i]);
      if data[i].stamp.weekday in order then order else order + [data[i].stamp.weekday]
  {
    assert data[..i + 1][..i] == data[..i];
  }

  /** One more record adds its value to its own weekday's sum only. */
  lemma ChannelSumStep(data: seq<Record>, i: nat, e: Weekday, name: string)
    requires i < |data|
    ensures ChannelSum(data[..i + 1], e, name) ==
      ChannelSum(data[..i], e, name) + (if data[i].stamp.weekday == e then ValueOr0(data[i], name) else 0.0)
  {
    assert data[..i + 1][..i] == data[..i];
  }

  /** One more record on weekday e becomes e's last record. */
  lemma LastOnStep(data: seq<Record>, i: nat, e: Weekday)
    requires i < |data|
    ensures LastOn(data[..i + 1], e) == (if data[i].stamp.weekday == e then Some(i) else LastOn(data[..i], e))
  {
    assert data[..i + 1][..i] == data[..i];
  }

  /** The six channel sums of weekday d, before rounding. */
  function RunningSums(data: seq<Record>, d: Weekday): (r: seq<real>)
    ensures |r| == 6
  {
    seq(6, c requires 0 <= c < 6 => ChannelSum(data, d, Channels[c]))
  }

  /** Every sum rounded to two decimals, as the pass after the fold does. */
  function RoundedSums(sums: seq<real>): (r: seq<real>)
    ensures |r| == |sums|
  {
    seq(|sums|, c requires 0 <= c < |sums| => Round2(sums[c]))
  }

  /** The column heading line both tables print first. */
  const HeaderDays: string :=
    "Päivä" + Spaces(9) + "Pvm" + Spaces(9) + "Kulutus [kWh]" + Spaces(17) + "Tuotanto [kWh]"

  /** What follows the week's name in a table's title line. */
  const TitleSuffix: string := " sähkönkulutus" + " ja -tuotanto" + " (kWh, vaiheittain)"

  /** A horizontal rule of n dashes. */
  function Dashes(n: nat): (r: string)
    ensures |r| == n && forall k :: 0 <= k < n ==> r[k] == '-'
  {
    seq(n, _ => '-')
  }

  /** The weekdays below n that have a slot in s, Monday first. */
  function PresentUpTo(s: Summary, n: nat): (r: seq<Weekday>)
    requires |s.days| == 7 && n <= 7
    ensures forall j, k :: 0 <= j < k < |r| ==> r[j] < r[k]
    ensures forall d: Weekday :: d in r <==> d < n && s.days[d].Some?
  {
    if n == 0 then []
    else
      var p := PresentUpTo(s, n - 1);
      assert forall j :: 0 <= j < |p| ==> p[j] < n - 1 by {
        forall j | 0 <= j < |p| ensures p[j] < n - 1 {
          var d: Weekday := p[j];
          assert d in p;
        }
      }
      p + (if s.days[n - 1].Some? then [n - 1] else [])
  }

  /** The weekdays that have a slot in s, in Monday-to-Sunday order. */
  function PresentDays(s: Summary): seq<Weekday>
    requires |s.days| == 7
  {
    PresentUpTo(s, 7)
  }

  /** Consumption minus production: the three Kulutus sums less the three
      Tuotanto sums. */
  function Net(t: DayTotals): real
    requires |t.sums| == 6
  {
    (t.sums[0] + t.sums[1] + t.sums[2]) - (t.sums[3] + t.sums[4] + t.sums[5])
  }

  /** An accumulator after the rounding pass. */
  function RoundedDay(t: Option<DayTotals>): Option<DayTotals> {
    match t
    case None => None
    case Some(acc) => Some(acc.(sums := RoundedSums(acc.sums)))
  }

  /** The zero sums of a freshly created accumulator. */
  const NoSums: seq<real> := [0.0, 0.0, 0.0, 0.0, 0.0, 0.0]

  /** A number cell: the formatted value right-aligned to width 6. */
  function Cell(x: real): string {
    PadLeft(FormatNumber(x), 6)
  }

  /** A cell strips back to the formatted number. */
  lemma CellStrips(x: real)
    ensures Strip(Cell(x)) == FormatNumber(x)
  {
    PadLeftStrips(FormatNumber(x), 6);
  }

  /** The six cells of an accumulator's sums. */
  function Cells(sums: seq<real>): (r: seq<string>)
    ensures |r| == |sums|
  {
    seq(|sums|, k requires 0 <= k < |sums| => Cell(sums[k]))
  }

  /** Numbers of at most six characters give cells of width 6, and each cell
      strips back to its formatted number. */
  lemma CellsFormat(sums: seq<real>)
    requires forall k :: 0 <= k < |sums| ==> -9999 <= RoundHalfEven(sums[k] * 100.0) <= 99999
    ensures forall k :: 0 <= k < |sums| ==>
      |Cells(sums)[k]| == 6 && Strip(Cells(sums)[k]) == FormatNumber(sums[k])
  {
    forall k | 0 <= k < |sums|
      ensures |Cells(sums)[k]| == 6 && Strip(Cells(sums)[k]) == FormatNumber(sums[k])
    {
      FormatNumberWidth(sums[k]);
      CellStrips(sums[k]);
    }
  }

  /** Where three six-character cells sit in their run. */
  lemma RunSlices(a: string, b: string, c: string)
    requires |a| == 6 && |b| == 6 && |c| == 6
    ensures var r := a + "  " + b + "  " + c;
      && |r| == 22 && r[0..6] == a && r[8..14] == b && r[16..22] == c
  {
    var r := a + "  " + b + "  " + c;
    assert r[0..6] == a;
    assert r[8..14] == b;
    assert r[16..22] == c;
  }

  /** No cell holds a line break. */
  lemma CellsOneLine(sums: seq<real>)
    ensures forall k :: 0 <= k < |sums| ==> '\n' !in Cells(sums)[k]
  {
    forall k | 0 <= k < |sums| ensures '\n' !in Cells(sums)[k] {
      var f := FormatNumber(sums[k]);
      assert '\n' !in f by {
        forall i | 0 <= i < |f| ensures f[i] != '\n' {
          assert IsDigit(f[i]) || f[i] == ',' || f[i] == '-';
        }
      }
      PadLeftAvoids(f, 6, '\n');
    }
  }

  lemma AppendAssociates(h: seq<string>, rows: seq<string>, x: string)
    ensures (h + rows) + [x] == h + (rows + [x])
  {
  }

  /** Slicing a header block, a run of lines and a closing line apart. */
  lemma LinesAt(h: seq<string>, rows: seq<string>, last: string)
    ensures var l := h + rows + [last];
      && |l| == |h| + |rows| + 1 && l[..|h|] == h && l[|h|..|l| - 1] == rows && l[|l| - 1] == last
  {
    var l := h + rows + [last];
    assert l[|h|..|l| - 1] == rows;
  }

  /** The second loop of laske_yhteenveto: every sum of every key, taken in
      insertion order, is rounded to two decimals; the weekdays without a key
      stay without one. */
  method RoundingPass(days: array<Option<DayTotals>>, order: seq<Weekday>)
    requires days.Length == 7
    requires forall j, k :: 0 <= j < k < |order| ==> order[j] != order[k]
    requires forall d: Weekday :: days[d].Some? <==> d in order
    requires forall d: Weekday :: days[d].Some? ==> |days[d].value.sums| == 6
    modifies days
    ensures forall d: Weekday :: days[d] == RoundedDay(old(days[d]))
  {
    for j := 0 to |order|
      invariant forall d: Weekday :: days[d] == if d in order[..j] then RoundedDay(old(days[d])) else old(days[d])
    {
      var d := order[j];
      assert d !in order[..j];
      var acc := days[d].value;
      var sums := acc.sums;
      for c := 0 to 6
        invariant |sums| == 6
        invariant forall k :: 0 <= k < 6 ==> sums[k] == if k < c then Round2(acc.sums[k]) else acc.sums[k]
      {
        sums := sums[c := Round2(sums[c])];
      }
      assert sums == RoundedSums(acc.sums);
      days[d] := Some(acc.(sums := sums));
      assert order[..j + 1] == order[..j] + [d];
    }
    assert order[..|order|] == order;
  }
}
