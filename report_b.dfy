/** The multi-week energy report (Viikko5/B): read each week's rows, convert
    Wh to kWh, sum the six channels per weekday with the first record's date
    as the label, pick the weekday of lowest net consumption, and render the
    week's table; the weeks' tables are joined into one text. */
module ReportB {
  import opened Maybe
  import opened PyText
  import opened Meter
  import opened Decimal
  import opened Weekly

  /** The field rule: the cell is stripped, a blank cell reads as 0 and
      anything else goes through int(). */
  function ParseField(text: string): (r: Option<int>)
    ensures AllSpace(text) ==> r == Some(0)
    ensures !AllSpace(text) ==> r == ParseInt(text)
  {
    var val := Strip(text);
    ParseIntIgnoresStrip(text);
    if val == [] then Some(0) else ParseInt(val)
  }

  /** A number with whitespace around it reads as that number. */
  lemma ParseFieldNumber(n: int, pre: string, post: string)
    requires AllSpace(pre) && AllSpace(post)
    ensures ParseField(pre + IntText(n) + post) == Some(n)
  {
    ParseIntText(n, pre, post);
  }

  // ---------------------------------------------------------------------
  // Aggregation by weekday

  /** The first of the six channels, from index c on, that a record lacks. */
  function MissingFrom(r: Record, c: nat): (m: Option<nat>)
    requires c <= 6
    ensures m.None? <==> forall k :: c <= k < 6 ==> Channels[k] in r.channels
    ensures m.Some? ==> c <= m.value < 6 && Channels[m.value] !in r.channels
    ensures m.Some? ==> forall k :: c <= k < m.value ==> Channels[k] in r.channels
    decreases 6 - c
  {
    if c == 6 then None
    else if Channels[c] !in r.channels then Some(c)
    else MissingFrom(r, c + 1)
  }

  /** The record has all six channels. */
  predicate Complete(r: Record) {
    forall k :: 0 <= k < 6 ==> Channels[k] in r.channels
  }

  /** The first of the six channels, in key order, that a record lacks. */
  function MissingChannelOf(r: Record): (m: Option<nat>)
    ensures m.None? <==> forall k :: 0 <= k < 6 ==> Channels[k] in r.channels
    ensures m.Some? ==> m.value < 6 && Channels[m.value] !in r.channels
    ensures m.Some? ==> forall k :: 0 <= k < m.value ==> Channels[k] in r.channels
  {
    MissingFrom(r, 0)
  }

  /** The index of the first record that lacks one of the six channels. */
  function FirstIncomplete(data: seq<Record>): (r: Option<nat>)
    ensures r.None? <==> forall i :: 0 <= i < |data| ==> MissingChannelOf(data[i]).None?
    ensures r.Some? ==> r.value < |data| && MissingChannelOf(data[r.value]).Some?
    ensures r.Some? ==> forall i :: 0 <= i < r.value ==> MissingChannelOf(data[i]).None?
  {
    if data == [] then None
    else
      var init := data[..|data| - 1];
      assert forall i :: 0 <= i < |init| ==> init[i] == data[i];
      var f := FirstIncomplete(init);
      if f.Some? then f
      else if MissingChannelOf(data[|data| - 1]).Some? then Some(|data| - 1)
      else None
  }

  /** A complete record keeps a complete prefix complete. */
  lemma CompleteStep(data: seq<Record>, i: nat)
    requires i < |data| && FirstIncomplete(data[..i]).None? && Complete(data[i])
    ensures FirstIncomplete(data[..i + 1]).None?
  {
    assert data[..i + 1][..i] == data[..i];
    assert MissingChannelOf(data[i]).None?;
  }

  /** Weekday d's accumulator once every record is folded in, before the
      rounding pass: labelled with the date of the first record on d. */
  function FoldedDay(data: seq<Record>, d: Weekday): Option<DayTotals> {
    match FirstOn(data, d)
    case None => None
    case Some(i) => Some(DayTotals(DateLabel(data[i].stamp), RunningSums(data, d)))
  }

  /** The summary of a week: a slot exactly for the weekdays that occur,
      holding the date of the weekday's first record and each channel's sum
      over the weekday's records rounded to two decimals; the keys in the
      order the weekdays first occur. */
  function WeekSummary(data: seq<Record>): (s: Summary)
    ensures WellFormed(s)
  {
    var order := FirstSeenOrder(data);
    assert forall j, k :: 0 <= j < k < |order| ==> order[j] != order[k];
    Summary(seq(7, d requires 0 <= d < 7 => RoundedDay(FoldedDay(data, d))), order)
  }

  /** t is weekday d's accumulator after folding in data, sums unrounded
      (FoldedDay, stated slot by slot). */
  predicate Folded(t: Option<DayTotals>, data: seq<Record>, d: Weekday) {
    match FirstOn(data, d)
    case None => t.None?
    case Some(i) =>
      && t.Some? && t.value.date == DateLabel(data[i].stamp) && |t.value.sums| == 6
      && forall k :: 0 <= k < 6 ==> t.value.sums[k] == ChannelSum(data, d, Channels[k])
  }

  lemma FoldedIsSlot(t: Option<DayTotals>, data: seq<Record>, d: Weekday)
    requires Folded(t, data, d)
    ensures t == FoldedDay(data, d)
  {
    if t.Some? {
      assert t.value.sums == RunningSums(data, d);
    }
  }

  /** Record i leaves the accumulators of the other weekdays as they were. */
  lemma FoldOther(data: seq<Record>, i: nat, t: Option<DayTotals>, e: Weekday)
    requires i < |data| && data[i].stamp.weekday != e && Folded(t, data[..i], e)
    ensures Folded(t, data[..i + 1], e)
  {
    FirstOnStep(data, i, e);
    forall k | 0 <= k < 6 {
      ChannelSumStep(data, i, e, Channels[k]);
    }
  }

  /** Record i adds its six channels to its weekday's accumulator, which keeps
      its date or, when new, takes the record's. */
  lemma FoldSame(data: seq<Record>, i: nat, t: Option<DayTotals>, sums: seq<real>)
    requires i < |data| && Complete(data[i])
    requires Folded(t, data[..i], data[i].stamp.weekday)
    requires |sums| == 6
    requires forall k :: 0 <= k < 6 ==>
      sums[k] == (if t.None? then 0.0 else t.value.sums[k]) + data[i].channels[Channels[k]]
    ensures Folded(Some(DayTotals(if t.None? then DateLabel(data[i].stamp) else t.value.date, sums)),
                   data[..i + 1], data[i].stamp.weekday)
  {
    var d := data[i].stamp.weekday;
    var r := data[i];
    FirstOnStep(data, i, d);
    forall k | 0 <= k < 6 ensures sums[k] == ChannelSum(data[..i + 1], d, Channels[k]) {
      ChannelSumStep(data, i, d, Channels[k]);
      assert Channels[k] in r.channels;
      if t.None? {
        assert ChannelSum(data[..i], d, Channels[k]) == 0.0 by {
          ChannelSumNone(data[..i], d, Channels[k]);
        }
      }
    }
  }

  /** Every weekday's slot of ds is its accumulator after folding in data. */
  predicate AllFolded(ds: seq<Option<DayTotals>>, data: seq<Record>) {
    |ds| == 7 && forall d: Weekday :: Folded(ds[d], data, d)
  }

  /** Folding record i into its weekday's slot keeps every slot folded. */
  lemma FoldStep(ds: seq<Option<DayTotals>>, data: seq<Record>, i: nat, sums: seq<real>)
    requires i < |data| && Complete(data[i])
    requires AllFolded(ds, data[..i])
    requires |sums| == 6
    requires var t := ds[data[i].stamp.weekday];
      forall k :: 0 <= k < 6 ==>
        sums[k] == (if t.None? then 0.0 else t.value.sums[k]) + data[i].channels[Channels[k]]
    ensures var d := data[i].stamp.weekday; var t := ds[d];
      AllFolded(ds[d := Some(DayTotals(if t.None? then DateLabel(data[i].stamp) else t.value.date, sums))],
                data[..i + 1])
  {
    var d := data[i].stamp.weekday;
    var t := ds[d];
    var ds' := ds[d := Some(DayTotals(if t.None? then DateLabel(data[i].stamp) else t.value.date, sums))];
    forall e: Weekday ensures Folded(ds'[e], data[..i + 1], e) {
      if e == d {
        FoldSame(data, i, t, sums);
      } else {
        FoldOther(data, i, ds[e], e);
      }
    }
  }

  /** In the middle of the fold, a weekday has a slot exactly when it is in
      the insertion order. */
  lemma SlotIffOrdered(ds: seq<Option<DayTotals>>, order: seq<Weekday>, data: seq<Record>, d: Weekday)
    requires AllFolded(ds, data) && order == FirstSeenOrder(data)
    ensures ds[d].None? <==> d !in order
  {
    assert Folded(ds[d], data, d);
  }

  /** The loop invariant of the fold survives one complete record. */
  lemma FoldInvariantStep(ds: seq<Option<DayTotals>>, order: seq<Weekday>, data: seq<Record>, i: nat, sums: seq<real>)
    requires i < |data| && Complete(data[i])
    requires AllFolded(ds, data[..i]) && order == FirstSeenOrder(data[..i])
    requires |sums| == 6
    requires var t := ds[data[i].stamp.weekday];
      forall k :: 0 <= k < 6 ==>
        sums[k] == (if t.None? then 0.0 else t.value.sums[k]) + data[i].channels[Channels[k]]
    ensures var d := data[i].stamp.weekday; var t := ds[d];
      && AllFolded(ds[d := Some(DayTotals(if t.None? then DateLabel(data[i].stamp) else t.value.date, sums))],
                   data[..i + 1])
      && FirstSeenOrder(data[..i + 1]) == if t.None? then order + [d] else order
  {
    FoldStep(ds, data, i, sums);
    FirstSeenOrderStep(data, i);
    SlotIffOrdered(ds, order, data[..i], data[i].stamp.weekday);
  }

  /** FoldInvariantStep for sums added onto the accumulator the fold found or
      created. */
  lemma FoldAccStep(ds: seq<Option<DayTotals>>, order: seq<Weekday>, data: seq<Record>, i: nat,
                    base: seq<real>, sums: seq<real>)
    requires i < |data| && Complete(data[i])
    requires AllFolded(ds, data[..i]) && order == FirstSeenOrder(data[..i])
    requires base == if ds[data[i].stamp.weekday].None? then NoSums else ds[data[i].stamp.weekday].value.sums
    requires |sums| == 6 && forall k :: 0 <= k < 6 ==> sums[k] == base[k] + data[i].channels[Channels[k]]
    ensures var d := data[i].stamp.weekday; var t := ds[d];
      && AllFolded(ds[d := Some(DayTotals(if t.None? then DateLabel(data[i].stamp) else t.value.date, sums))],
                   data[..i + 1])
      && FirstSeenOrder(data[..i + 1]) == if t.None? then order + [d] else order
  {
    FoldInvariantStep(ds, order, data, i, sums);
  }

  /** Once every record is folded in, each slot is FoldedDay and the keyed
      weekdays are those in the insertion order. */
  lemma FoldedSlots(ds: seq<Option<DayTotals>>, order: seq<Weekday>, data: seq<Record>)
    requires AllFolded(ds, data) && order == FirstSeenOrder(data)
    ensures forall d: Weekday :: ds[d] == FoldedDay(data, d) && (ds[d].None? <==> d !in order)
  {
    forall d: Weekday ensures ds[d] == FoldedDay(data, d) && (ds[d].None? <==> d !in order) {
      FoldedIsSlot(ds[d], data, d);
      SlotIffOrdered(ds, order, data, d);
    }
  }

  /** The slots after the rounding pass are the summary's. */
  lemma RoundedSlots(ds: seq<Option<DayTotals>>, data: seq<Record>)
    requires |ds| == 7 && forall d: Weekday :: ds[d] == RoundedDay(FoldedDay(data, d))
    ensures ds == WeekSummary(data).days
  {
  }

  /** A record lacking channel c but holding the ones before it misses c first. */
  lemma MissingChannelIs(r: Record, c: nat)
    requires c < 6 && Channels[c] !in r.channels
    requires forall k :: 0 <= k < c ==> Channels[k] in r.channels
    ensures MissingChannelOf(r) == Some(c)
  {
    var m := MissingChannelOf(r);
    assert !(m.value < c);
    assert !(m.value > c);
  }

  /** Record i is the first incomplete one when the records before it are
      complete, and it lacks channel c but has the ones before c. */
  lemma FirstIncompleteAt(data: seq<Record>, i: nat, c: nat)
    requires i < |data| && c < 6
    requires FirstIncomplete(data[..i]).None?
    requires forall k :: 0 <= k < c ==> Channels[k] in data[i].channels
    requires Channels[c] !in data[i].channels
    ensures FirstIncomplete(data) == Some(i) && MissingChannelOf(data[i]) == Some(c)
  {
    MissingChannelIs(data[i], c);
    forall j | 0 <= j < i ensures MissingChannelOf(data[j]).None? {
      assert data[..i][j] == data[j];
    }
    FirstIncompleteIs(data, i);
  }

  /** The first incomplete record is the one after a complete run. */
  lemma {:induction false} FirstIncompleteIs(data: seq<Record>, i: nat)
    requires i < |data| && MissingChannelOf(data[i]).Some?
    requires forall j :: 0 <= j < i ==> MissingChannelOf(data[j]).None?
    ensures FirstIncomplete(data) == Some(i)
  {
    var init := data[..|data| - 1];
    forall j | 0 <= j < |init| ensures init[j] == data[j] { }
    if i < |init| {
      FirstIncompleteIs(init, i);
    } else {
      assert FirstIncomplete(init).None?;
    }
  }

  /** The inner loop of the fold: the record's six channels added to an
      accumulator's sums, or the first channel the record lacks. */
  method AddChannels(r: Record, acc: seq<real>) returns (res: Result<seq<real>, nat>)
    requires |acc| == 6
    ensures res.Ok? <==> Complete(r)
    ensures res.Ok? ==> (|res.value| == 6 &&
      forall k :: 0 <= k < 6 ==> res.value[k] == acc[k] + r.channels[Channels[k]])
    ensures res.Err? ==> (res.error < 6 && Channels[res.error] !in r.channels &&
      forall k :: 0 <= k < res.error ==> Channels[k] in r.channels)
  {
    var sums := acc;
    for c := 0 to 6
      invariant |sums| == 6
      invariant forall k :: 0 <= k < c ==> Channels[k] in r.channels
      invariant forall k :: 0 <= k < 6 ==> sums[k] == acc[k] + (if k < c then r.channels[Channels[k]] else 0.0)
    {
      if Channels[c] !in r.channels {
        return Err(c);
      }
      sums := sums[c := sums[c] + r.channels[Channels[c]]];
    }
    return Ok(sums);
  }

  /** One step of the fold in laske_yhteenveto: record i's weekday gets an
      accumulator with an empty label and zero sums if it has none (and joins
      the insertion order), the label is set while still empty, and the six
      channels are added; a missing channel is reported instead. */
  method FoldRecord(days: array<Option<DayTotals>>, order: seq<Weekday>, data: seq<Record>, i: nat)
      returns (order': seq<Weekday>, missing: Option<nat>)
    requires days.Length == 7 && i < |data|
    requires FirstIncomplete(data[..i]).None?
    requires AllFolded(days[..], data[..i]) && order == FirstSeenOrder(data[..i])
    modifies days
    ensures missing.Some? ==> FirstIncomplete(data) == Some(i) && MissingChannelOf(data[i]) == missing
    ensures missing.None? ==>
      && FirstIncomplete(data[..i + 1]).None?
      && AllFolded(days[..], data[..i + 1])
      && order' == FirstSeenOrder(data[..i + 1])
  {
    var rivi := data[i];
    var d := rivi.stamp.weekday;
    ghost var before := days[..];
    var t := days[d];
    order' := order;
    if t.None? {
      days[d] := Some(DayTotals("", NoSums));
      order' := order' + [d];
    }
    var acc := if t.None? then DayTotals("", NoSums) else t.value;
    if acc.date == "" {
      acc := acc.(date := DateLabel(rivi.stamp));
    }
    var added := AddChannels(rivi, acc.sums);
    if added.Err? {
      FirstIncompleteAt(data, i, added.error);
      return order', Some(added.error);
    }
    CompleteStep(data, i);
    FoldAccStep(before, order, data, i, acc.sums, added.value);
    days[d] := Some(acc.(sums := added.value));
    assert days[..] == before[d := days[d]];
    missing := None;
  }

  /** laske_yhteenveto: the fold over the records (a missing channel is a
      KeyError), then a pass over the keys that rounds every sum to two
      decimals. */
  method Summarize(data: seq<Record>) returns (r: Result<Summary, Failure>)
    ensures FirstIncomplete(data).None? ==> r == Ok(WeekSummary(data))
    ensures FirstIncomplete(data).Some? ==>
      var i := FirstIncomplete(data).value;
      r == Err(MissingChannel(i, Channels[MissingChannelOf(data[i]).value]))
  {
    var days := new Option<DayTotals>[7](_ => None);
    var order: seq<Weekday> := [];
    for i := 0 to |data|
      invariant FirstIncomplete(data[..i]).None?
      invariant AllFolded(days[..], data[..i])
      invariant order == FirstSeenOrder(data[..i])
    {
      var missing;
      order, missing := FoldRecord(days, order, data, i);
      if missing.Some? {
        return Err(MissingChannel(i, Channels[missing.value]));
      }
    }
    assert data[..|data|] == data;
    FoldedSlots(days[..], order, data);
    RoundingPass(days, order);
    RoundedSlots(days[..], data);
    r := Ok(Summary(days[..], order));
  }

  // ---------------------------------------------------------------------
  // The weekday of lowest net consumption

  /** The net consumption of the key at position j of the insertion order. */
  function NetAt(s: Summary, j: nat): real
    requires WellFormed(s) && j < |s.order|
  {
    assert s.order[j] in s.order;
    Net(s.days[s.order[j]].value)
  }

  /** The position, among the first n keys in insertion order, of the
      lowest net consumption; on a tie, the earliest such position. */
  function LowestPos(s: Summary, n: nat): (p: Option<nat>)
    requires WellFormed(s) && n <= |s.order|
    ensures p.None? <==> n == 0
    ensures p.Some? ==> p.value < n
  {
    if n == 0 then None
    else
      var prev := LowestPos(s, n - 1);
      if prev.None? || NetAt(s, n - 1) < NetAt(s, prev.value) then Some(n - 1) else prev
  }

  /** LowestPos is a position of the minimum, and every earlier position has
      a strictly higher net consumption. */
  lemma {:induction false} LowestPosIsFirstMinimum(s: Summary, n: nat)
    requires WellFormed(s) && 0 < n <= |s.order|
    ensures var p := LowestPos(s, n).value;
      && (forall j :: 0 <= j < n ==> NetAt(s, p) <= NetAt(s, j))
      && (forall j :: 0 <= j < p ==> NetAt(s, p) < NetAt(s, j))
  {
    if n > 1 {
      LowestPosIsFirstMinimum(s, n - 1);
    }
  }

  /** The two properties of LowestPos pin the position down. */
  lemma LowestPosUnique(s: Summary, n: nat, q: nat)
    requires WellFormed(s) && q < n <= |s.order|
    requires forall j :: 0 <= j < n ==> NetAt(s, q) <= NetAt(s, j)
    requires forall j :: 0 <= j < q ==> NetAt(s, q) < NetAt(s, j)
    ensures LowestPos(s, n) == Some(q)
  {
    var p := LowestPos(s, n).value;
    LowestPosIsFirstMinimum(s, n);
    assert NetAt(s, p) <= NetAt(s, q) && NetAt(s, q) <= NetAt(s, p);
  }

  /** pienin_nettokulutus_paiva as a value: the weekday of lowest net
      consumption, the first one in insertion order on a tie; None for an
      empty summary. */
  function Lowest(s: Summary): Option<Weekday>
    requires WellFormed(s)
  {
    match LowestPos(s, |s.order|)
    case None => None
    case Some(p) => Some(s.order[p])
  }

  /** The selected weekday has a slot and no present weekday has a lower net
      consumption; there is a selection exactly when the summary is not
      empty. */
  lemma LowestIsMinimal(s: Summary)
    requires WellFormed(s)
    ensures Lowest(s).None? <==> forall d: Weekday :: s.days[d].None?
    ensures Lowest(s).Some? ==> s.days[Lowest(s).value].Some?
    ensures Lowest(s).Some? ==> forall d: Weekday :: s.days[d].Some? ==>
      Net(s.days[Lowest(s).value].value) <= Net(s.days[d].value)
  {
    if s.order != [] {
      var p := LowestPos(s, |s.order|).value;
      LowestPosIsFirstMinimum(s, |s.order|);
      assert s.order[p] in s.order;
      forall d: Weekday | s.days[d].Some?
        ensures Net(s.days[s.order[p]].value) <= Net(s.days[d].value)
      {
        var j :| 0 <= j < |s.order| && s.order[j] == d;
        assert NetAt(s, p) <= NetAt(s, j);
      }
    } else {
      forall d: Weekday ensures s.days[d].None? {
        assert d !in s.order;
      }
    }
  }

  /** A weekday inserted before the selected one has a strictly higher net
      consumption: ties go to the weekday whose records came first. */
  lemma LowestTieBreak(s: Summary, j: nat, k: nat)
    requires WellFormed(s) && j < k < |s.order| && Lowest(s) == Some(s.order[k])
    ensures Net(s.days[s.order[k]].value) < Net(s.days[s.order[j]].value)
  {
    var p := LowestPos(s, |s.order|).value;
    LowestPosIsFirstMinimum(s, |s.order|);
    assert s.order[p] == s.order[k];
    assert p == k;
    assert NetAt(s, k) < NetAt(s, j);
  }

  /** pienin_nettokulutus_paiva: a pass over the keys in insertion order that
      keeps a weekday whose net consumption is strictly below the best so
      far. */
  method LowestNetDay(s: Summary) returns (r: Option<Weekday>)
    requires WellFormed(s)
    ensures r == Lowest(s)
  {
    var best: Option<Weekday> := None;
    var bestNet: real := 0.0;
    ghost var bestPos: Option<nat> := None;
    for j := 0 to |s.order|
      invariant bestPos == LowestPos(s, j)
      invariant best == (if bestPos.None? then None else Some(s.order[bestPos.value]))
      invariant bestPos.Some? ==> bestNet == NetAt(s, bestPos.value)
    {
      var d := s.order[j];
      assert d in s.order;
      var row := s.days[d].value;
      var kulutus := row.sums[0] + row.sums[1] + row.sums[2];
      var tuotanto := row.sums[3] + row.sums[4] + row.sums[5];
      var netto := kulutus - tuotanto;
      if best.None? || netto < bestNet {
        bestNet := netto;
        best := Some(d);
        bestPos := Some(j);
      }
    }
    r := best;
  }

  /** When the records come in weekday order, so do the keys. */
  lemma SortedRecordsSortedKeys(data: seq<Record>)
    requires forall i, j :: 0 <= i < j < |data| ==> data[i].stamp.weekday <= data[j].stamp.weekday
    ensures var order := WeekSummary(data).order;
      forall j, k :: 0 <= j < k < |order| ==> order[j] < order[k]
  {
    var order := FirstSeenOrder(data);
    forall j, k | 0 <= j < k < |order| ensures order[j] < order[k] {
      var a := FirstOn(data, order[j]).value;
      var b := FirstOn(data, order[k]).value;
      assert a < b;
    }
  }

  /** When the keys are in weekday order, a tie for the lowest net
      consumption goes to the earlier weekday. */
  lemma AscendingKeysTieGoesToEarlierDay(s: Summary, e: Weekday)
    requires WellFormed(s)
    requires forall j, k :: 0 <= j < k < |s.order| ==> s.order[j] < s.order[k]
    requires Lowest(s).Some? && e < Lowest(s).value && s.days[e].Some?
    ensures Net(s.days[Lowest(s).value].value) < Net(s.days[e].value)
  {
    var d := Lowest(s).value;
    var k := LowestPos(s, |s.order|).value;
    var j :| 0 <= j < |s.order| && s.order[j] == e;
    assert s.order[k] == d;
    if k < j {
      assert false;
    }
    LowestTieBreak(s, j, k);
  }

  /** Records after the first one on a weekday do not change its label. */
  lemma LaterRecordsKeepLabel(data: seq<Record>, more: seq<Record>, d: Weekday)
    requires WeekSummary(data).days[d].Some?
    ensures WeekSummary(data + more).days[d].Some?
    ensures WeekSummary(data + more).days[d].value.date == WeekSummary(data).days[d].value.date
  {
    var i := FirstOn(data, d).value;
    FirstOnAppend(data, more, d);
    assert (data + more)[i] == data[i];
  }

  /** An empty week has no keys. */
  lemma EmptyWeek()
    ensures WeekSummary([]).order == []
    ensures forall d: Weekday :: WeekSummary([]).days[d].None?
  {
  }

  // ---------------------------------------------------------------------
  // The week's report text

  /** The title line of a week's report. */
  function Title(weekLabel: string): string {
    weekLabel + TitleSuffix
  }

  /** The phase heading line under HeaderDays. */
  const HeaderPhases: string :=
    Spaces(13) + "(pv.kk.vvvv)" + Spaces(2) + "v1" + Spaces(6) + "v2" + Spaces(6) + "v3"
      + Spaces(12) + "v1" + Spaces(5) + "v2" + Spaces(5) + "v3"

  /** The rule under the headers and at the end of the table. */
  const Rule: string := Dashes(75)

  /** One weekday's line: the marker ('*' for the selected weekday, else a
      space), the name padded to 11, the date, the three consumption cells
      and, four spaces on, the three production cells, cells two spaces
      apart. */
  function DayLine(d: Weekday, date: string, cells: seq<string>, marker: char): string
    requires |cells| == 6
  {
    [marker] + PadRight(WeekdayNames[d], 11) + " " + date + "   "
      + Join(cells[..3], "  ") + "    " + Join(cells[3..], "  ")
  }

  /** Weekday d's line in the report of s. */
  function RowOf(s: Summary, mark: Option<Weekday>, d: Weekday): string
    requires WellFormed(s) && s.days[d].Some?
  {
    var t := s.days[d].value;
    DayLine(d, t.date, Cells(t.sums), if mark == Some(d) then '*' else ' ')
  }

  /** The lines of the weekdays below n that have a slot, Monday first. */
  function RowsUpTo(s: Summary, mark: Option<Weekday>, n: nat): (r: seq<string>)
    requires WellFormed(s) && n <= 7
  {
    if n == 0 then []
    else RowsUpTo(s, mark, n - 1) + (if s.days[n - 1].Some? then [RowOf(s, mark, n - 1)] else [])
  }

  /** There is a line for each present weekday below n. */
  lemma {:induction false} RowsUpToLength(s: Summary, mark: Option<Weekday>, n: nat)
    requires WellFormed(s) && n <= 7
    ensures |RowsUpTo(s, mark, n)| == |PresentUpTo(s, n)|
  {
    if n > 0 {
      RowsUpToLength(s, mark, n - 1);
      if s.days[n - 1].Some? {
        assert PresentUpTo(s, n) == PresentUpTo(s, n - 1) + [n - 1];
      } else {
        assert PresentUpTo(s, n) == PresentUpTo(s, n - 1);
      }
    }
  }

  /** Line j below the headers, for one j. */
  lemma {:induction false} RowAt(s: Summary, mark: Option<Weekday>, n: nat, j: nat)
    requires WellFormed(s) && n <= 7 && j < |RowsUpTo(s, mark, n)|
    ensures |RowsUpTo(s, mark, n)| == |PresentUpTo(s, n)|
    ensures RowsUpTo(s, mark, n)[j] == RowOf(s, mark, PresentUpTo(s, n)[j])
  {
    RowsUpToLength(s, mark, n);
    RowsUpToLength(s, mark, n - 1);
    var rows := RowsUpTo(s, mark, n - 1);
    var p := PresentUpTo(s, n - 1);
    if s.days[n - 1].Some? {
      assert RowsUpTo(s, mark, n) == rows + [RowOf(s, mark, n - 1)];
      assert PresentUpTo(s, n) == p + [n - 1];
      if j < |rows| {
        RowAt(s, mark, n - 1, j);
      }
    } else {
      assert RowsUpTo(s, mark, n) == rows;
      assert PresentUpTo(s, n) == p;
      RowAt(s, mark, n - 1, j);
    }
  }

  /** The j-th line below the headers belongs to the j-th present weekday. */
  lemma RowsUpToPresent(s: Summary, mark: Option<Weekday>, n: nat)
    requires WellFormed(s) && n <= 7
    ensures |RowsUpTo(s, mark, n)| == |PresentUpTo(s, n)|
    ensures forall j :: 0 <= j < |RowsUpTo(s, mark, n)| ==>
      RowsUpTo(s, mark, n)[j] == RowOf(s, mark, PresentUpTo(s, n)[j])
  {
    RowsUpToLength(s, mark, n);
    forall j | 0 <= j < |RowsUpTo(s, mark, n)|
      ensures RowsUpTo(s, mark, n)[j] == RowOf(s, mark, PresentUpTo(s, n)[j])
    {
      RowAt(s, mark, n, j);
    }
  }

  /** The title, a blank line, the two headers and the rule. */
  function Headers(weekLabel: string): seq<string> {
    [Title(weekLabel), "", HeaderDays, HeaderPhases, Rule]
  }

  /** muodosta_viikkoraportti's lines: a blank line, the title, a blank line,
      the two headers, the rule, a line per present weekday from Monday to
      Sunday, and the rule again. */
  function ReportLines(weekLabel: string, s: Summary): seq<string>
    requires WellFormed(s)
  {
    [""] + Headers(weekLabel) + RowsUpTo(s, Lowest(s), 7) + [Rule]
  }

  /** muodosta_viikkoraportti: the lines joined with newlines. */
  function ReportText(weekLabel: string, s: Summary): string
    requires WellFormed(s)
  {
    Join(ReportLines(weekLabel, s), "\n")
  }

  /** muodosta_viikkoraportti: select the weekday to mark, build the title and
      header lines, append a line for each present weekday in calendar order,
      put a blank line first and the rule last, and join. */
  method WeeklyReport(weekLabel: string, s: Summary) returns (text: string)
    requires WellFormed(s)
    ensures text == ReportText(weekLabel, s)
  {
    var korosta := LowestNetDay(s);
    var lines := Headers(weekLabel);
    for d := 0 to 7
      invariant lines == Headers(weekLabel) + RowsUpTo(s, korosta, d)
    {
      if s.days[d].Some? {
        var row := s.days[d].value;
        var merkki := if korosta == Some(d) then '*' else ' ';
        var line := DayLine(d, row.date, Cells(row.sums), merkki);
        assert line == RowOf(s, korosta, d);
        AppendAssociates(Headers(weekLabel), RowsUpTo(s, korosta, d), line);
        lines := lines + [line];
      }
    }
    lines := [""] + lines;
    lines := lines + [Rule];
    assert lines == ReportLines(weekLabel, s);
    text := Join(lines, "\n");
  }

  /** The report opens with a blank line and the header block, closes with
      the rule, and in between has the weekday lines, one per weekday with a
      slot (RowsUpToPresent says which line is whose). */
  lemma ReportFrame(weekLabel: string, s: Summary)
    requires WellFormed(s)
    ensures var lines := ReportLines(weekLabel, s);
      && |lines| == 7 + |PresentDays(s)|
      && lines[..6] == [""] + Headers(weekLabel)
      && lines[6..|lines| - 1] == RowsUpTo(s, Lowest(s), 7)
      && lines[|lines| - 1] == Rule
  {
    RowsUpToPresent(s, Lowest(s), 7);
    LinesAt([""] + Headers(weekLabel), RowsUpTo(s, Lowest(s), 7), Rule);
  }

  /** A weekday's line starts with '*' exactly when it is the selected
      weekday, and the selected weekday, if any, has a line: one line is
      marked in a week with records and none in an empty week. */
  lemma MarkedLine(s: Summary)
    requires WellFormed(s)
    ensures forall d: Weekday :: s.days[d].Some? ==>
      (RowOf(s, Lowest(s), d)[0] == '*' <==> Lowest(s) == Some(d))
    ensures Lowest(s).Some? ==> Lowest(s).value in PresentDays(s)
    ensures Lowest(s).None? <==> PresentDays(s) == []
  {
    LowestIsMinimal(s);
    if PresentDays(s) != [] {
      var d: Weekday := PresentDays(s)[0];
      assert d in PresentDays(s);
    }
  }

  /** A weekday line of a ten-character date and six-character cells is 74
      characters wide: the marker, the name padded to 11, the date at 13..23,
      and the six cells at fixed columns. */
  lemma DayLineColumns(d: Weekday, date: string, cells: seq<string>, marker: char)
    requires |date| == 10 && |cells| == 6
    requires forall k :: 0 <= k < 6 ==> |cells[k]| == 6
    ensures var line := DayLine(d, date, cells, marker);
      && |line| == 74
      && line[0] == marker
      && line[1..12] == PadRight(WeekdayNames[d], 11)
      && line[13..23] == date
      && line[26..32] == cells[0] && line[34..40] == cells[1] && line[42..48] == cells[2]
      && line[52..58] == cells[3] && line[60..66] == cells[4] && line[68..74] == cells[5]
  {
    assert cells[..3] == [cells[0], cells[1], cells[2]];
    assert cells[3..] == [cells[3], cells[4], cells[5]];
    JoinThree(cells[0], cells[1], cells[2], "  ");
    JoinThree(cells[3], cells[4], cells[5], "  ");
    RunSlices(cells[0], cells[1], cells[2]);
    RunSlices(cells[3], cells[4], cells[5]);
    LineSlices(marker, PadRight(WeekdayNames[d], 11), date,
      Join(cells[..3], "  "), Join(cells[3..], "  "));
  }

  /** Where the pieces of a weekday line sit. */
  lemma LineSlices(marker: char, name: string, date: string, cons: string, prod: string)
    requires |name| == 11 && |date| == 10 && |cons| == 22 && |prod| == 22
    ensures var line := [marker] + name + " " + date + "   " + cons + "    " + prod;
      && |line| == 74 && line[0] == marker && line[1..12] == name && line[13..23] == date
      && line[26..48] == cons && line[52..74] == prod
  {
    var line := [marker] + name + " " + date + "   " + cons + "    " + prod;
    assert line[1..12] == name;
    assert line[13..23] == date;
    assert line[26..48] == cons;
    assert line[52..74] == prod;
  }

  /** A weekday line breaks no line when its date does not. */
  lemma DayLineOneLine(d: Weekday, date: string, cells: seq<string>, marker: char)
    requires |cells| == 6 && marker != '\n' && '\n' !in date
    requires forall k :: 0 <= k < 6 ==> '\n' !in cells[k]
    ensures '\n' !in DayLine(d, date, cells, marker)
  {
    JoinAvoids(cells[..3], "  ", '\n');
    JoinAvoids(cells[3..], "  ", '\n');
    var name := PadRight(WeekdayNames[d], 11);
    assert '\n' !in name by {
      forall i | 0 <= i < |name| ensures name[i] != '\n' {
        if i < |WeekdayNames[d]| {
          assert name[i] == WeekdayNames[d][i];
        }
      }
    }
  }

  /** A weekday line holds no line break when its date holds none. */
  lemma RowOneLine(s: Summary, mark: Option<Weekday>, d: Weekday)
    requires WellFormed(s) && s.days[d].Some? && '\n' !in s.days[d].value.date
    ensures '\n' !in RowOf(s, mark, d)
  {
    var t := s.days[d].value;
    CellsOneLine(t.sums);
    DayLineOneLine(d, t.date, Cells(t.sums), if mark == Some(d) then '*' else ' ');
  }

  /** No weekday line breaks a line when no date does. */
  lemma {:induction false} RowsOneLine(s: Summary, mark: Option<Weekday>, n: nat)
    requires WellFormed(s) && n <= 7
    requires forall d: Weekday :: s.days[d].Some? ==> '\n' !in s.days[d].value.date
    ensures forall j :: 0 <= j < |RowsUpTo(s, mark, n)| ==> '\n' !in RowsUpTo(s, mark, n)[j]
  {
    if n > 0 {
      RowsOneLine(s, mark, n - 1);
      var d: Weekday := n - 1;
      if s.days[d].Some? {
        RowOneLine(s, mark, d);
        assert RowsUpTo(s, mark, n) == RowsUpTo(s, mark, n - 1) + [RowOf(s, mark, d)];
      } else {
        assert RowsUpTo(s, mark, n) == RowsUpTo(s, mark, n - 1);
      }
    }
  }

  /** Splitting a week's report at line breaks gives back its lines, as long
      as neither the week label nor a date holds a line break. */
  lemma ReportSplitsIntoLines(weekLabel: string, s: Summary)
    requires WellFormed(s) && '\n' !in weekLabel
    requires forall d: Weekday :: s.days[d].Some? ==> '\n' !in s.days[d].value.date
    ensures Split(ReportText(weekLabel, s), '\n') == ReportLines(weekLabel, s)
  {
    var rows := RowsUpTo(s, Lowest(s), 7);
    RowsOneLine(s, Lowest(s), 7);
    HeadersOneLine(weekLabel);
    OneLineEach([""] + Headers(weekLabel), rows, Rule);
  }

  /** The lines above the weekday lines hold no line break. */
  lemma HeadersOneLine(weekLabel: string)
    requires '\n' !in weekLabel
    ensures forall k :: 0 <= k < |[""] + Headers(weekLabel)| ==> '\n' !in ([""] + Headers(weekLabel))[k]
    ensures '\n' !in Rule
  {
    assert '\n' !in Title(weekLabel);
    assert '\n' !in HeaderDays;
    assert '\n' !in HeaderPhases;
    assert '\n' !in Rule;
  }

  /** Lines that hold no line break split back apart after joining. */
  lemma OneLineEach(h: seq<string>, rows: seq<string>, last: string)
    requires forall k :: 0 <= k < |h| ==> '\n' !in h[k]
    requires forall k :: 0 <= k < |rows| ==> '\n' !in rows[k]
    requires '\n' !in last
    ensures Split(Join(h + rows + [last], "\n"), '\n') == h + rows + [last]
  {
    var l := h + rows + [last];
    forall k | 0 <= k < |l| ensures '\n' !in l[k] {
      if k < |h| {
        assert l[k] == h[k];
      } else if k < |h| + |rows| {
        assert l[k] == rows[k - |h|];
      }
    }
    SplitJoinLines(l, '\n');
  }

  // ---------------------------------------------------------------------
  // The report over several weeks

  /** One week of the run: its label and the rows of its file. */
  datatype Period = Period(week: string, rows: seq<Row>)

  /** The rows of every week form dicts. */
  predicate ValidPeriods(periods: seq<Period>) {
    forall k :: 0 <= k < |periods| ==> DistinctCells(periods[k].rows)
  }

  /** One week's text: read and convert its records, summarize them and
      render the report, or the error that stops the run. */
  function PeriodReport(p: Period): Result<string, Failure>
    requires DistinctCells(p.rows)
  {
    match ParsedRecords(p.rows, ParseField)
    case Err(e) => Err(e)
    case Ok(raw) =>
      var data := InKwh(raw);
      match FirstIncomplete(data)
      case Some(i) => Err(MissingChannel(i, Channels[MissingChannelOf(data[i]).value]))
      case None => Ok(ReportText(p.week, WeekSummary(data)))
  }

  /** The date labels of a summary hold digits and dots only. */
  lemma SummaryDatesOneLine(data: seq<Record>)
    ensures forall d: Weekday :: WeekSummary(data).days[d].Some? ==> '\n' !in WeekSummary(data).days[d].value.date
  {
    forall d: Weekday | WeekSummary(data).days[d].Some?
      ensures '\n' !in WeekSummary(data).days[d].value.date
    {
      var i := FirstOn(data, d).value;
      var date := DateLabel(data[i].stamp);
      assert WeekSummary(data).days[d].value.date == date;
      assert forall k :: 0 <= k < |date| ==> date[k] != '\n';
    }
  }

  /** A week's text splits at line breaks into the report lines of its
      summary, provided the week's label holds no line break. */
  lemma PeriodReportLines(p: Period)
    requires DistinctCells(p.rows) && '\n' !in p.week && PeriodReport(p).Ok?
    ensures var data := InKwh(ParsedRecords(p.rows, ParseField).value);
      Split(PeriodReport(p).value, '\n') == ReportLines(p.week, WeekSummary(data))
  {
    var data := InKwh(ParsedRecords(p.rows, ParseField).value);
    SummaryDatesOneLine(data);
    ReportSplitsIntoLines(p.week, WeekSummary(data));
  }

  /** The values of a run of results in order, or the first error. */
  function Collect<T, E>(rs: seq<Result<T, E>>): Result<seq<T>, E> {
    if rs == [] then Ok([])
    else
      match Collect(rs[..|rs| - 1])
      case Err(e) => Err(e)
      case Ok(xs) =>
        match rs[|rs| - 1]
        case Err(e) => Err(e)
        case Ok(x) => Ok(xs + [x])
  }

  /** Collect succeeds exactly when every result does, with their values in
      order; otherwise it gives the error of the first failing result. */
  lemma {:induction false} CollectPerItem<T, E>(rs: seq<Result<T, E>>)
    ensures Collect(rs).Ok? <==> forall k :: 0 <= k < |rs| ==> rs[k].Ok?
    ensures Collect(rs).Ok? ==> (|Collect(rs).value| == |rs| &&
      forall k :: 0 <= k < |rs| ==> Collect(rs).value[k] == rs[k].value)
    ensures Collect(rs).Err? ==> exists k :: (0 <= k < |rs| &&
      (forall j :: 0 <= j < k ==> rs[j].Ok?) && rs[k] == Err(Collect(rs).error))
  {
    if rs != [] {
      var init := rs[..|rs| - 1];
      CollectPerItem(init);
      assert forall k :: 0 <= k < |init| ==> init[k] == rs[k];
      if Collect(init).Err? {
        var k :| 0 <= k < |init| && (forall j :: 0 <= j < k ==> init[j].Ok?) && init[k] == Err(Collect(init).error);
        assert rs[k] == Err(Collect(rs).error);
      } else if rs[|rs| - 1].Err? {
        assert rs[|rs| - 1] == Err(Collect(rs).error);
      }
    }
  }

  /** A failing result ends the run with its error once the ones before it
      have succeeded. */
  lemma CollectFailAt<T, E>(rs: seq<Result<T, E>>, k: nat, xs: seq<T>)
    requires k < |rs| && Collect(rs[..k]) == Ok(xs) && rs[k].Err?
    ensures Collect(rs) == Err(rs[k].error)
  {
    CollectPerItem(rs[..k]);
    CollectPerItem(rs);
    assert forall j :: 0 <= j < k ==> rs[..k][j] == rs[j];
    var m :| 0 <= m < |rs| && (forall j :: 0 <= j < m ==> rs[j].Ok?) && rs[m] == Err(Collect(rs).error);
    assert m == k;
  }

  /** A successful result extends the collected values by its own. */
  lemma CollectStep<T, E>(rs: seq<Result<T, E>>, k: nat, xs: seq<T>)
    requires k < |rs| && Collect(rs[..k]) == Ok(xs) && rs[k].Ok?
    ensures Collect(rs[..k + 1]) == Ok(xs + [rs[k].value])
  {
    assert rs[..k + 1][..k] == rs[..k];
  }

  /** Every week's outcome, in order. */
  function WeekResults(periods: seq<Period>): (r: seq<Result<string, Failure>>)
    requires ValidPeriods(periods)
    ensures |r| == |periods|
  {
    seq(|periods|, k requires 0 <= k < |periods| => PeriodReport(periods[k]))
  }

  /** The whole report: the weeks' texts joined with newlines, or the first
      failing week's error. */
  function FullReport(periods: seq<Period>): Result<string, Failure>
    requires ValidPeriods(periods)
  {
    match Collect(WeekResults(periods))
    case Err(e) => Err(e)
    case Ok(texts) => Ok(Join(texts, "\n"))
  }

  /** One week: read the rows, convert the records to kWh in place,
      summarize and render. */
  method WeekReport(p: Period) returns (r: Result<string, Failure>)
    requires DistinctCells(p.rows)
    ensures r == PeriodReport(p)
  {
    var raw := ReadRecords(p.rows, ParseField);
    if raw.Err? {
      return Err(raw.error);
    }
    var data := new Record[|raw.value|](i requires 0 <= i < |raw.value| => raw.value[i]);
    ConvertToKwh(data);
    assert data[..] == InKwh(raw.value);
    var yhteenveto := Summarize(data[..]);
    if yhteenveto.Err? {
      return Err(yhteenveto.error);
    }
    var text := WeeklyReport(p.week, yhteenveto.value);
    r := Ok(text);
  }

  /** main: every week's report in turn, joined with newlines; the first
      failing week stops the run. */
  method WeeklyReports(periods: seq<Period>) returns (r: Result<string, Failure>)
    requires ValidPeriods(periods)
    ensures r == FullReport(periods)
  {
    ghost var results := WeekResults(periods);
    var raportti_osat: seq<string> := [];
    for k := 0 to |periods|
      invariant Collect(results[..k]) == Ok(raportti_osat)
    {
      var part := WeekReport(periods[k]);
      assert part == results[k];
      if part.Err? {
        CollectFailAt(results, k, raportti_osat);
        return Err(part.error);
      }
      CollectStep(results, k, raportti_osat);
      raportti_osat := raportti_osat + [part.value];
    }
    assert results[..|periods|] == results;
    r := Ok(Join(raportti_osat, "\n"));
  }
}
