/** How the two variants relate: where their field rules part, and when their
    weekday summaries coincide. */
module Compare {
  import opened Maybe
  import opened PyText
  import opened Meter
  import opened Weekly
  import ReportA
  import ReportB

  /** The field rules disagree on exactly the cells that are not empty but
      hold only whitespace: variant B reads them as 0, variant A rejects
      them. */
  lemma FieldRulesDiffer(text: string)
    ensures ReportA.ParseField(text) != ReportB.ParseField(text) <==> text != [] && AllSpace(text)
    ensures text != [] && AllSpace(text) ==>
      ReportA.ParseField(text) == None && ReportB.ParseField(text) == Some(0)
  {
    if text != [] && AllSpace(text) {
      ReportA.ParseFieldSpaces(text);
    }
  }

  /** Weekday d's slots in the two summary functions: both present or both
      absent, with the same sums, and equal when the first and the last record
      on d carry the same date. The summary functions are compared on every
      week; variant B's program only reaches its summary when no record lacks
      a channel (ReportB.Summarize fails otherwise, while variant A still
      tabulates), so for the programs this is agreement on the weeks both of
      them accept. */
  lemma SlotsAgree(data: seq<Record>, d: Weekday)
    ensures var a := ReportA.WeekSummary(data).days[d];
      var b := ReportB.WeekSummary(data).days[d];
      && (a.Some? <==> b.Some?)
      && (a.Some? ==> a.value.sums == b.value.sums)
      && (a.Some? && DateLabel(data[LastOn(data, d).value].stamp) == DateLabel(data[FirstOn(data, d).value].stamp)
          ==> a == b)
  {
    assert LastOn(data, d).Some? <==> FirstOn(data, d).Some?;
  }

  /** The two summary functions key the same weekdays in the same insertion
      order and hold the same rounded sums; the labels differ only in which
      record of a weekday gives them, so when every weekday's records share
      one date the summaries are equal. As for SlotsAgree, the programs agree
      on the weeks variant B accepts: on a week where a record lacks a channel
      B fails and only A produces a table. */
  lemma SummariesAgree(data: seq<Record>)
    ensures ReportA.WeekSummary(data).order == ReportB.WeekSummary(data).order
    ensures forall d: Weekday ::
      var a := ReportA.WeekSummary(data).days[d];
      var b := ReportB.WeekSummary(data).days[d];
      (a.Some? <==> b.Some?) && (a.Some? ==> a.value.sums == b.value.sums)
    ensures (forall i, j :: 0 <= i < j < |data| && data[i].stamp.weekday == data[j].stamp.weekday ==>
               DateLabel(data[i].stamp) == DateLabel(data[j].stamp)) ==>
      ReportA.WeekSummary(data) == ReportB.WeekSummary(data)
  {
    var a := ReportA.WeekSummary(data);
    var b := ReportB.WeekSummary(data);
    forall d: Weekday ensures (a.days[d].Some? <==> b.days[d].Some?) && (a.days[d].Some? ==> a.days[d].value.sums == b.days[d].value.sums) {
      SlotsAgree(data, d);
    }
    if forall i, j :: 0 <= i < j < |data| && data[i].stamp.weekday == data[j].stamp.weekday ==>
         DateLabel(data[i].stamp) == DateLabel(data[j].stamp)
    {
      forall d: Weekday ensures a.days[d] == b.days[d] {
        SlotsAgree(data, d);
        if a.days[d].Some? {
          var l := LastOn(data, d).value;
          var f := FirstOn(data, d).value;
          assert f <= l;
          assert DateLabel(data[l].stamp) == DateLabel(data[f].stamp) by {
            if f < l {
              assert data[f].stamp.weekday == data[l].stamp.weekday;
            }
          }
        }
      }
      assert a.days == b.days;
    }
  }
}
