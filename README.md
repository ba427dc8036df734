# Weekly energy report, modelled in Dafny

This project models the weekly electricity report of `Viikko5`. The report
reads semicolon-separated meter rows. Each row has a timestamp (`Aika`) and
six channels in watt-hours: three consumption phases (`Kulutus vaihe 1..3 Wh`)
and three production phases (`Tuotanto vaihe 1..3 Wh`). The pipeline converts
the values to kilowatt-hours, sums each channel per weekday, rounds the sums
to two decimals, and renders a fixed-width table with a comma as the decimal
separator. There are two variants:

- **Variant B** (`Viikko5/B/lue_tiedosto.py`) reports several weeks. Each
  weekday's label is the date of its first record. A record that lacks one of
  the six channels is an error (a `KeyError` in the source). The weekday with
  the lowest net consumption is marked with `*`. The weeks' reports are joined
  with newlines.
- **Variant A** (`Viikko5/A/lue_tiedosto.py`) prints one week's table. Each
  weekday's label is the date of its last record. A missing channel counts as
  0, and nothing is marked.

Modules, one per file:

- `Maybe` (`maybe.dfy`): `Option` and `Result`.
- `PyText` (`text.dfy`): the Python string operations the source relies on:
  - `str.strip`, `int()`;
  - padding in format specs, `str.replace`;
  - `"\n".join` and its inverse, splitting at a separator.
- `Meter` (`meter.dfy`): records and reading rows.
  - A row is its timestamp plus its fields as (name, text) pairs, which are
    the items of a `csv.DictReader` row.
  - A record is its timestamp plus a map from channel name to value.
  - The field rule is a parameter because the variants differ there.
  - Also holds the conversion to kWh (`muunna_kwh`): a function on values and
    an in-place method on an array.
- `Decimal` (`decimal.dfy`): `round(x, 2)` and `f"{x:.2f}".replace(".", ",")`
  on exact reals.
- `Weekly` (`weekly.dfy`): what both variants share:
  - the channel keys and the per-weekday summary value;
  - channel sums, first/last record per weekday and first-seen key order;
  - the rounding pass;
  - table cells and common header text.
- `ReportB` (`report_b.dfy`): variant B's field rule, aggregation, selector,
  report text and the run over several weeks.
- `ReportA` (`report_a.dfy`): variant A's field rule, aggregation, table and
  main program.
- `Compare` (`compare.dfy`): how the two variants relate.

Each loop of the source is a Dafny method. Each method is proved equal to a
specification function, and lemmas state the properties of those functions.
The fold methods work on a seven-slot array of accumulators, one per weekday,
which plays the role of the `defaultdict`. The insertion order of the dict's
keys is kept as a separate sequence.

Points where the code's behaviour is easy to misread, modelled as written:

- **Tie-breaking.** Variant B picks the lowest-net weekday in dict insertion
  order, which is the order in which weekdays first occur in the records. It
  does not use Monday-to-Sunday order. `ReportB.LowestTieBreak` states the
  rule, and `ReportB.AscendingKeysTieGoesToEarlierDay` shows when the two
  orders coincide.
- **Channels.** The six channel keys are hardcoded in both variants. They are
  not found by prefix.
- **End of B's report.** Variant B's report ends with the closing rule, not
  with a blank line.
- **Net for selection.** The net used for selection is computed from the sums
  after they are rounded.

## Model

Source paths are relative to the repository root. `B` is
`Viikko5/B/lue_tiedosto.py` and `A` is `Viikko5/A/lue_tiedosto.py`.

| member | source | states |
|---|---|---|
| PyText.Strip | Viikko5/B/lue_tiedosto.py:24 | `strip()` gives the empty string exactly for all-whitespace text; otherwise the result starts and ends with a non-space character |
| PyText.StripAround | Viikko5/B/lue_tiedosto.py:24 | whitespace on both sides of a text with non-space ends is removed, and nothing else |
| PyText.StripIdempotent | Viikko5/B/lue_tiedosto.py:24 | stripping twice is stripping once |
| PyText.ParseInt | Viikko5/B/lue_tiedosto.py:25 | definition: `int()` is the value of the stripped text read as an optionally signed decimal numeral; its contract: `int()` accepts a text exactly when, after stripping, it is an optional sign followed by at least one digit |
| PyText.Join | Viikko5/B/lue_tiedosto.py:106 | definition: `sep.join(parts)`, the parts in order with the separator between neighbours (its properties are JoinAppend, JoinThree and SplitJoinLines) |
| PyText.ParseIntText | Viikko5/B/lue_tiedosto.py:25 | the decimal text of any integer, with whitespace around it, reads back as that integer |
| PyText.ParseIntBlank | Viikko5/B/lue_tiedosto.py:25 | `int()` rejects all-whitespace text |
| PyText.PadLeft | Viikko5/B/lue_tiedosto.py:95 | `:>w` gives width max(w, len), with the text at the right and spaces before it |
| PyText.PadLeftAvoids | Viikko5/B/lue_tiedosto.py:95 | left padding adds only spaces, so a character absent from the text and other than a space is absent from the padded text |
| PyText.PadRight | Viikko5/B/lue_tiedosto.py:94 | `:<w` gives width max(w, len), with the text at the left and spaces after it |
| PyText.PadLeftStrips | Viikko5/B/lue_tiedosto.py:95 | a right-aligned text strips back to the text |
| PyText.ReplaceChar | Viikko5/B/lue_tiedosto.py:63 | `replace` changes exactly the occurrences of one character and keeps the length |
| PyText.SplitJoinLines | Viikko5/B/lue_tiedosto.py:106 | joining lines that hold no separator, then splitting at it, gives the lines back |
| PyText.JoinAppend | Viikko5/B/lue_tiedosto.py:121 | joining two non-empty runs is joining each and putting the separator between |
| Meter.DateLabel | Viikko5/B/lue_tiedosto.py:49 | the `dd.mm.yyyy` label is non-empty and holds only digits and dots |
| Meter.DateLabelDecodes | Viikko5/B/lue_tiedosto.py:49 | day, month and year read back from the label's three parts; a four-digit year gives ten characters |
| Meter.RowRecord | Viikko5/B/lue_tiedosto.py:20-26 | a row fails exactly when some non-timestamp field fails the field rule, named by its first such field; otherwise the record has one channel per non-timestamp field, valued by the rule |
| Meter.ParseRow | Viikko5/B/lue_tiedosto.py:21-25 | the field loop gives RowRecord's result |
| Meter.RowRecordFailsAt | Viikko5/B/lue_tiedosto.py:22-25 | the first failing field decides the row's error, whatever follows it |
| Meter.FirstBadRow | Viikko5/B/lue_tiedosto.py:20-26 | the first row that does not read: none exactly when every row reads |
| Meter.ReadRecords | Viikko5/B/lue_tiedosto.py:16-27 | the row loop gives one record per row in file order with the row's timestamp, or the first bad row's failure |
| Meter.Kwh | Viikko5/B/lue_tiedosto.py:30-34 | conversion keeps the timestamp and the key set, and the new value times 1000 is the old value |
| Meter.InKwh | Viikko5/A/lue_tiedosto.py:30-34 | every record of the week converted, in order |
| Meter.ConvertToKwh | Viikko5/B/lue_tiedosto.py:30-34 | the in-place loop leaves each array slot holding its converted record |
| Decimal.RoundHalfEven | Viikko5/B/lue_tiedosto.py:58 | the result is within 1/2 of the argument, and even on a tie |
| Decimal.RoundHalfEvenUnique | Viikko5/B/lue_tiedosto.py:58 | these two properties determine the result |
| Decimal.Round2 | Viikko5/B/lue_tiedosto.py:58 | definition: `round(x, 2)` is the half-even rounded number of hundredths of x; its contract: the result is within half a hundredth of x |
| Decimal.Fixed2 | Viikko5/B/lue_tiedosto.py:63 | definition: `f"{x:.2f}"` is the half-even rounded cents written with a dot before the last two digits; its contract: at least four characters, the dot third from the end, only digits and a minus sign elsewhere |
| Decimal.Round2Properties | Viikko5/B/lue_tiedosto.py:58 | `round(x, 2)` is within half a cent of x, is a whole number of cents, and is idempotent |
| Decimal.FormatNumber | Viikko5/B/lue_tiedosto.py:62-63 | the text has at least four characters and ends in a comma and two digits; it has no dot and only digits, a comma and a minus sign |
| Decimal.FormatNumberDecodes | Viikko5/B/lue_tiedosto.py:62-63 | removing the comma leaves the integer text of the value in cents, rounded half to even |
| Decimal.FormatRoundedValue | Viikko5/B/lue_tiedosto.py:58-63 | formatting the rounded sum gives the same text as formatting the unrounded sum |
| Decimal.FormatNumberWidth | Viikko5/B/lue_tiedosto.py:95 | values from -99.99 to 999.99 format in at most six characters, so the cells stay six wide |
| Weekly.Net | Viikko5/B/lue_tiedosto.py:70-72 | definition: the three consumption sums less the three production sums |
| Weekly.ChannelSumAppend | Viikko5/B/lue_tiedosto.py:52-54 | the sum over two runs of records is the sum of their sums |
| Weekly.ChannelSumPermutation | Viikko5/B/lue_tiedosto.py:47-54 | a weekday's channel sum does not depend on the order of the records |
| Weekly.ChannelSumNone | Viikko5/B/lue_tiedosto.py:38-46 | a weekday without records sums to the initial 0 |
| Weekly.ChannelSumStep | Viikko5/B/lue_tiedosto.py:52-54 | one more record adds its value to its own weekday's sum only |
| Weekly.FirstOn | Viikko5/B/lue_tiedosto.py:50-51 | the first record on a weekday: none exactly when no record falls on it; no earlier record is on that weekday |
| Weekly.FirstOnAppend | Viikko5/B/lue_tiedosto.py:50-51 | records appended later do not move a weekday's first record |
| Weekly.LastOn | Viikko5/A/lue_tiedosto.py:55 | the last record on a weekday: none exactly when no record falls on it; no later record is on that weekday |
| Weekly.LastOnStep | Viikko5/A/lue_tiedosto.py:55 | one more record becomes its weekday's last record |
| Weekly.FirstSeenOrder | Viikko5/B/lue_tiedosto.py:47-48 | the dict's keys: every weekday that occurs, each once, in the order of their first records |
| Weekly.FirstSeenOrderStep | Viikko5/B/lue_tiedosto.py:48 | one more record appends its weekday to the keys unless the key is already there |
| Weekly.PresentUpTo | Viikko5/B/lue_tiedosto.py:89-90 | the weekdays below n that have a key, strictly ascending |
| Weekly.RoundingPass | Viikko5/B/lue_tiedosto.py:55-58 | the pass over the keys rounds every sum of every present weekday to two decimals and leaves absent weekdays absent |
| Weekly.CellStrips | Viikko5/B/lue_tiedosto.py:95 | a cell strips back to the formatted number |
| Weekly.CellsFormat | Viikko5/B/lue_tiedosto.py:95-100 | for values that fit, every cell is six wide and strips to the formatted value |
| Weekly.CellsOneLine | Viikko5/B/lue_tiedosto.py:95-100 | no cell holds a line break |
| Weekly.Dashes | Viikko5/B/lue_tiedosto.py:86 | a rule of n dashes |
| ReportB.ParseField | Viikko5/B/lue_tiedosto.py:24-25 | a blank or all-whitespace field reads as 0; any other field reads as `int()` reads it |
| ReportB.ParseFieldNumber | Viikko5/B/lue_tiedosto.py:24-25 | a number with whitespace around it reads as that number |
| ReportB.MissingChannelOf | Viikko5/B/lue_tiedosto.py:52-54 | the first of the six channels, in key order, that a record lacks: none exactly when it has all six |
| ReportB.FirstIncomplete | Viikko5/B/lue_tiedosto.py:47-54 | the first record that lacks a channel: none exactly when every record is complete |
| ReportB.CompleteStep | Viikko5/B/lue_tiedosto.py:47-54 | a complete record keeps a complete prefix complete |
| ReportB.FirstIncompleteAt | Viikko5/B/lue_tiedosto.py:52-54 | a record lacking channel c, after complete records, is the first incomplete record and c is its first missing channel |
| ReportB.WeekSummary | Viikko5/B/lue_tiedosto.py:37-59 | the summary is well formed: seven slots, six sums per present weekday, and keys that are the present weekdays, each once |
| ReportB.FoldedIsSlot | Viikko5/B/lue_tiedosto.py:47-54 | an accumulator that satisfies the fold invariant is the weekday's folded value |
| ReportB.FoldOther | Viikko5/B/lue_tiedosto.py:47-54 | a record leaves the other weekdays' accumulators unchanged |
| ReportB.FoldSame | Viikko5/B/lue_tiedosto.py:49-54 | a complete record adds its six values to its weekday's sums; the label stays, or is the record's date when the accumulator is new |
| ReportB.FoldStep | Viikko5/B/lue_tiedosto.py:47-54 | one complete record keeps every slot equal to its folded value |
| ReportB.SlotIffOrdered | Viikko5/B/lue_tiedosto.py:38-48 | during the fold, a weekday has an accumulator exactly when it is a key |
| ReportB.FoldInvariantStep | Viikko5/B/lue_tiedosto.py:47-54 | the fold's slots and keys after one more complete record |
| ReportB.AddChannels | Viikko5/B/lue_tiedosto.py:52-54 | the inner loop succeeds exactly for a complete record and then adds each channel to its sum; otherwise it names the first missing channel |
| ReportB.FoldRecord | Viikko5/B/lue_tiedosto.py:47-54 | one fold step reports record i's first missing channel, or keeps the fold invariant one record further |
| ReportB.Summarize | Viikko5/B/lue_tiedosto.py:37-59 | `laske_yhteenveto` gives WeekSummary when every record is complete; otherwise it fails with the first incomplete record and its first missing channel |
| ReportB.Lowest | Viikko5/B/lue_tiedosto.py:66-76 | definition: the key at the first position of lowest net in insertion order, none for an empty summary (its properties are LowestIsMinimal and LowestTieBreak) |
| ReportB.LowestPos | Viikko5/B/lue_tiedosto.py:66-76 | among the first n keys, a position exists exactly when n > 0 |
| ReportB.LowestPosIsFirstMinimum | Viikko5/B/lue_tiedosto.py:69-75 | the selected key has the lowest net, and every key before it has a strictly higher net |
| ReportB.LowestPosUnique | Viikko5/B/lue_tiedosto.py:69-75 | the first key of minimal net is the one selected |
| ReportB.LowestIsMinimal | Viikko5/B/lue_tiedosto.py:66-76 | no weekday is selected exactly when the summary is empty; the selected weekday is present and its net is at most every present weekday's net |
| ReportB.LowestTieBreak | Viikko5/B/lue_tiedosto.py:73 | every key inserted before the selected one has a strictly higher net |
| ReportB.LowestNetDay | Viikko5/B/lue_tiedosto.py:66-76 | the selection loop gives the first key of lowest net |
| ReportB.SortedRecordsSortedKeys | Viikko5/B/lue_tiedosto.py:47-48 | records in weekday order give keys in weekday order |
| ReportB.AscendingKeysTieGoesToEarlierDay | Viikko5/B/lue_tiedosto.py:73 | with keys in weekday order, every present weekday before the selected one has a strictly higher net |
| ReportB.LaterRecordsKeepLabel | Viikko5/B/lue_tiedosto.py:50-51 | records appended later never change a weekday's label |
| ReportB.EmptyWeek | Viikko5/B/lue_tiedosto.py:37-59 | no records give no keys |
| ReportB.DayLine | Viikko5/B/lue_tiedosto.py:92-100 | definition: the marker, the name padded to 11, a space, the date, three spaces, the consumption cells two spaces apart, four spaces, the production cells two spaces apart (its layout is DayLineColumns) |
| ReportB.RowsUpToPresent | Viikko5/B/lue_tiedosto.py:89-101 | the j-th weekday line belongs to the j-th present weekday in calendar order |
| ReportB.WeeklyReport | Viikko5/B/lue_tiedosto.py:79-106 | `muodosta_viikkoraportti` gives ReportText |
| ReportB.ReportFrame | Viikko5/B/lue_tiedosto.py:81-105 | a blank line, the title, a blank line, two headers and a rule come first; then one line per present weekday; the rule comes last |
| ReportB.MarkedLine | Viikko5/B/lue_tiedosto.py:92-94 | a weekday's line starts with `*` exactly when it is the selected weekday; exactly one line is marked in a non-empty week and none in an empty one |
| ReportB.DayLineColumns | Viikko5/B/lue_tiedosto.py:94-100 | with a ten-character date and six-wide cells, a line is 74 wide, with the marker, name, date and six cells at fixed columns |
| ReportB.DayLineOneLine | Viikko5/B/lue_tiedosto.py:94-100 | a weekday line holds no line break when its date holds none |
| ReportB.RowsOneLine | Viikko5/B/lue_tiedosto.py:89-101 | no weekday line holds a line break |
| ReportB.ReportSplitsIntoLines | Viikko5/B/lue_tiedosto.py:106 | the report text splits at line breaks back into its lines |
| ReportB.SummaryDatesOneLine | Viikko5/B/lue_tiedosto.py:49 | summary labels hold no line break |
| ReportB.PeriodReportLines | Viikko5/B/lue_tiedosto.py:117-120 | a week's text splits into the report lines of its records' summary |
| ReportB.CollectPerItem | Viikko5/B/lue_tiedosto.py:115-121 | collecting results succeeds exactly when each succeeds, with the values in order; otherwise it gives the first failure |
| ReportB.CollectFailAt | Viikko5/B/lue_tiedosto.py:116-120 | the first failing week's error is the run's error |
| ReportB.CollectStep | Viikko5/B/lue_tiedosto.py:120 | a successful week appends its text to the parts |
| ReportB.WeekReport | Viikko5/B/lue_tiedosto.py:117-120 | one week (read, convert in place, summarize, render) gives PeriodReport |
| ReportB.WeeklyReports | Viikko5/B/lue_tiedosto.py:114-121 | `main`'s loop gives FullReport: the weeks' texts joined with newlines, or the first failing week's error |
| ReportA.ParseField | Viikko5/A/lue_tiedosto.py:20-24 | an empty field reads as 0, any other field reads as `int()` reads it; so a field reads exactly when it is empty or is an integer after stripping |
| ReportA.ParseFieldNumber | Viikko5/A/lue_tiedosto.py:22 | a number with whitespace around it reads as that number |
| ReportA.ParseFieldSpaces | Viikko5/A/lue_tiedosto.py:21-24 | a non-empty all-whitespace field does not read |
| ReportA.WeekSummary | Viikko5/A/lue_tiedosto.py:39-67 | the summary is well formed |
| ReportA.SlotMeaning | Viikko5/A/lue_tiedosto.py:52-65 | a weekday has a key exactly when a record falls on it; its label is the date of a record on it with no later record on it; its sums are the rounded channel sums |
| ReportA.LastSeenDateWins | Viikko5/A/lue_tiedosto.py:53-59 | an appended record relabels its weekday with its own date and adds its values, a missing channel as 0; the other weekdays are unchanged |
| ReportA.FoldSlot | Viikko5/A/lue_tiedosto.py:53-59 | a record relabels its own weekday with its date and adds its values to its sums, a missing channel as 0; other weekdays keep their accumulators |
| ReportA.FoldStep | Viikko5/A/lue_tiedosto.py:53-59 | one record keeps every slot equal to its folded value and the keys equal to the first-seen order |
| ReportA.AddValues | Viikko5/A/lue_tiedosto.py:57-59 | the inner loop adds each of the six channels to its sum, a channel the record lacks counting as 0 |
| ReportA.FoldRecord | Viikko5/A/lue_tiedosto.py:53-59 | one fold step keeps the fold invariant one record further |
| ReportA.Summarize | Viikko5/A/lue_tiedosto.py:39-67 | `laske_yhteenveto` always gives WeekSummary |
| ReportA.DayLine | Viikko5/A/lue_tiedosto.py:84-90 | definition: the name padded to 12, a space, the date, three spaces, the consumption cells two spaces apart, seven spaces, the production cells two spaces apart (its layout is DayLineColumns) |
| ReportA.RowsUpToPresent | Viikko5/A/lue_tiedosto.py:80-91 | the j-th weekday line belongs to the j-th present weekday in calendar order |
| ReportA.Table | Viikko5/A/lue_tiedosto.py:74-91 | `tulosta_taulukko`'s printed lines are TableLines |
| ReportA.TableFrame | Viikko5/A/lue_tiedosto.py:75-91 | six header lines, then one line per present weekday, Monday first, whatever the key order |
| ReportA.DayLineColumns | Viikko5/A/lue_tiedosto.py:84-90 | with a ten-character date and six-wide cells, a line is 77 wide, with the name, date and six cells at fixed columns |
| ReportA.Run | Viikko5/A/lue_tiedosto.py:94-100 | `main` (read, convert in place, summarize, tabulate) gives WeekTable |
| Compare.FieldRulesDiffer | Viikko5/B/lue_tiedosto.py:22-25 | the two field rules disagree exactly on non-empty all-whitespace fields: B reads 0 and A fails |
| Compare.SlotsAgree | Viikko5/B/lue_tiedosto.py:47-58 | the two summary functions give a weekday a key together, with the same sums, and the same slot when its first and last dates match; B's program reaches its summary only when no record lacks a channel, so for the programs this holds on the weeks both accept |
| Compare.SummariesAgree | Viikko5/B/lue_tiedosto.py:37-59 | the two summary functions have the same keys in the same order and the same sums, and are equal when each weekday's records share one date; on a week where a record lacks a channel B fails (ReportB.Summarize) and only A produces a table |

## Left out

- File access, `print` and `tallenna_raportti`. The model produces the text
  or lines that would be written or printed.
- Timestamp parsing (`muunna_aika`, `datetime.fromisoformat`). A row's
  timestamp arrives parsed, with its weekday, so a malformed timestamp and a
  missing `Aika` column are not modelled.
- `csv.DictReader` splitting and a row shorter than the header (a `None`
  cell). A row arrives as its distinct (name, text) pairs.
- IEEE floating point. Values are exact reals. `round` and `:.2f` round half
  to even on the exact value, so binary representation error and a printed
  `-0,00` are not modelled.
- `int()` beyond ASCII: Unicode digits and whitespace and `_` separators are
  not modelled.
- Decimal.FormatNumberWidth: the cells are six wide only for values whose
  rounded cents lie in -9999..99999. Wider values are formatted correctly but
  break the column layout, as in the source.
- The Viikko2 and Viikko3 exercises are not part of this model.
