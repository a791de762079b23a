/** Pivoting a result set into chart series (chartData.ts). Numbers are reals: rounding is not modelled. */
module Pivot {
  import opened Common

  /** A result cell with its display text and, when it reads as a finite number, that number. */
  datatype Cell =
    | Null
    | Number(display: string, value: Option<real>)
    | Text(text: string, value: Option<real>)
    | Object(json: string)

  /** toNumber. */
  function ToNumber(c: Cell): Option<real> {
    match c
    case Number(_, value) => value
    case Text(_, value) => value
    case _ => None
  }

  /** cell(): the display string. */
  function CellText(c: Cell): string {
    match c
    case Null => "\U{2014}"
    case Number(display, _) => display
    case Text(text, _) => text
    case Object(json) => json
  }

  datatype ResultSet = ResultSet(columns: seq<string>, rows: seq<seq<Cell>>)

  const X_KEY := "__x"
  const MAX_SERIES: nat := 9

  datatype Value = Label(text: string) | Amount(sum: real)

  type Record = map<string, Value>

  datatype Series = Series(key: string, name: string)

  datatype ChartData = ChartData(rows: seq<Record>, series: seq<Series>, truncatedSeries: bool)

  const EMPTY := ChartData([], [], false)

  function IndexIn(names: seq<string>, name: string): Option<nat> {
    if names == [] then None
    else if names[0] == name then Some(0)
    else match IndexIn(names[1..], name) case Some(i) => Some(i + 1) case None => None
  }

  lemma {:induction false} IndexInFinds(names: seq<string>, name: string)
    ensures match IndexIn(names, name)
            case Some(i) => i < |names| && names[i] == name && forall j :: 0 <= j < i ==> names[j] != name
            case None => name !in names
  {
    if names != [] {
      IndexInFinds(names[1..], name);
    }
  }

  /** columnIndex: the first column of that name; an empty name finds nothing. */
  function ColumnIndex(columns: seq<string>, name: string): Option<nat> {
    if name == "" then None else IndexIn(columns, name)
  }

  /** Where a non-empty name stands first among the columns. */
  lemma ColumnIndexMeans(columns: seq<string>, name: string, i: nat)
    ensures ColumnIndex(columns, name) == Some(i)
            <==> name != "" && i < |columns| && columns[i] == name && forall j :: 0 <= j < i ==> columns[j] != name
    ensures ColumnIndex(columns, name).None? <==> name == "" || name !in columns
  {
    IndexInFinds(columns, name);
  }

  /** `row[i]`; a short row reads as undefined, which shows like null. */
  function At(row: seq<Cell>, i: nat): Cell { if i < |row| then row[i] else Null }

  /** Synthetic keys 's0' to 's8'. */
  function Key(k: nat): string { "s" + (if k < 10 then [('0' as int + k) as char] else "") }

  // ---------------------------------------------------------- what a row says

  datatype Entry = Entry(x: string, series: string, y: real)

  /** The contribution of a row: none when its y is not numeric. */
  function EntryOf(xi: nat, yi: nat, si: nat): seq<Cell> -> seq<Entry> {
    (row: seq<Cell>) =>
      match ToNumber(At(row, yi))
      case Some(y) => [Entry(CellText(At(row, xi)), CellText(At(row, si)), y)]
      case None => []
  }

  function SeriesName(e: Entry): string { e.series }

  /** Distinct series values, first seen first. */
  function SeriesSeen(entries: seq<Entry>): seq<string> { Dedup(Map(SeriesName, entries)) }

  function FirstNine(names: seq<string>): seq<string> { if |names| > MAX_SERIES then names[..MAX_SERIES] else names }

  /** The series that keep a colour. */
  function Labels(entries: seq<Entry>): seq<string> { FirstNine(SeriesSeen(entries)) }

  /** The x values of the entries whose series is in `labels`. */
  function KeptX(entries: seq<Entry>, labels: seq<string>): seq<string> {
    if entries == [] then []
    else
      var e := entries[|entries| - 1];
      KeptX(entries[..|entries| - 1], labels) + (if e.series in labels then [e.x] else [])
  }

  /** `out[key] = typeof prev === 'number' ? prev + y : y`. */
  function AddTo(record: Record, key: string, y: real): Record {
    record[key := Amount(if key in record && record[key].Amount? then record[key].sum + y else y)]
  }

  /** The row object of `x`, accumulated entry by entry. */
  function RecordOf(entries: seq<Entry>, labels: seq<string>, x: string): Record {
    if entries == [] then map[X_KEY := Label(x)]
    else
      var e := entries[|entries| - 1];
      var before := RecordOf(entries[..|entries| - 1], labels, x);
      match IndexIn(labels, e.series)
      case Some(k) => if e.x == x then AddTo(before, Key(k), e.y) else before
      case None => before
  }

  function SeriesOf(labels: seq<string>): seq<Series> {
    seq(|labels|, k requires 0 <= k < |labels| => Series(Key(k), labels[k]))
  }

  function RecordsOf(entries: seq<Entry>, labels: seq<string>, xs: seq<string>): seq<Record> {
    seq(|xs|, i requires 0 <= i < |xs| => RecordOf(entries, labels, xs[i]))
  }

  function PivotOf(entries: seq<Entry>): ChartData {
    var labels := Labels(entries);
    ChartData(RecordsOf(entries, labels, Dedup(KeptX(entries, labels))), SeriesOf(labels), |SeriesSeen(entries)| > MAX_SERIES)
  }

  // ------------------------------------------------------------------ the loop

  /** An entry of a fresh series changes nothing that was kept before. */
  lemma {:induction false} NewLabelKeeps(entries: seq<Entry>, labels: seq<string>, novel: string, x: string)
    requires novel !in Map(SeriesName, entries)
    ensures KeptX(entries, labels + [novel]) == KeptX(entries, labels)
    ensures RecordOf(entries, labels + [novel], x) == RecordOf(entries, labels, x)
  {
    if entries != [] {
      var last := |entries| - 1;
      assert Map(SeriesName, entries)[last] == entries[last].series;
      forall n | n in Map(SeriesName, entries[..last]) ensures n in Map(SeriesName, entries) {
        var i :| 0 <= i < last && Map(SeriesName, entries[..last])[i] == n;
        assert Map(SeriesName, entries)[i] == n;
      }
      NewLabelKeeps(entries[..last], labels, novel, x);
      IndexInSnoc(labels, novel, entries[last].series);
    }
  }

  lemma {:induction false} IndexInSnoc(names: seq<string>, more: string, name: string)
    ensures IndexIn(names + [more], name)
         == if IndexIn(names, name).Some? then IndexIn(names, name)
            else if name == more then Some(|names|) else None
  {
    if names == [] {
      assert (names + [more])[1..] == [];
    } else {
      IndexInSnoc(names[1..], more, name);
      assert (names + [more])[1..] == names[1..] + [more];
    }
  }

  lemma SeriesSeenSnoc(entries: seq<Entry>, e: Entry)
    ensures SeriesSeen(entries + [e])
         == if e.series in SeriesSeen(entries) then SeriesSeen(entries) else SeriesSeen(entries) + [e.series]
    ensures e.series in SeriesSeen(entries) <==> e.series in Map(SeriesName, entries)
  {
    assert Map(SeriesName, entries + [e]) == Map(SeriesName, entries) + [e.series];
    DedupSnoc(Map(SeriesName, entries), e.series);
  }

  /** The maps and flags of the loop. A JS Map is its keys in insertion order (`labels`, `xs`) and a lookup. */
  datatype Maps = Maps(labels: seq<string>, xs: seq<string>, records: map<string, Record>, truncated: bool)

  const NO_MAPS := Maps([], [], map[], false)

  function FreshRecord(x: string): Record { map[X_KEY := Label(x)] }

  /** The maps once `e.series` has the `k`-th key. */
  function AddCell(m: Maps, e: Entry, k: nat): Maps {
    var record := if e.x in m.records then m.records[e.x] else FreshRecord(e.x);
    m.(xs := if e.x in m.records then m.xs else m.xs + [e.x], records := m.records[e.x := AddTo(record, Key(k), e.y)])
  }

  /** One row with a numeric y. */
  function AddEntry(m: Maps, e: Entry): Maps {
    match IndexIn(m.labels, e.series)
    case Some(k) => AddCell(m, e, k)
    case None =>
      if |m.labels| >= MAX_SERIES then m.(truncated := true)
      else AddCell(m.(labels := m.labels + [e.series]), e, |m.labels|)
  }

  function Finish(m: Maps): ChartData {
    ChartData(seq(|m.xs|, i requires 0 <= i < |m.xs| => if m.xs[i] in m.records then m.records[m.xs[i]] else map[]),
              SeriesOf(m.labels), m.truncated)
  }

  // --------------------------------------- the loop refines the declarative pivot

  ghost predicate ListsX(entries: seq<Entry>, m: Maps) {
    m.xs == Dedup(KeptX(entries, m.labels)) && forall x :: x in m.records <==> x in m.xs
  }

  ghost predicate HoldsRecords(entries: seq<Entry>, m: Maps) {
    forall x {:trigger RecordOf(entries, m.labels, x)} ::
      RecordOf(entries, m.labels, x) == if x in m.records then m.records[x] else FreshRecord(x)
  }

  ghost predicate Accumulates(entries: seq<Entry>, m: Maps) { ListsX(entries, m) && HoldsRecords(entries, m) }

  lemma KeptXSnoc(entries: seq<Entry>, labels: seq<string>, e: Entry)
    ensures KeptX(entries + [e], labels) == if e.series in labels then KeptX(entries, labels) + [e.x] else KeptX(entries, labels)
  {
    assert (entries + [e])[..|entries|] == entries;
  }

  lemma RecordOfSnoc(entries: seq<Entry>, labels: seq<string>, e: Entry, x: string)
    ensures RecordOf(entries + [e], labels, x)
         == match IndexIn(labels, e.series)
            case Some(k) =>
              if e.x == x then AddTo(RecordOf(entries, labels, x), Key(k), e.y) else RecordOf(entries, labels, x)
            case None => RecordOf(entries, labels, x)
  {
    assert (entries + [e])[..|entries|] == entries;
  }

  lemma NewLabelAccumulates(entries: seq<Entry>, m: Maps, novel: string)
    requires Accumulates(entries, m) && novel !in Map(SeriesName, entries)
    ensures Accumulates(entries, m.(labels := m.labels + [novel]))
  {
    NewLabelKeeps(entries, m.labels, novel, "");
    forall x ensures RecordOf(entries, m.labels + [novel], x) == RecordOf(entries, m.labels, x) {
      NewLabelKeeps(entries, m.labels, novel, x);
    }
  }

  lemma DroppedAccumulates(entries: seq<Entry>, m: Maps, e: Entry)
    requires Accumulates(entries, m) && IndexIn(m.labels, e.series).None?
    ensures Accumulates(entries + [e], m)
  {
    IndexInFinds(m.labels, e.series);
    KeptXSnoc(entries, m.labels, e);
    forall x ensures RecordOf(entries + [e], m.labels, x) == RecordOf(entries, m.labels, x) {
      RecordOfSnoc(entries, m.labels, e, x);
    }
  }

  lemma KeptListsX(entries: seq<Entry>, m: Maps, e: Entry, k: nat)
    requires ListsX(entries, m) && IndexIn(m.labels, e.series) == Some(k)
    ensures ListsX(entries + [e], AddCell(m, e, k))
  {
    IndexInFinds(m.labels, e.series);
    KeptXSnoc(entries, m.labels, e);
    DedupSnoc(KeptX(entries, m.labels), e.x);
  }

  lemma KeptHoldsRecords(entries: seq<Entry>, m: Maps, e: Entry, k: nat)
    requires HoldsRecords(entries, m) && IndexIn(m.labels, e.series) == Some(k)
    ensures HoldsRecords(entries + [e], AddCell(m, e, k))
  {
    forall x ensures RecordOf(entries + [e], m.labels, x)
                  == if e.x == x then AddTo(RecordOf(entries, m.labels, x), Key(k), e.y) else RecordOf(entries, m.labels, x)
    {
      RecordOfSnoc(entries, m.labels, e, x);
    }
  }

  lemma KeptAccumulates(entries: seq<Entry>, m: Maps, e: Entry, k: nat)
    requires Accumulates(entries, m) && IndexIn(m.labels, e.series) == Some(k)
    ensures Accumulates(entries + [e], AddCell(m, e, k))
  {
    KeptListsX(entries, m, e, k);
    KeptHoldsRecords(entries, m, e, k);
  }

  /** Which series a further entry finds, adds or is dropped for. */
  lemma LabelsSnoc(entries: seq<Entry>, e: Entry)
    ensures var labels := Labels(entries);
            && (IndexIn(labels, e.series).Some? ==>
                  Labels(entries + [e]) == labels && SeriesSeen(entries + [e]) == SeriesSeen(entries))
            && (IndexIn(labels, e.series).None? && |labels| >= MAX_SERIES ==>
                  Labels(entries + [e]) == labels && |SeriesSeen(entries + [e])| > MAX_SERIES)
            && (IndexIn(labels, e.series).None? && |labels| < MAX_SERIES ==>
                  Labels(entries + [e]) == labels + [e.series] && e.series !in Map(SeriesName, entries)
                  && |SeriesSeen(entries + [e])| <= MAX_SERIES && |SeriesSeen(entries)| <= MAX_SERIES)
  {
    SeriesSeenSnoc(entries, e);
    IndexInFinds(Labels(entries), e.series);
  }

  ghost predicate Tracks(entries: seq<Entry>, m: Maps) {
    Accumulates(entries, m) && m.labels == Labels(entries) && m.truncated == (|SeriesSeen(entries)| > MAX_SERIES)
  }

  lemma AddEntryTracks(entries: seq<Entry>, m: Maps, e: Entry)
    requires Tracks(entries, m)
    ensures Tracks(entries + [e], AddEntry(m, e))
  {
    LabelsSnoc(entries, e);
    match IndexIn(m.labels, e.series)
    case Some(k) => KeptAccumulates(entries, m, e, k);
    case None =>
      if |m.labels| >= MAX_SERIES {
        DroppedAccumulates(entries, m, e);
        assert Accumulates(entries + [e], m.(truncated := true));
      } else {
        NewLabelAccumulates(entries, m, e.series);
        IndexInSnoc(m.labels, e.series, e.series);
        KeptAccumulates(entries, m.(labels := m.labels + [e.series]), e, |m.labels|);
      }
  }

  lemma TracksFromStart()
    ensures Tracks([], NO_MAPS)
  {
    forall x ensures RecordOf([], NO_MAPS.labels, x) == FreshRecord(x) {}
  }

  lemma FinishTracks(entries: seq<Entry>, m: Maps)
    requires Tracks(entries, m)
    ensures Finish(m) == PivotOf(entries)
  {
    var labels := Labels(entries);
    assert forall i :: 0 <= i < |m.xs| ==> RecordOf(entries, labels, m.xs[i]) == m.records[m.xs[i]];
    assert Finish(m).rows == RecordsOf(entries, labels, m.xs);
  }

  /** The variables of the row loop. */
  class Accumulator {
    var labels: seq<string>
    var xs: seq<string>
    var records: map<string, Record>
    var truncated: bool
    ghost var entries: seq<Entry>    // the numeric rows added so far

    function View(): Maps
      reads this
    {
      Maps(labels, xs, records, truncated)
    }

    /** The maps hold the declarative pivot of the rows so far. */
    ghost predicate Valid()
      reads this
    {
      Tracks(entries, View())
    }

    constructor ()
      ensures Valid() && entries == []
    {
      labels, xs, records, truncated, entries := [], [], map[], false, [];
      new;
      TracksFromStart();
      assert View() == NO_MAPS;
    }

    method Update(e: Entry)
      modifies this`labels, this`xs, this`records, this`truncated
      ensures View() == AddEntry(old(View()), e)
    {
      var k := IndexIn(labels, e.series);
      if k.None? {
        if |labels| >= MAX_SERIES {
          truncated := true;
          return;
        }
        k := Some(|labels|);
        labels := labels + [e.series];
      }
      if e.x !in records {
        xs := xs + [e.x];
        records := records[e.x := FreshRecord(e.x)];
      }
      records := records[e.x := AddTo(records[e.x], Key(k.value), e.y)];
    }

    /** One row with a numeric y: the maps keep holding the pivot of all rows so far. */
    method Add(e: Entry)
      requires Valid()
      modifies this
      ensures Valid() && entries == old(entries) + [e]
    {
      AddEntryTracks(entries, View(), e);
      Update(e);
      entries := entries + [e];
    }
  }

  /** The row loop of buildPivotData. */
  method AccumulateRows(rows: seq<seq<Cell>>, xi: nat, yi: nat, si: nat) returns (m: Maps)
    ensures Tracks(FlatMap(EntryOf(xi, yi, si), rows), m)
  {
    var acc := new Accumulator();
    for i := 0 to |rows|
      invariant acc.Valid() && acc.entries == FlatMap(EntryOf(xi, yi, si), rows[..i])
    {
      FlatMapSnoc(EntryOf(xi, yi, si), rows, i);
      var row := rows[i];
      var y := ToNumber(At(row, yi));
      if y.Some? {
        acc.Add(Entry(CellText(At(row, xi)), CellText(At(row, si)), y.value));
      }
    }
    assert rows[..|rows|] == rows;
    m := acc.View();
  }

  /** buildPivotData. */
  method BuildPivotData(result: ResultSet, xColumn: string, yColumn: string, seriesColumn: string)
    returns (chart: ChartData)
    ensures var xi, yi, si := ColumnIndex(result.columns, xColumn), ColumnIndex(result.columns, yColumn),
                              ColumnIndex(result.columns, seriesColumn);
            chart == if xi.None? || yi.None? || si.None? then EMPTY
                     else PivotOf(FlatMap(EntryOf(xi.value, yi.value, si.value), result.rows))
  {
    var xi, yi := ColumnIndex(result.columns, xColumn), ColumnIndex(result.columns, yColumn);
    var si := ColumnIndex(result.columns, seriesColumn);
    if xi.None? || yi.None? || si.None? {
      return EMPTY;
    }
    var m := AccumulateRows(result.rows, xi.value, yi.value, si.value);
    FinishTracks(FlatMap(EntryOf(xi.value, yi.value, si.value), result.rows), m);
    chart := Finish(m);
  }
}
