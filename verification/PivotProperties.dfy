/** What a pivoted chart shows: per-cell sums, first-seen order, and no amount lost or invented. */
module PivotProperties {
  import opened Common
  import opened Pivot

  /** Sum of y over exactly the entries with this x and series. */
  function Sum(entries: seq<Entry>, x: string, series: string): real {
    if entries == [] then 0.0
    else
      var e := entries[|entries| - 1];
      Sum(entries[..|entries| - 1], x, series) + (if e.x == x && e.series == series then e.y else 0.0)
  }

  ghost predicate Occurs(entries: seq<Entry>, x: string, series: string) {
    exists i :: 0 <= i < |entries| && entries[i].x == x && entries[i].series == series
  }

  lemma OccursSnoc(entries: seq<Entry>, x: string, series: string)
    requires entries != []
    ensures var last := entries[|entries| - 1];
            Occurs(entries, x, series)
            <==> Occurs(entries[..|entries| - 1], x, series) || (last.x == x && last.series == series)
  {
    var front := entries[..|entries| - 1];
    assert forall i :: 0 <= i < |front| ==> front[i] == entries[i];
  }

  lemma KeysDiffer(j: nat, k: nat)
    requires j < 10 && k < 10
    ensures Key(j) == Key(k) <==> j == k
    ensures Key(k) != X_KEY
  {
    assert Key(k)[0] == 's' && X_KEY[0] == '_';
    assert Key(j)[1] == ('0' as int + j) as char && Key(k)[1] == ('0' as int + k) as char;
  }

  /** A cell is the sum over its rows, and is absent when it has none; the x value is never overwritten. */
  lemma {:induction false} CellIsSum(entries: seq<Entry>, labels: seq<string>, x: string, k: nat)
    requires |labels| <= MAX_SERIES && NoDuplicates(labels) && k < |labels|
    ensures var record := RecordOf(entries, labels, x);
            && X_KEY in record && record[X_KEY] == Label(x)
            && (Key(k) in record <==> Occurs(entries, x, labels[k]))
            && (Key(k) in record ==> record[Key(k)] == Amount(Sum(entries, x, labels[k])))
            && (!Occurs(entries, x, labels[k]) ==> Sum(entries, x, labels[k]) == 0.0)
  {
    KeysDiffer(k, k);
    if entries != [] {
      var last := |entries| - 1;
      CellIsSum(entries[..last], labels, x, k);
      OccursSnoc(entries, x, labels[k]);
      IndexInFinds(labels, entries[last].series);
      if IndexIn(labels, entries[last].series).Some? {
        KeysDiffer(IndexIn(labels, entries[last].series).value, k);
      }
    }
  }

  /** No other key appears: a row object holds its x and retained series only. */
  lemma {:induction false} OnlyRetainedKeys(entries: seq<Entry>, labels: seq<string>, x: string, key: string)
    requires key in RecordOf(entries, labels, x) && key != X_KEY
    ensures exists k: nat :: k < |labels| && key == Key(k)
  {
    if entries != [] {
      var last := |entries| - 1;
      IndexInFinds(labels, entries[last].series);
      if key in RecordOf(entries[..last], labels, x) {
        OnlyRetainedKeys(entries[..last], labels, x, key);
      }
    }
  }

  // -------------------------------------------------------------- first-seen order

  /** The position where a value first appears. */
  ghost predicate FirstAt<T>(s: seq<T>, i: nat) { i < |s| && s[i] !in s[..i] }

  /** De-duplication keeps the values in the order of their first appearance. */
  lemma {:induction false} DedupFirstSeen<T(!new)>(s: seq<T>) returns (at: seq<nat>)
    ensures |at| == |Dedup(s)|
    ensures forall k :: 0 <= k < |at| ==> FirstAt(s, at[k]) && s[at[k]] == Dedup(s)[k]
    ensures forall j, k :: 0 <= j < k < |at| ==> at[j] < at[k]
  {
    at := [];
    if s != [] {
      var last := |s| - 1;
      at := DedupFirstSeen(s[..last]);
      forall k | 0 <= k < |at| ensures FirstAt(s, at[k]) {
        assert s[..last][..at[k]] == s[..at[k]];
      }
      if s[last] !in Dedup(s[..last]) {
        at := at + [last];
      }
    }
  }

  /** Series and x groups come in first-seen order, at most nine series, keyed s0 to s8, and
      `truncatedSeries` tells exactly whether a tenth distinct series had a numeric y. */
  lemma PivotShape(entries: seq<Entry>)
    ensures var chart, labels := PivotOf(entries), Labels(entries);
            && labels <= Dedup(Map(SeriesName, entries)) && |labels| <= 9
            && |chart.series| == |labels|
            && (forall k :: 0 <= k < |labels| ==> chart.series[k] == Series(Key(k), labels[k]))
            && (chart.truncatedSeries <==> |Dedup(Map(SeriesName, entries))| > 9)
            && (!chart.truncatedSeries ==> labels == Dedup(Map(SeriesName, entries)))
            && |chart.rows| == |Dedup(KeptX(entries, labels))|
            && (forall i :: 0 <= i < |chart.rows| ==>
                  X_KEY in chart.rows[i] && chart.rows[i][X_KEY] == Label(Dedup(KeptX(entries, labels))[i]))
  {
    var labels := Labels(entries);
    var xs := Dedup(KeptX(entries, labels));
    forall i | 0 <= i < |xs|
      ensures X_KEY in RecordOf(entries, labels, xs[i]) && RecordOf(entries, labels, xs[i])[X_KEY] == Label(xs[i])
    {
      KeptXNonEmpty(entries, labels);
      CellIsSum(entries, labels, xs[i], 0);
    }
  }

  lemma {:induction false} KeptXNonEmpty(entries: seq<Entry>, labels: seq<string>)
    ensures labels == [] ==> KeptX(entries, labels) == []
  {
    if entries != [] {
      KeptXNonEmpty(entries[..|entries| - 1], labels);
    }
  }

  // ----------------------------------------------------- read off the result set

  /** A row with this x text and this series text whose y is a number. */
  ghost predicate Counts(row: seq<Cell>, xi: nat, yi: nat, si: nat, x: string, series: string) {
    CellText(At(row, xi)) == x && CellText(At(row, si)) == series && ToNumber(At(row, yi)).Some?
  }

  ghost predicate SomeCount(rows: seq<seq<Cell>>, xi: nat, yi: nat, si: nat, x: string, series: string) {
    exists r :: 0 <= r < |rows| && Counts(rows[r], xi, yi, si, x, series)
  }

  /** Sum of the y cells of exactly those rows. */
  ghost function RowSum(rows: seq<seq<Cell>>, xi: nat, yi: nat, si: nat, x: string, series: string): real {
    if rows == [] then 0.0
    else
      var last := rows[|rows| - 1];
      RowSum(rows[..|rows| - 1], xi, yi, si, x, series)
      + (if Counts(last, xi, yi, si, x, series) then ToNumber(At(last, yi)).value else 0.0)
  }

  lemma SomeCountSnoc(rows: seq<seq<Cell>>, xi: nat, yi: nat, si: nat, x: string, series: string)
    requires rows != []
    ensures SomeCount(rows, xi, yi, si, x, series)
       <==> SomeCount(rows[..|rows| - 1], xi, yi, si, x, series) || Counts(rows[|rows| - 1], xi, yi, si, x, series)
  {
    assert forall r :: 0 <= r < |rows| - 1 ==> rows[..|rows| - 1][r] == rows[r];
  }

  /** What one row adds to a cell. */
  lemma EntrySums(before: seq<Entry>, row: seq<Cell>, xi: nat, yi: nat, si: nat, x: string, series: string)
    ensures var counts, after := Counts(row, xi, yi, si, x, series), before + EntryOf(xi, yi, si)(row);
            && Sum(after, x, series) == Sum(before, x, series) + (if counts then ToNumber(At(row, yi)).value else 0.0)
            && (Occurs(after, x, series) <==> Occurs(before, x, series) || counts)
  {
    match ToNumber(At(row, yi))
    case Some(y) =>
      var e := Entry(CellText(At(row, xi)), CellText(At(row, si)), y);
      assert (before + [e])[..|before|] == before;
      OccursSnoc(before + [e], x, series);
    case None => assert before + [] == before;
  }

  lemma {:induction false} RowsSum(rows: seq<seq<Cell>>, xi: nat, yi: nat, si: nat, x: string, series: string)
    ensures var entries := FlatMap(EntryOf(xi, yi, si), rows);
            && Sum(entries, x, series) == RowSum(rows, xi, yi, si, x, series)
            && (Occurs(entries, x, series) <==> SomeCount(rows, xi, yi, si, x, series))
  {
    if rows != [] {
      var front, last := rows[..|rows| - 1], rows[|rows| - 1];
      RowsSum(front, xi, yi, si, x, series);
      SomeCountSnoc(rows, xi, yi, si, x, series);
      EntrySums(FlatMap(EntryOf(xi, yi, si), front), last, xi, yi, si, x, series);
    }
  }

  ghost predicate SomeOccurs(entries: seq<Entry>, labels: seq<string>, x: string) {
    exists k: nat :: k < |labels| && Occurs(entries, x, labels[k])
  }

  lemma {:induction false} KeptXMeans(entries: seq<Entry>, labels: seq<string>, x: string)
    ensures x in KeptX(entries, labels) <==> SomeOccurs(entries, labels, x)
  {
    if entries != [] {
      KeptXMeans(entries[..|entries| - 1], labels, x);
      forall k: nat | k < |labels|
        ensures var e := entries[|entries| - 1];
                Occurs(entries, x, labels[k])
                <==> Occurs(entries[..|entries| - 1], x, labels[k]) || (e.x == x && e.series == labels[k])
      {
        OccursSnoc(entries, x, labels[k]);
      }
    }
  }

  /** The cell of a record and a series: present exactly when some row counts for it, and then their sum. */
  ghost predicate CellShows(rows: seq<seq<Cell>>, xi: nat, yi: nat, si: nat, record: Record, series: Series) {
    && X_KEY in record && record[X_KEY].Label?
    && var x := record[X_KEY].text;
       && (series.key in record <==> SomeCount(rows, xi, yi, si, x, series.name))
       && (series.key in record ==> record[series.key] == Amount(RowSum(rows, xi, yi, si, x, series.name)))
  }

  ghost predicate Listed(rows: seq<Record>, x: string) {
    exists i :: 0 <= i < |rows| && X_KEY in rows[i] && rows[i][X_KEY] == Label(x)
  }

  ghost predicate CountsForSome(rows: seq<seq<Cell>>, xi: nat, yi: nat, si: nat, x: string, series: seq<Series>) {
    exists k :: 0 <= k < |series| && SomeCount(rows, xi, yi, si, x, series[k].name)
  }

  /** The chart in terms of the result set: which x values it lists, and what every cell shows. */
  lemma ChartShowsRows(rows: seq<seq<Cell>>, xi: nat, yi: nat, si: nat)
    ensures var chart := PivotOf(FlatMap(EntryOf(xi, yi, si), rows));
            && (forall i, k :: 0 <= i < |chart.rows| && 0 <= k < |chart.series| ==>
                  CellShows(rows, xi, yi, si, chart.rows[i], chart.series[k]))
            && (forall x :: Listed(chart.rows, x) <==> CountsForSome(rows, xi, yi, si, x, chart.series))
  {
    var entries := FlatMap(EntryOf(xi, yi, si), rows);
    var chart, labels := PivotOf(entries), Labels(entries);
    var xs := Dedup(KeptX(entries, labels));
    forall i, k | 0 <= i < |chart.rows| && 0 <= k < |chart.series|
      ensures CellShows(rows, xi, yi, si, chart.rows[i], chart.series[k])
    {
      CellIsSum(entries, labels, xs[i], k);
      RowsSum(rows, xi, yi, si, xs[i], labels[k]);
    }
    forall x ensures Listed(chart.rows, x) <==> CountsForSome(rows, xi, yi, si, x, chart.series) {
      ListedMeans(entries, x);
      KeptXMeans(entries, labels, x);
      forall k | 0 <= k < |labels| ensures Occurs(entries, x, labels[k]) <==> SomeCount(rows, xi, yi, si, x, labels[k]) {
        RowsSum(rows, xi, yi, si, x, labels[k]);
      }
      assert forall k :: 0 <= k < |labels| ==> chart.series[k].name == labels[k];
    }
  }

  lemma ListedMeans(entries: seq<Entry>, x: string)
    ensures Listed(PivotOf(entries).rows, x) <==> x in KeptX(entries, Labels(entries))
  {
    PivotShape(entries);
    var rows, xs := PivotOf(entries).rows, Dedup(KeptX(entries, Labels(entries)));
    if x in xs {
      var i :| 0 <= i < |xs| && xs[i] == x;
      assert rows[i][X_KEY] == Label(x);
    }
  }

  // ---------------------------------------------------------------- conservation

  /** What a row object shows over the first `n` series. */
  function RowTotal(record: Record, n: nat): real {
    if n == 0 then 0.0
    else RowTotal(record, n - 1)
         + (if Key(n - 1) in record && record[Key(n - 1)].Amount? then record[Key(n - 1)].sum else 0.0)
  }

  function GrandTotal(rows: seq<Record>, n: nat): real {
    if rows == [] then 0.0 else GrandTotal(rows[..|rows| - 1], n) + RowTotal(rows[|rows| - 1], n)
  }

  /** Sum of y over the entries whose series is retained. */
  function KeptTotal(entries: seq<Entry>, labels: seq<string>): real {
    if entries == [] then 0.0
    else
      var e := entries[|entries| - 1];
      KeptTotal(entries[..|entries| - 1], labels) + (if e.series in labels then e.y else 0.0)
  }

  function TotalY(entries: seq<Entry>): real {
    if entries == [] then 0.0 else TotalY(entries[..|entries| - 1]) + entries[|entries| - 1].y
  }

  function SumOverSeries(entries: seq<Entry>, x: string, labels: seq<string>): real {
    if labels == [] then 0.0
    else SumOverSeries(entries, x, labels[..|labels| - 1]) + Sum(entries, x, labels[|labels| - 1])
  }

  function SumOverX(entries: seq<Entry>, xs: seq<string>, labels: seq<string>): real {
    if xs == [] then 0.0
    else SumOverX(entries, xs[..|xs| - 1], labels) + SumOverSeries(entries, xs[|xs| - 1], labels)
  }

  lemma {:induction false} SumOverSeriesSnoc(entries: seq<Entry>, e: Entry, x: string, labels: seq<string>)
    requires NoDuplicates(labels)
    ensures SumOverSeries(entries + [e], x, labels)
         == SumOverSeries(entries, x, labels) + (if e.x == x && e.series in labels then e.y else 0.0)
  {
    assert (entries + [e])[..|entries|] == entries;
    if labels != [] {
      var last := |labels| - 1;
      SumOverSeriesSnoc(entries, e, x, labels[..last]);
      assert labels == labels[..last] + [labels[last]];
      assert labels[last] !in labels[..last];
    }
  }

  lemma {:induction false} SumOverXSnoc(entries: seq<Entry>, e: Entry, xs: seq<string>, labels: seq<string>)
    requires NoDuplicates(labels) && NoDuplicates(xs)
    ensures SumOverX(entries + [e], xs, labels)
         == SumOverX(entries, xs, labels) + (if e.x in xs && e.series in labels then e.y else 0.0)
  {
    if xs != [] {
      var last := |xs| - 1;
      SumOverXSnoc(entries, e, xs[..last], labels);
      SumOverSeriesSnoc(entries, e, xs[last], labels);
      assert xs == xs[..last] + [xs[last]];
      assert xs[last] !in xs[..last];
    }
  }

  lemma {:induction false} NothingSums(xs: seq<string>, x: string, labels: seq<string>)
    ensures SumOverSeries([], x, labels) == 0.0 && SumOverX([], xs, labels) == 0.0
    decreases |xs|, |labels|
  {
    if labels != [] {
      NothingSums([], x, labels[..|labels| - 1]);
    }
    if xs != [] {
      NothingSums(xs[..|xs| - 1], xs[|xs| - 1], labels);
    }
  }

  /** Every kept entry lands in exactly one cell. */
  lemma {:induction false} CellsPartitionEntries(entries: seq<Entry>, xs: seq<string>, labels: seq<string>)
    requires NoDuplicates(labels) && NoDuplicates(xs)
    requires forall x :: x in KeptX(entries, labels) ==> x in xs
    ensures SumOverX(entries, xs, labels) == KeptTotal(entries, labels)
  {
    if entries == [] {
      NothingSums(xs, "", labels);
    } else {
      var last := |entries| - 1;
      var e := entries[last];
      assert entries == entries[..last] + [e];
      assert forall x :: x in KeptX(entries[..last], labels) ==> x in KeptX(entries, labels);
      assert e.series in labels ==> e.x in KeptX(entries, labels);
      CellsPartitionEntries(entries[..last], xs, labels);
      SumOverXSnoc(entries[..last], e, xs, labels);
    }
  }

  lemma {:induction false} RowTotalIsSum(entries: seq<Entry>, labels: seq<string>, x: string, n: nat)
    requires |labels| <= MAX_SERIES && NoDuplicates(labels) && n <= |labels|
    ensures RowTotal(RecordOf(entries, labels, x), n) == SumOverSeries(entries, x, labels[..n])
  {
    if n > 0 {
      RowTotalIsSum(entries, labels, x, n - 1);
      CellIsSum(entries, labels, x, n - 1);
      assert labels[..n][..n - 1] == labels[..n - 1];
    }
  }

  lemma {:induction false} GrandTotalIsSum(entries: seq<Entry>, labels: seq<string>, xs: seq<string>)
    requires |labels| <= MAX_SERIES && NoDuplicates(labels)
    ensures GrandTotal(RecordsOf(entries, labels, xs), |labels|) == SumOverX(entries, xs, labels)
  {
    if xs != [] {
      var last := |xs| - 1;
      GrandTotalIsSum(entries, labels, xs[..last]);
      RowTotalIsSum(entries, labels, xs[last], |labels|);
      assert labels[..|labels|] == labels;
      assert RecordsOf(entries, labels, xs)[..last] == RecordsOf(entries, labels, xs[..last]);
    }
  }

  lemma {:induction false} AllKept(entries: seq<Entry>, labels: seq<string>)
    requires forall i :: 0 <= i < |entries| ==> entries[i].series in labels
    ensures KeptTotal(entries, labels) == TotalY(entries)
  {
    if entries != [] {
      AllKept(entries[..|entries| - 1], labels);
    }
  }

  /** The chart shows exactly the retained rows' amounts, and every numeric amount when nothing was truncated. */
  lemma PivotConserves(entries: seq<Entry>)
    ensures var chart, labels := PivotOf(entries), Labels(entries);
            && GrandTotal(chart.rows, |chart.series|) == KeptTotal(entries, labels)
            && (!chart.truncatedSeries ==> GrandTotal(chart.rows, |chart.series|) == TotalY(entries))
  {
    var labels := Labels(entries);
    var xs := Dedup(KeptX(entries, labels));
    GrandTotalIsSum(entries, labels, xs);
    CellsPartitionEntries(entries, xs, labels);
    if !PivotOf(entries).truncatedSeries {
      forall i | 0 <= i < |entries| ensures entries[i].series in labels {
        assert Map(SeriesName, entries)[i] == entries[i].series;
      }
      AllKept(entries, labels);
    }
  }
}
