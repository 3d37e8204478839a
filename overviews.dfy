/**
 The per-series summary tables (`bar_overview`, `tick_overview`) and the rules
 that keep them in step with the raw tables.

 A summary row holds the number of raw rows of its series and the first and
 last timestamp among them. The intended invariant, `Consistent`, says every
 summary row is exactly that aggregate and every series with raw rows has a
 summary row. `SaveKeepsConsistent` proves the save path maintains it under
 conditions on the batch that the callers must meet.
 */
module Overviews {
  import opened Tables

  /** A summary row without its key columns: `count`, `start_dt`, `end_dt`. */
  datatype Overview = Overview(count: nat, start: Time, end: Time)

  /** `o` is the exact count, first and last timestamp of `ts`. */
  ghost predicate Summarises(o: Overview, ts: set<Time>)
  {
    o.count == |ts| && IsLeast(o.start, ts) && IsGreatest(o.end, ts)
  }

  /**
   Every summary row is the true aggregate of its series' raw rows, and every
   series with raw rows has a summary row (so no raw rows hide behind a
   missing summary, and a summary never describes an empty series).
   */
  ghost predicate Consistent<K, P>(raw: map<(K, Time), P>, ov: map<K, Overview>)
  {
    && (forall k :: k in ov ==> Summarises(ov[k], Times(raw, k)))
    && (forall p :: p in raw ==> p.0 in ov)
  }

  /** Every record of the batch belongs to the series of the first one. */
  ghost predicate SingleSeries<K, P>(batch: seq<Record<K, P>>)
  {
    forall i :: 0 <= i < |batch| ==> batch[i].key == batch[0].key
  }

  /** What the save path silently relies on of a batch. */
  ghost predicate WellFormedBatch<K, P>(batch: seq<Record<K, P>>)
  {
    |batch| > 0 && SingleSeries(batch) && Ascending(batch)
  }

  /** A stream batch starts strictly after the series' recorded end. */
  ghost predicate AppendsAfter<K, P>(ov: map<K, Overview>, batch: seq<Record<K, P>>)
    requires |batch| > 0
  {
    batch[0].key in ov ==> ov[batch[0].key].end < batch[0].time
  }

  /**
   What a save needs for the summaries to stay exact: they are exact now,
   the batch is well formed, and a stream batch starts after the recorded end.
   */
  ghost predicate SaveConditionsHold<K, P>(raw: map<(K, Time), P>, ov: map<K, Overview>,
                                           batch: seq<Record<K, P>>, stream: bool)
  {
    Consistent(raw, ov) && WellFormedBatch(batch) && (stream ==> AppendsAfter(ov, batch))
  }

  /**
   The summary table after a save of `batch`, given the raw table `rawAfter`
   after its upsert. The series is that of `batch[0]`:
   - no summary row yet: insert (`len(batch)`, first time, last time);
   - `stream`: add `len(batch)` to the count and move the end to the last time;
   - otherwise: recount the raw rows of the series and widen start and end
     with the batch's first and last time.
   */
  function SavedOverview<K(==), P>(prior: map<K, Overview>, rawAfter: map<(K, Time), P>,
                                   batch: seq<Record<K, P>>, stream: bool): (r: map<K, Overview>)
    requires |batch| > 0
    ensures r.Keys == prior.Keys + {batch[0].key}
    ensures forall k :: k in prior && k != batch[0].key ==> r[k] == prior[k]
  {
    var k := batch[0].key;
    var first := batch[0].time;
    var last := batch[|batch| - 1].time;
    if k !in prior then
      prior[k := Overview(|batch|, first, last)]
    else if stream then
      prior[k := Overview(prior[k].count + |batch|, prior[k].start, last)]
    else
      prior[k := Overview(|Times(rawAfter, k)|, Min(first, prior[k].start), Max(last, prior[k].end))]
  }

  /**
   One save on a raw table and its summary table: upsert every record of
   the batch, then apply the summary rule for the batch's series. The
   summaries stay exact when they were and the batch meets the conditions
   the save path relies on.
   */
  method SaveRecords<K(==), P>(raw: map<(K, Time), P>, ov: map<K, Overview>,
                               batch: seq<Record<K, P>>, stream: bool)
    returns (raw': map<(K, Time), P>, ov': map<K, Overview>)
    requires |batch| > 0
    ensures raw' == Upserted(raw, batch)
    ensures ov' == SavedOverview(ov, raw', batch, stream)
    ensures SaveConditionsHold(raw, ov, batch, stream) ==> Consistent(raw', ov')
  {
    raw' := UpsertRows(raw, batch);
    ov' := SavedOverview(ov, raw', batch, stream);
    if SaveConditionsHold(raw, ov, batch, stream) {
      SaveKeepsConsistent(raw, ov, batch, stream);
    }
  }

  /**
   One delete on a raw table and its summary table: the number of raw rows
   of series `k`, then both tables without that series.
   */
  method DeleteRecords<K(==), P>(raw: map<(K, Time), P>, ov: map<K, Overview>, k: K)
    returns (count: nat, raw': map<(K, Time), P>, ov': map<K, Overview>)
    ensures count == |Times(raw, k)|
    ensures raw' == RemoveSeries(raw, k) && ov' == ov - {k}
    ensures Consistent(raw, ov) ==> Consistent(raw', ov') && count == (if k in ov then ov[k].count else 0)
  {
    if Consistent(raw, ov) {
      DeleteKeepsConsistent(raw, ov, k);
    }
    count := |Times(raw, k)|;
    raw' := RemoveSeries(raw, k);
    ov' := ov - {k};
  }

  /** An ascending batch has `len(batch)` distinct timestamps. */
  lemma {:induction false} AscendingCount<K, P>(rows: seq<Record<K, P>>)
    requires Ascending(rows)
    ensures |TimesOf(rows)| == |rows|
  {
    if rows != [] {
      var rest := rows[1..];
      assert Ascending(rest) by {
        assert forall i :: 0 <= i < |rest| ==> rest[i] == rows[i + 1];
      }
      AscendingCount(rest);
      assert TimesOf(rows) == {rows[0].time} + TimesOf(rest) by {
        forall t | t in TimesOf(rows) ensures t in {rows[0].time} + TimesOf(rest) {
          var i :| 0 <= i < |rows| && rows[i].time == t;
          if i > 0 { assert rest[i - 1].time == t; }
        }
        forall t | t in TimesOf(rest) ensures t in TimesOf(rows) {
          var i :| 0 <= i < |rest| && rest[i].time == t;
          assert rows[i + 1].time == t;
        }
      }
      assert rows[0].time !in TimesOf(rest) by {
        forall i | 0 <= i < |rest| ensures rest[i].time != rows[0].time {
          assert rest[i] == rows[i + 1];
        }
      }
    }
  }

  /** An ascending non-empty batch runs from its first timestamp to its last. */
  lemma AscendingBounds<K, P>(rows: seq<Record<K, P>>)
    requires Ascending(rows) && rows != []
    ensures IsLeast(rows[0].time, TimesOf(rows))
    ensures IsGreatest(rows[|rows| - 1].time, TimesOf(rows))
  {
    forall t | t in TimesOf(rows) ensures rows[0].time <= t <= rows[|rows| - 1].time {
      var i :| 0 <= i < |rows| && rows[i].time == t;
    }
    assert rows[|rows| - 1].time in TimesOf(rows);
  }

  /** In a single-series batch, the batch's timestamps all belong to the first record's series. */
  lemma SingleSeriesTimes<K, P>(batch: seq<Record<K, P>>, k: K)
    requires |batch| > 0 && SingleSeries(batch)
    ensures BatchTimes(batch, k) == if k == batch[0].key then TimesOf(batch) else {}
  {
    if k != batch[0].key {
      assert forall t :: t !in BatchTimes(batch, k);
    }
  }

  /** A batch writes at most `len(batch)` timestamps to any one series. */
  lemma {:induction false} BatchTimesBound<K, P>(batch: seq<Record<K, P>>, k: K)
    ensures |BatchTimes(batch, k)| <= |batch|
  {
    if batch != [] {
      var rest := batch[1..];
      BatchTimesBound(rest, k);
      assert BatchTimes(batch, k) <= {batch[0].time} + BatchTimes(rest, k) by {
        forall t | t in BatchTimes(batch, k) ensures t in {batch[0].time} + BatchTimes(rest, k) {
          var i :| 0 <= i < |batch| && batch[i].key == k && batch[i].time == t;
          if i > 0 { assert rest[i - 1] == batch[i]; }
        }
      }
      SubsetCard(BatchTimes(batch, k), {batch[0].time} + BatchTimes(rest, k));
    }
  }

  lemma SubsetCard(a: set<Time>, b: set<Time>)
    requires a <= b
    ensures |a| <= |b|
  {
    assert b == a + (b - a);
  }

  /** No summary row means no raw rows, when summaries are consistent. */
  lemma NoSummaryNoRows<K, P>(raw: map<(K, Time), P>, ov: map<K, Overview>, k: K)
    requires Consistent(raw, ov)
    requires k !in ov
    ensures Times(raw, k) == {}
  {
    assert forall t :: (k, t) in raw ==> k in ov;
  }

  /** First write: the new summary describes exactly the batch's timestamps. */
  lemma FirstWriteSummary<K, P>(batch: seq<Record<K, P>>)
    requires |batch| > 0 && Ascending(batch)
    ensures Summarises(Overview(|batch|, batch[0].time, batch[|batch| - 1].time), TimesOf(batch))
  {
    AscendingCount(batch);
    AscendingBounds(batch);
  }

  /** Stream append strictly after the recorded end: count and end advance, start stays. */
  lemma StreamSummary<K, P>(o: Overview, before: set<Time>, batch: seq<Record<K, P>>)
    requires Summarises(o, before)
    requires |batch| > 0 && Ascending(batch)
    requires o.end < batch[0].time
    ensures Summarises(Overview(o.count + |batch|, o.start, batch[|batch| - 1].time), before + TimesOf(batch))
  {
    var written := TimesOf(batch);
    AscendingCount(batch);
    AscendingBounds(batch);
    assert forall t :: t in written ==> o.end < t;
    assert before * written == {};
  }

  /** Bulk write: recounted, and the bounds widened by the batch's first and last timestamp. */
  lemma BulkSummary<K, P>(o: Overview, before: set<Time>, batch: seq<Record<K, P>>)
    requires Summarises(o, before)
    requires |batch| > 0 && Ascending(batch)
    ensures Summarises(Overview(|before + TimesOf(batch)|, Min(batch[0].time, o.start), Max(batch[|batch| - 1].time, o.end)),
                       before + TimesOf(batch))
  {
    AscendingBounds(batch);
  }

  /**
   When the summaries were exact and the batch is one series, the summary of
   every other series that has one is still exact after the save.
   */
  lemma SaveOtherSeries<K, P>(raw: map<(K, Time), P>, ov: map<K, Overview>,
                              batch: seq<Record<K, P>>, stream: bool, k2: K)
    requires Consistent(raw, ov)
    requires WellFormedBatch(batch)
    requires k2 != batch[0].key && k2 in ov
    ensures Summarises(SavedOverview(ov, Upserted(raw, batch), batch, stream)[k2], Times(Upserted(raw, batch), k2))
  {
    UpsertedTimes(raw, batch, k2);
    SingleSeriesTimes(batch, k2);
  }

  /** After a single-series save, every raw row still has a summary row. */
  lemma SaveCoversRows<K, P>(raw: map<(K, Time), P>, ov: map<K, Overview>,
                             batch: seq<Record<K, P>>, stream: bool)
    requires Consistent(raw, ov)
    requires WellFormedBatch(batch)
    ensures forall p :: p in Upserted(raw, batch) ==> p.0 in SavedOverview(ov, Upserted(raw, batch), batch, stream)
  {
    var after := Upserted(raw, batch);
    var ov' := SavedOverview(ov, after, batch, stream);
    UpsertedSpec(raw, batch);
    forall p | p in after ensures p.0 in ov' {
      if p !in raw {
        var i :| 0 <= i < |batch| && KeyOf(batch[i]) == p;
      }
    }
  }

  /** The summary the save writes for the batch's own series is exact. */
  lemma SaveOwnSeries<K, P>(raw: map<(K, Time), P>, ov: map<K, Overview>,
                            batch: seq<Record<K, P>>, stream: bool)
    requires Consistent(raw, ov)
    requires WellFormedBatch(batch)
    requires stream ==> AppendsAfter(ov, batch)
    ensures Summarises(SavedOverview(ov, Upserted(raw, batch), batch, stream)[batch[0].key],
                       Times(Upserted(raw, batch), batch[0].key))
  {
    var k := batch[0].key;
    SingleSeriesTimes(batch, k);
    UpsertedTimes(raw, batch, k);
    if k !in ov {
      NoSummaryNoRows(raw, ov, k);
      FirstWriteSummary(batch);
    } else if stream {
      StreamSummary(ov[k], Times(raw, k), batch);
    } else {
      BulkSummary(ov[k], Times(raw, k), batch);
    }
  }

  /**
   A save keeps the summary exact: if summaries matched the raw data before,
   the batch is non-empty, of one series, strictly ascending, and (for a
   stream save) starts after the recorded end, then after the upsert and the
   summary update the summaries match the raw data again.
   */
  lemma SaveKeepsConsistent<K, P>(raw: map<(K, Time), P>, ov: map<K, Overview>,
                                  batch: seq<Record<K, P>>, stream: bool)
    requires Consistent(raw, ov)
    requires WellFormedBatch(batch)
    requires stream ==> AppendsAfter(ov, batch)
    ensures Consistent(Upserted(raw, batch), SavedOverview(ov, Upserted(raw, batch), batch, stream))
  {
    var after := Upserted(raw, batch);
    var ov' := SavedOverview(ov, after, batch, stream);
    SaveOwnSeries(raw, ov, batch, stream);
    forall k2 | k2 in ov' && k2 != batch[0].key ensures Summarises(ov'[k2], Times(after, k2)) {
      SaveOtherSeries(raw, ov, batch, stream, k2);
    }
    SaveCoversRows(raw, ov, batch, stream);
  }

  /**
   The bulk path counts exactly: the new count is the prior count plus the
   number of batch timestamps that were not already stored (overwritten rows
   are not counted twice), and so never more than the prior count plus
   `len(batch)`.
   */
  lemma BulkCount<K, P>(raw: map<(K, Time), P>, ov: map<K, Overview>, batch: seq<Record<K, P>>)
    requires Consistent(raw, ov)
    requires |batch| > 0 && batch[0].key in ov
    ensures var k := batch[0].key;
            var count := SavedOverview(ov, Upserted(raw, batch), batch, false)[k].count;
            count == ov[k].count + |BatchTimes(batch, k) - Times(raw, k)| &&
            count <= ov[k].count + |batch|
  {
    var k := batch[0].key;
    var before := Times(raw, k);
    var added := BatchTimes(batch, k);
    UpsertedTimes(raw, batch, k);
    assert before + added == before + (added - before);
    assert before * (added - before) == {};
    BatchTimesBound(batch, k);
    SubsetCard(added - before, added);
  }

  /**
   Delete keeps the summary exact, and the number of rows it reports removed
   equals the series' summary count (zero when it had no summary row).
   */
  lemma DeleteKeepsConsistent<K, P>(raw: map<(K, Time), P>, ov: map<K, Overview>, k: K)
    requires Consistent(raw, ov)
    ensures Consistent(RemoveSeries(raw, k), ov - {k})
    ensures |Times(raw, k)| == if k in ov then ov[k].count else 0
  {
    var after := RemoveSeries(raw, k);
    forall k2 | k2 in ov - {k} ensures Times(after, k2) == Times(raw, k2) {
      forall t | t in Times(raw, k2) ensures (k2, t) in after {}
    }
    if k !in ov {
      NoSummaryNoRows(raw, ov, k);
    }
  }

  /** The series that have raw rows. */
  ghost function SeriesKeys<K, P>(raw: map<(K, Time), P>): set<K>
  {
    set p | p in raw :: p.0
  }

  /** The true aggregate of one series: `COUNT(*)`, `MIN(datetime)`, `MAX(datetime)`. */
  ghost function TrueOverview<K, P>(raw: map<(K, Time), P>, k: K): (o: Overview)
    requires Times(raw, k) != {}
    ensures Summarises(o, Times(raw, k))
  {
    var ts := Times(raw, k);
    SetHasMin(ts);
    SetHasMax(ts);
    var lo :| IsLeast(lo, ts);
    var hi :| IsGreatest(hi, ts);
    Overview(|ts|, lo, hi)
  }

  /** The `GROUP BY` aggregate over the whole raw table: one true summary per series with rows. */
  ghost function TrueOverviews<K, P>(raw: map<(K, Time), P>): (r: map<K, Overview>)
    ensures Consistent(raw, r)
  {
    var r := map k | k in SeriesKeys(raw) && Times(raw, k) != {} :: TrueOverview(raw, k);
    assert forall p :: p in raw ==> p.1 in Times(raw, p.0) && p.0 in SeriesKeys(raw);
    r
  }

  /** A summary of a set of timestamps is unique. */
  lemma SummarisesUnique(o1: Overview, o2: Overview, ts: set<Time>)
    requires Summarises(o1, ts) && Summarises(o2, ts)
    ensures o1 == o2
  {
  }

  /** Summaries are derived state: consistent summaries are exactly the true aggregates. */
  lemma ConsistentIsTrue<K, P>(raw: map<(K, Time), P>, ov: map<K, Overview>)
    requires Consistent(raw, ov)
    ensures ov == TrueOverviews(raw)
  {
    var truth := TrueOverviews(raw);
    forall k | k in ov ensures k in truth && ov[k] == truth[k] {
      SummarisesUnique(ov[k], truth[k], Times(raw, k));
    }
    forall k | k in truth ensures k in ov {
      assert (k, truth[k].start) in raw;
    }
  }

  /** Folds one more raw key into a running per-series aggregate. */
  function AddRow<K(==)>(g: map<K, Overview>, p: (K, Time)): map<K, Overview>
  {
    if p.0 in g then g[p.0 := Overview(g[p.0].count + 1, Min(g[p.0].start, p.1), Max(g[p.0].end, p.1))]
    else g[p.0 := Overview(1, p.1, p.1)]
  }

  lemma AddRowKeepsConsistent<K, P>(seen: map<(K, Time), P>, g: map<K, Overview>, p: (K, Time), v: P)
    requires Consistent(seen, g)
    requires p !in seen
    ensures Consistent(seen[p := v], AddRow(g, p))
  {
    var seen' := seen[p := v];
    var g' := AddRow(g, p);
    assert Times(seen', p.0) == Times(seen, p.0) + {p.1};
    if p.0 !in g {
      NoSummaryNoRows(seen, g, p.0);
    }
    forall k | k in g' ensures Summarises(g'[k], Times(seen', k)) {
      if k != p.0 {
        assert Times(seen', k) == Times(seen, k);
      }
    }
  }

  /** Any two maps with the same keys give every series the same timestamps. */
  lemma SameKeysSameTimes<K, P>(a: map<(K, Time), P>, b: map<(K, Time), P>, k: K)
    requires a.Keys == b.Keys
    ensures Times(a, k) == Times(b, k)
  {
    assert forall t :: t in Times(a, k) <==> (k, t) in b;
  }

  /**
   The `SELECT ... COUNT(*), MIN(datetime), MAX(datetime) ... GROUP BY`
   query of the backfill: the true summary of every series with raw rows.
   */
  method GroupOverviews<K(==), P>(raw: map<(K, Time), P>) returns (g: map<K, Overview>)
    ensures g == TrueOverviews(raw)
  {
    g := map[];
    var rest := raw.Keys;
    ghost var seen: map<(K, Time), P> := map[];
    while rest != {}
      invariant seen.Keys !! rest && seen.Keys + rest == raw.Keys
      invariant Consistent(seen, g)
      decreases rest
    {
      NonEmpty(rest);
      var p :| p in rest;
      AddRowKeepsConsistent(seen, g, p, raw[p]);
      g := AddRow(g, p);
      seen := seen[p := raw[p]];
      rest := rest - {p};
    }
    forall k ensures Times(seen, k) == Times(raw, k) {
      SameKeysSameTimes(seen, raw, k);
    }
    ConsistentIsTrue(raw, g);
  }

  /** `rows` lists every summary row of `ov` exactly once, with its key columns. */
  ghost predicate Listing<K>(rows: seq<(K, Overview)>, ov: map<K, Overview>)
  {
    && |rows| == |ov|
    && (forall i :: 0 <= i < |rows| ==> rows[i].0 in ov && ov[rows[i].0] == rows[i].1)
    && (forall i, j :: 0 <= i < j < |rows| ==> rows[i].0 != rows[j].0)
    && (forall k :: k in ov ==> exists i :: 0 <= i < |rows| && rows[i].0 == k)
  }

  /** The listing `SELECT ... FROM <overview table>`: every summary row once, in no particular order. */
  method ListOverview<K(==)>(ov: map<K, Overview>) returns (rows: seq<(K, Overview)>)
    ensures Listing(rows, ov)
  {
    rows := [];
    var rest := ov.Keys;
    while rest != {}
      invariant rest <= ov.Keys
      invariant |rows| + |rest| == |ov|
      invariant forall i :: 0 <= i < |rows| ==> rows[i].0 in ov && rows[i].0 !in rest && ov[rows[i].0] == rows[i].1
      invariant forall i, j :: 0 <= i < j < |rows| ==> rows[i].0 != rows[j].0
      invariant forall k :: k in ov && k !in rest ==> exists i :: 0 <= i < |rows| && rows[i].0 == k
      decreases rest
    {
      NonEmpty(rest);
      var k :| k in rest;
      var rows' := rows + [(k, ov[k])];
      assert forall i :: 0 <= i < |rows| ==> rows'[i] == rows[i];
      assert rows'[|rows|].0 == k;
      rows := rows';
      rest := rest - {k};
    }
  }

  /**
   The backfill's loop over the grouped rows, each an upsert of one summary
   row (`INSERT ... ON CONFLICT DO UPDATE`): every grouped row replaces or adds
   the row of its series, and rows of other series stay.
   */
  method UpsertSummaries<K(==)>(ov: map<K, Overview>, grouped: map<K, Overview>) returns (r: map<K, Overview>)
    ensures r == ov + grouped
  {
    r := ov;
    var rest := grouped.Keys;
    while rest != {}
      invariant rest <= grouped.Keys
      invariant r == ov + map k | k in grouped && k !in rest :: grouped[k]
      decreases rest
    {
      NonEmpty(rest);
      var k :| k in rest;
      r := r[k := grouped[k]];
      rest := rest - {k};
    }
    assert (map k | k in grouped && k !in rest :: grouped[k]) == grouped;
  }

  /**
   A backfill over a non-empty raw table yields at least one summary row, so
   the next read does not backfill again. The first ensures is the map fact
   `GetBarOverview` needs to see that, over an empty summary table, the
   upsert of the true summaries is exactly the true summaries.
   */
  lemma BackfillRestores<K, P>(raw: map<(K, Time), P>, ov: map<K, Overview>)
    requires |ov| == 0
    ensures ov + TrueOverviews(raw) == TrueOverviews(raw)
    ensures |raw| > 0 ==> |TrueOverviews(raw)| > 0
  {
    assert ov == map[];
    if |raw| > 0 {
      NonEmpty(raw.Keys);
      var p :| p in raw.Keys;
      assert p.0 in TrueOverviews(raw);
    }
  }
}
