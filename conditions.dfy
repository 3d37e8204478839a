/**
 Counterexamples for the conditions `SaveKeepsConsistent` places on a save
 (which are sufficient, not necessary; `UnsortedBulkStaysExact` shows a save
 that breaks one and stays exact):
 a single series, strictly ascending times (both out of order and repeated),
 a stream batch after the recorded end, and exact summaries beforehand. Each
 is a concrete save that meets the other conditions but not that one and
 leaves the summaries wrong. A non-empty batch needs no counterexample,
 because the save methods refuse an empty one. Series keys are strings and
 payloads integers.
 */
module SaveConditions {
  import opened Tables
  import opened Overviews

  /** A stream batch that repeats the recorded last timestamp counts it twice. */
  lemma StreamOverlapMiscounts()
    ensures var raw: map<(string, Time), int> := map[("a", 1) := 0, ("a", 2) := 0];
            var ov := map["a" := Overview(2, 1, 2)];
            var batch := [Record("a", 2, 0), Record("a", 3, 0)];
            var after := Upserted(raw, batch);
            && Consistent(raw, ov) && WellFormedBatch(batch) && !AppendsAfter(ov, batch)
            && SavedOverview(ov, after, batch, true)["a"].count == 4
            && |Times(after, "a")| == 3
            && !Consistent(after, SavedOverview(ov, after, batch, true))
  {
    var raw: map<(string, Time), int> := map[("a", 1) := 0, ("a", 2) := 0];
    var ov := map["a" := Overview(2, 1, 2)];
    var batch := [Record("a", 2, 0), Record("a", 3, 0)];
    assert Times(raw, "a") == {1, 2};
    assert forall i, j :: 0 <= i < j < |batch| ==> batch[i].time < batch[j].time;
    var after := Upserted(raw, batch);
    assert after == map[("a", 1) := 0, ("a", 2) := 0, ("a", 3) := 0];
    assert Times(after, "a") == {1, 2, 3};
  }

  /** A batch that mixes two series gives the second one raw rows but no summary row. */
  lemma MixedSeriesLosesSummary()
    ensures var raw: map<(string, Time), int> := map[];
            var ov: map<string, Overview> := map[];
            var batch := [Record("a", 1, 0), Record("b", 2, 0)];
            var after := Upserted(raw, batch);
            && Consistent(raw, ov) && Ascending(batch) && !SingleSeries(batch)
            && ("b", 2) in after && "b" !in SavedOverview(ov, after, batch, false)
            && !Consistent(after, SavedOverview(ov, after, batch, false))
  {
    var raw: map<(string, Time), int> := map[];
    var batch := [Record("a", 1, 0), Record("b", 2, 0)];
    assert batch[1].key != batch[0].key;
    var after := Upserted(raw, batch);
    assert after == map[("a", 1) := 0, ("b", 2) := 0];
  }

  /** A first write of a batch out of time order records its first element as the start. */
  lemma UnsortedBatchWrongStart()
    ensures var raw: map<(string, Time), int> := map[];
            var ov: map<string, Overview> := map[];
            var batch := [Record("a", 2, 0), Record("a", 1, 0)];
            var after := Upserted(raw, batch);
            && Consistent(raw, ov) && SingleSeries(batch) && !Ascending(batch)
            && SavedOverview(ov, after, batch, false)["a"].start == 2
            && 1 in Times(after, "a")
            && !Consistent(after, SavedOverview(ov, after, batch, false))
  {
    var raw: map<(string, Time), int> := map[];
    var batch := [Record("a", 2, 0), Record("a", 1, 0)];
    assert batch[0].time >= batch[1].time;
    var after := Upserted(raw, batch);
    assert after == map[("a", 2) := 0, ("a", 1) := 0];
    assert 1 in Times(after, "a");
  }

  /** A first write of a batch that repeats a timestamp counts the repeat. */
  lemma RepeatedTimeMiscounts()
    ensures var raw: map<(string, Time), int> := map[];
            var ov: map<string, Overview> := map[];
            var batch := [Record("a", 1, 0), Record("a", 1, 5)];
            var after := Upserted(raw, batch);
            && Consistent(raw, ov) && SingleSeries(batch) && !Ascending(batch)
            && SavedOverview(ov, after, batch, false)["a"].count == 2
            && |Times(after, "a")| == 1
            && !Consistent(after, SavedOverview(ov, after, batch, false))
  {
    var raw: map<(string, Time), int> := map[];
    var batch := [Record("a", 1, 0), Record("a", 1, 5)];
    assert batch[0].time >= batch[1].time;
    var after := Upserted(raw, batch);
    assert after == map[("a", 1) := 5];
    assert Times(after, "a") == {1};
  }

  /**
   Raw rows without a summary row: the first write counts only the batch,
   so a series whose summary had been lost stays wrong after the save.
   */
  lemma MissingSummaryMiscounts()
    ensures var raw: map<(string, Time), int> := map[("a", 1) := 0];
            var ov: map<string, Overview> := map[];
            var batch := [Record("a", 2, 0)];
            var after := Upserted(raw, batch);
            && !Consistent(raw, ov) && WellFormedBatch(batch)
            && SavedOverview(ov, after, batch, false)["a"].count == 1
            && |Times(after, "a")| == 2
            && !Consistent(after, SavedOverview(ov, after, batch, false))
  {
    var raw: map<(string, Time), int> := map[("a", 1) := 0];
    var batch := [Record("a", 2, 0)];
    assert ("a", 1) in raw;
    var after := Upserted(raw, batch);
    assert after == map[("a", 1) := 0, ("a", 2) := 0];
    assert Times(after, "a") == {1, 2};
  }

  /**
   The conditions are sufficient, not necessary: a bulk save of an unsorted
   batch inside the recorded range still leaves the summaries exact, because
   the recount and the min/max widening do not depend on order. Here the
   batch rewrites both stored rows, last one first.
   */
  lemma UnsortedBulkStaysExact()
    ensures var raw: map<(string, Time), int> := map[("a", 1) := 0, ("a", 4) := 0];
            var ov := map["a" := Overview(2, 1, 4)];
            var batch := [Record("a", 4, 0), Record("a", 1, 0)];
            var after := Upserted(raw, batch);
            && Consistent(raw, ov) && SingleSeries(batch) && !Ascending(batch)
            && Consistent(after, SavedOverview(ov, after, batch, false))
  {
    var raw: map<(string, Time), int> := map[("a", 1) := 0, ("a", 4) := 0];
    var batch := [Record("a", 4, 0), Record("a", 1, 0)];
    assert Times(raw, "a") == {1, 4};
    assert Summarises(Overview(2, 1, 4), {1, 4});
    assert batch[0].time >= batch[1].time;
    assert Upserted(raw, batch) == raw;
  }
}
