/**
 The `DuckdbDatabase` storage adapter: four tables held as maps and the
 public operations on them.

 - `barData`: raw bars, keyed by (symbol, exchange, interval) and datetime;
 - `tickData`: raw ticks, keyed by (symbol, exchange) and datetime;
 - `barOverview`, `tickOverview`: one summary row per series.

 Each write statement the adapter sends becomes an update of these maps, and
 each query a function of the maps; the primary keys of the schema are the
 map keys, so no key ever has two rows.
 */
module Database {
  import opened Tables
  import opened Overviews
  import opened Codec

  class DuckdbDatabase {
    var barData: map<(BarKey, Time), Row>
    var tickData: map<(TickKey, Time), Row>
    var barOverview: map<BarKey, Overview>
    var tickOverview: map<TickKey, Overview>

    /**
     The column types of the schema: every stored row decodes, and its key
     columns are the key it is stored under.
     */
    ghost predicate Valid()
      reads this
    {
      BarTableFits(barData) && TickTableFits(tickData)
    }

    /**
     Opens the store. `CREATE TABLE IF NOT EXISTS` keeps whatever tables the
     file already holds, so the adapter starts from their contents.
     */
    constructor (bars: map<(BarKey, Time), Row>, ticks: map<(TickKey, Time), Row>,
                 barSummaries: map<BarKey, Overview>, tickSummaries: map<TickKey, Overview>)
      requires BarTableFits(bars) && TickTableFits(ticks)
      ensures Valid()
      ensures barData == bars && tickData == ticks
      ensures barOverview == barSummaries && tickOverview == tickSummaries
    {
      barData := bars;
      tickData := ticks;
      barOverview := barSummaries;
      tickOverview := tickSummaries;
    }

    /**
     Saves bars: upserts one row per bar, then applies the summary rule for
     the series of `bars[0]`. An empty list fails before anything is written
     (`ok` is false). When the summaries were exact and the batch is one
     ascending series that, when streamed, starts after the recorded end,
     the summaries stay exact. The source defaults `stream` to false.
     */
    method SaveBarData(bars: seq<BarData>, stream: bool) returns (ok: bool)
      requires Valid()
      modifies this
      ensures Valid()
      ensures ok == (|bars| > 0)
      ensures !ok ==> barData == old(barData) && barOverview == old(barOverview)
      ensures ok ==> barData == Upserted(old(barData), BarBatch(bars))
      ensures ok ==> barOverview == SavedOverview(old(barOverview), barData, BarBatch(bars), stream)
      ensures tickData == old(tickData) && tickOverview == old(tickOverview)
      ensures ok && SaveConditionsHold(old(barData), old(barOverview), BarBatch(bars), stream)
              ==> Consistent(barData, barOverview)
    {
      if |bars| == 0 {
        return false;
      }
      var data := EncodeBars(bars);
      var raw, ov := SaveRecords(barData, barOverview, data, stream);
      BarSaveFits(barData, bars);
      barData, barOverview := raw, ov;
      ok := true;
    }

    /** Saves ticks, as `SaveBarData` does for bars. */
    method SaveTickData(ticks: seq<TickData>, stream: bool) returns (ok: bool)
      requires Valid()
      modifies this
      ensures Valid()
      ensures ok == (|ticks| > 0)
      ensures !ok ==> tickData == old(tickData) && tickOverview == old(tickOverview)
      ensures ok ==> tickData == Upserted(old(tickData), TickBatch(ticks))
      ensures ok ==> tickOverview == SavedOverview(old(tickOverview), tickData, TickBatch(ticks), stream)
      ensures barData == old(barData) && barOverview == old(barOverview)
      ensures ok && SaveConditionsHold(old(tickData), old(tickOverview), TickBatch(ticks), stream)
              ==> Consistent(tickData, tickOverview)
    {
      if |ticks| == 0 {
        return false;
      }
      var data := EncodeTicks(ticks);
      var raw, ov := SaveRecords(tickData, tickOverview, data, stream);
      TickSaveFits(tickData, ticks);
      tickData, tickOverview := raw, ov;
      ok := true;
    }

    /**
     Loads the bars of one series with `start <= datetime <= end`: exactly
     the stored rows in that range, in ascending datetime order, each decoded
     from its stored row, with gateway name "DB".
     */
    method LoadBarData(symbol: string, exchange: string, interval: string, start: Time, end: Time)
      returns (bars: seq<BarData>)
      requires Valid()
      ensures forall i, j :: 0 <= i < j < |bars| ==> bars[i].datetime < bars[j].datetime
      ensures (set i | 0 <= i < |bars| :: bars[i].datetime) == RangeTimes(barData, BarKey(symbol, exchange, interval), start, end)
      ensures forall i :: 0 <= i < |bars| ==>
        && BarKeyOf(bars[i]) == BarKey(symbol, exchange, interval)
        && bars[i].gatewayName == LoadedGateway
        && (BarKeyOf(bars[i]), bars[i].datetime) in barData
        && DecodeBar(barData[(BarKeyOf(bars[i]), bars[i].datetime)]) == Some(bars[i])
    {
      var key := BarKey(symbol, exchange, interval);
      var rows := RangeScan(barData, key, start, end);
      bars := [];
      for i := 0 to |rows|
        invariant |bars| == i
        invariant forall j :: 0 <= j < i ==>
          bars[j].datetime == rows[j].time && DecodeBar(rows[j].payload) == Some(bars[j])
      {
        assert KeyOf(rows[i]) in barData && rows[i].payload == barData[KeyOf(rows[i])];
        var b := DecodeBar(rows[i].payload).value;
        bars := bars + [b];
      }
      assert forall i :: 0 <= i < |bars| ==> bars[i].datetime == rows[i].time;
      assert (set i | 0 <= i < |bars| :: bars[i].datetime) == TimesOf(rows);
    }

    /** Loads the ticks of one series in a datetime range, as `LoadBarData` does for bars. */
    method LoadTickData(symbol: string, exchange: string, start: Time, end: Time)
      returns (ticks: seq<TickData>)
      requires Valid()
      ensures forall i, j :: 0 <= i < j < |ticks| ==> ticks[i].datetime < ticks[j].datetime
      ensures (set i | 0 <= i < |ticks| :: ticks[i].datetime) == RangeTimes(tickData, TickKey(symbol, exchange), start, end)
      ensures forall i :: 0 <= i < |ticks| ==>
        && TickKeyOf(ticks[i]) == TickKey(symbol, exchange)
        && ticks[i].gatewayName == LoadedGateway
        && (TickKeyOf(ticks[i]), ticks[i].datetime) in tickData
        && DecodeTick(tickData[(TickKeyOf(ticks[i]), ticks[i].datetime)]) == Some(ticks[i])
    {
      var key := TickKey(symbol, exchange);
      var rows := RangeScan(tickData, key, start, end);
      ticks := [];
      for i := 0 to |rows|
        invariant |ticks| == i
        invariant forall j :: 0 <= j < i ==>
          ticks[j].datetime == rows[j].time && DecodeTick(rows[j].payload) == Some(ticks[j])
      {
        assert KeyOf(rows[i]) in tickData && rows[i].payload == tickData[KeyOf(rows[i])];
        var t := DecodeTick(rows[i].payload).value;
        ticks := ticks + [t];
      }
      assert forall i :: 0 <= i < |ticks| ==> ticks[i].datetime == rows[i].time;
      assert (set i | 0 <= i < |ticks| :: ticks[i].datetime) == TimesOf(rows);
    }

    /**
     Deletes one bar series: its raw rows and its summary row go, every other
     series stays, and the result is the number of raw rows it had (which is
     its summary count when the summaries were exact).
     */
    method DeleteBarData(symbol: string, exchange: string, interval: string) returns (count: nat)
      requires Valid()
      modifies this
      ensures Valid()
      ensures count == |Times(old(barData), BarKey(symbol, exchange, interval))|
      ensures barData == RemoveSeries(old(barData), BarKey(symbol, exchange, interval))
      ensures barOverview == old(barOverview) - {BarKey(symbol, exchange, interval)}
      ensures tickData == old(tickData) && tickOverview == old(tickOverview)
      ensures old(Consistent(barData, barOverview)) ==>
        && Consistent(barData, barOverview)
        && count == (if BarKey(symbol, exchange, interval) in old(barOverview)
                     then old(barOverview)[BarKey(symbol, exchange, interval)].count else 0)
    {
      var key := BarKey(symbol, exchange, interval);
      ghost var raw := barData;
      count, barData, barOverview := DeleteRecords(barData, barOverview, key);
      assert forall p :: p in barData ==> p in raw && barData[p] == raw[p];
    }

    /** Deletes one tick series, as `DeleteBarData` does for bars. */
    method DeleteTickData(symbol: string, exchange: string) returns (count: nat)
      requires Valid()
      modifies this
      ensures Valid()
      ensures count == |Times(old(tickData), TickKey(symbol, exchange))|
      ensures tickData == RemoveSeries(old(tickData), TickKey(symbol, exchange))
      ensures tickOverview == old(tickOverview) - {TickKey(symbol, exchange)}
      ensures barData == old(barData) && barOverview == old(barOverview)
      ensures old(Consistent(tickData, tickOverview)) ==>
        && Consistent(tickData, tickOverview)
        && count == (if TickKey(symbol, exchange) in old(tickOverview)
                     then old(tickOverview)[TickKey(symbol, exchange)].count else 0)
    {
      var key := TickKey(symbol, exchange);
      ghost var raw := tickData;
      count, tickData, tickOverview := DeleteRecords(tickData, tickOverview, key);
      assert forall p :: p in tickData ==> p in raw && tickData[p] == raw[p];
    }

    /**
     Rebuilds the bar summaries from the raw bars: every series with raw bars
     gets its true count, first and last datetime; summary rows of series
     without raw bars are left as they were.
     */
    method InitBarOverview()
      modifies this
      ensures barOverview == old(barOverview) + TrueOverviews(barData)
      ensures barData == old(barData)
      ensures tickData == old(tickData) && tickOverview == old(tickOverview)
    {
      var grouped := GroupOverviews(barData);
      barOverview := UpsertSummaries(barOverview, grouped);
    }

    /**
     Lists the bar summaries, first backfilling them when raw bars exist but
     the summary table is entirely empty; a backfilled table is exact, and
     afterwards a non-empty raw table always has summary rows, so the next
     call does not backfill.
     */
    method GetBarOverview() returns (rows: seq<(BarKey, Overview)>)
      requires Valid()
      modifies this
      ensures Valid()
      ensures Listing(rows, barOverview)
      ensures barData == old(barData)
      ensures tickData == old(tickData) && tickOverview == old(tickOverview)
      ensures old(|barData| > 0 && |barOverview| == 0) ==>
        barOverview == TrueOverviews(barData) && Consistent(barData, barOverview)
      ensures !old(|barData| > 0 && |barOverview| == 0) ==> barOverview == old(barOverview)
      ensures |barData| > 0 ==> |barOverview| > 0
    {
      if |barData| > 0 && |barOverview| == 0 {
        BackfillRestores(barData, barOverview);
        InitBarOverview();
      }
      rows := ListOverview(barOverview);
    }

    /** Lists the tick summaries as stored; ticks are never backfilled. */
    method GetTickOverview() returns (rows: seq<(TickKey, Overview)>)
      ensures Listing(rows, tickOverview)
    {
      rows := ListOverview(tickOverview);
    }
  }
}
