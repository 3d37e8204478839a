# DuckDB market-data store: summary maintenance, in Dafny

This project models `DuckdbDatabase`, the storage adapter that keeps bar
(candle) and tick records in an embedded DuckDB file. It proves properties of
that model.

The adapter keeps four tables:

- `bar_data`: raw bars, with primary key (symbol, exchange, interval, datetime);
- `tick_data`: raw ticks, with primary key (symbol, exchange, datetime);
- `bar_overview` and `tick_overview`: one summary row per series, holding
  (count, start_dt, end_dt).

Each raw table is a Dafny `map` from its primary key to the whole positional
row that was inserted, key columns included, so a key can never hold two rows.
Only `Codec.BarRowFits` and `Codec.TickRowFits` tie a row's key columns to its
map key, and the class invariant `Valid` requires them of every stored row.
Each summary table is a `map` from the series key to its (count, start_dt,
end_dt). Each write statement becomes a map update, and each query a function
of the maps. The
class `Database.DuckdbDatabase` holds the four maps as fields. Its methods
are the adapter's public operations. The bar and tick paths share generic
code over the series key:

- `Tables` holds the raw-table operations: keyed upsert, range scan and
  series removal.
- `Overviews` holds the summary rules and the invariant they maintain.
- `Codec` holds the positional row encoding of bars and ticks.
- `SaveConditions` holds one concrete counterexample for each condition the
  save path relies on, and one save (`UnsortedBulkStaysExact`) that breaks a
  condition yet stays exact, showing the conditions are not necessary.

The invariant is `Overviews.Consistent(raw, ov)`:

- every summary row is the exact count, earliest and latest timestamp of
  its series' raw rows;
- every series with raw rows has a summary row.

A save is proved to keep the invariant when the summaries were exact before
and all of these hold:

- the batch is non-empty;
- the batch is one series;
- its timestamps strictly increase;
- for a stream save, the batch starts after the recorded end.

`Overviews.SaveKeepsConsistent` proves the save preserves the invariant under
these conditions. The conditions are sufficient, not necessary: some saves
that break one still leave the summaries exact (`SaveConditions.UnsortedBulkStaysExact`: an unsorted bulk
save inside the recorded range). For the batch being one
series, its timestamps strictly increasing (both out of order and repeated), a
stream batch starting after the recorded end, and the summaries being exact
beforehand, `SaveConditions` gives a concrete save that breaks only that
condition and leaves the summaries wrong, so each condition is needed for some
saves. An empty batch needs no such witness: every save method returns `false`
on it and writes nothing.

`get_bar_overview` backfills only when `bar_data` has rows and `bar_overview`
has none (`duckdb_database.py:473-480`). A series whose summary row is missing
while other summary rows exist is not backfilled. `GetBarOverview` models
exactly this.

## Model

| member | source | states |
|---|---|---|
| Tables.Times | duckdb_database.py:174-177 | the timestamps of a series are exactly the datetimes of its stored raw rows (what `COUNT(*)` counts per series) |
| Tables.UpsertRows | duckdb_database.py:142-152 | the `executemany` upsert writes the batch record by record, giving exactly `Upserted(raw, batch)` |
| Tables.Upserted | duckdb_database.py:142-152 | the `executemany` upsert with `ON CONFLICT DO UPDATE` as a fold of keyed map updates in batch order; it never removes a stored row, and `UpsertedSpec` states the rest |
| Tables.UpsertedSpec | duckdb_database.py:142-152 | after an upsert the keys are the old keys plus the batch keys; rows whose keys are not in the batch are unchanged; each key holds the row of the last batch record with that key |
| Tables.UpsertedTimes | duckdb_database.py:241-280 | after an upsert a series' timestamps are its old timestamps plus the batch timestamps of that series, so upsert never removes a row |
| Tables.UpsertedKeeps | duckdb_database.py:142-152 | any property held by every old row and every batch record holds for every row after the upsert |
| Tables.RangeScan | duckdb_database.py:324-332 | the range query returns rows in strictly ascending datetime order; their datetimes are exactly the series' stored datetimes in `[start, end]`; each row is the stored row for its key |
| Tables.RemoveSeries | duckdb_database.py:435-438 | deleting a series leaves it with no raw rows and keeps every row of every other series unchanged |
| Overviews.SavedOverview | duckdb_database.py:155-186 | the summary table after a save differs from the prior one only in the batch's series, which it gains if it had no row |
| Overviews.FirstWriteSummary | duckdb_database.py:160-166 | on a first write, (len(batch), first datetime, last datetime) is the exact summary of an ascending batch |
| Overviews.StreamSummary | duckdb_database.py:167-172 | the stream update (count plus len(batch), end set to the last datetime) is exact when the batch is ascending and starts after the prior end |
| Overviews.BulkSummary | duckdb_database.py:173-186 | the bulk update (recount, then widen start and end with min and max) is exact for any ascending batch, even one overlapping stored rows |
| Overviews.BulkCount | duckdb_database.py:174-177 | the bulk recount equals the prior count plus the number of batch timestamps that were new, so it never exceeds the prior count plus len(batch) |
| Overviews.AscendingCount | duckdb_database.py:165 | a strictly ascending batch has len(batch) distinct timestamps |
| Overviews.NoSummaryNoRows | duckdb_database.py:160 | under the invariant, a series without a summary row has no raw rows |
| Overviews.SaveOwnSeries | duckdb_database.py:155-186 | under the save conditions, the saved series' new summary row is its exact summary, in all three branches |
| Overviews.SaveOtherSeries | duckdb_database.py:155-186 | when the summaries were exact and the batch is one non-empty ascending series, a save leaves the summary row of every other series exact |
| Overviews.SaveCoversRows | duckdb_database.py:155-186 | when the summaries were exact and the batch is one non-empty ascending series, after the save every series with raw rows still has a summary row |
| Overviews.SaveKeepsConsistent | duckdb_database.py:155-188 | if the summaries were exact and the batch is non-empty, one series and strictly ascending, and a stream batch starts after the recorded end, then the summaries are exact after the save |
| Overviews.SaveRecords | duckdb_database.py:142-188 | one save is the upsert followed by the summary rule, and it keeps the summaries exact under the save conditions |
| Overviews.DeleteKeepsConsistent | duckdb_database.py:430-445 | deleting a series keeps the summaries exact, and the number of rows removed equals its summary count (zero with no summary row) |
| Overviews.DeleteRecords | duckdb_database.py:430-445 | delete returns the series' prior raw row count and removes its raw rows and its summary row only; it keeps the summaries exact |
| Overviews.TrueOverview | duckdb_database.py:523-530 | `COUNT(*)`, `MIN(datetime)` and `MAX(datetime)` of a non-empty series are its exact summary |
| Overviews.TrueOverviews | duckdb_database.py:523-530 | the `GROUP BY` aggregate over a raw table satisfies the invariant against it |
| Overviews.SummarisesUnique | duckdb_database.py:97-99 | a (count, start_dt, end_dt) summary of a set of timestamps is unique |
| Overviews.ConsistentIsTrue | duckdb_database.py:521-539 | summaries that satisfy the invariant are exactly the `GROUP BY` aggregate, so the rebuild changes nothing in a consistent store |
| Overviews.AddRowKeepsConsistent | duckdb_database.py:525-527 | folding one more raw row into a running count, min and max keeps the running aggregate exact |
| Overviews.GroupOverviews | duckdb_database.py:523-530 | the grouped aggregate query yields exactly `TrueOverviews(raw)` |
| Overviews.UpsertSummaries | duckdb_database.py:532-539 | upserting each grouped row gives the prior summaries overridden by the grouped ones |
| Overviews.BackfillRestores | duckdb_database.py:479-480 | a backfill over an empty summary table leaves exactly the true summaries, and a non-empty raw table then has summary rows |
| Overviews.ListOverview | duckdb_database.py:482-485 | the listing holds each stored summary row exactly once, with its key |
| Codec.EncodeBar | duckdb_database.py:127-139 | the inserted 11-column tuple decodes back to the bar, with every stored field kept and the gateway name set to "DB" |
| Codec.DecodeBar | duckdb_database.py:336-349 | a row of the 11 selected columns back into a bar, `None` for a wrong column count or kind; a decoded bar takes its datetime from the timestamp column and has gateway name "DB" |
| Codec.DecodeBarEncodes | duckdb_database.py:336-348 | a row the load can decode is the encoding of the bar it decodes to |
| Codec.NullableValue | duckdb_database.py:68-71 | an optional number stored in a nullable DOUBLE column (NULL for none) is read back as the same optional number |
| Codec.LevelColumns | duckdb_database.py:217-236 | a five-level order-book group is stored as a DOUBLE for level 1 and a nullable DOUBLE for levels 2-5, each read back as its value |
| Codec.DecodeTick | duckdb_database.py:380-418 | a row of the 36 selected columns back into a tick, with NULL order-book levels 2-5 and localtime read as none and gateway name "DB"; `None` for a wrong column count or kind; its round trips are stated by `EncodeTick` and `DecodeTickEncodes` |
| Codec.EncodeTick | duckdb_database.py:201-237 | the inserted 36-column tuple decodes back to the tick, with nullable order-book levels 2-5 and localtime, every stored field kept and the gateway name set to "DB"; the tuple is assembled from `TickHeadColumns`, `TickQuoteColumns` and `LevelColumns`, whose ensures only expose positions so that this round trip stays cheap |
| Codec.DecodeTickEncodes | duckdb_database.py:380-417 | a row the load can decode, NULL order-book levels included, is the encoding of the tick it decodes to |
| Codec.BarBatchFits | duckdb_database.py:124-139 | every record a bar save writes decodes to a bar whose key columns are its map key |
| Codec.TickBatchFits | duckdb_database.py:198-238 | every record a tick save writes decodes to a tick whose key columns are its map key |
| Codec.BarSaveFits | duckdb_database.py:142-152 | a bar save keeps every stored `bar_data` row matching its primary key |
| Codec.TickSaveFits | duckdb_database.py:241-280 | a tick save keeps every stored `tick_data` row matching its primary key |
| Codec.EncodeBars | duckdb_database.py:124-139 | the save loop builds one record per bar, in input order |
| Codec.EncodeTicks | duckdb_database.py:198-238 | the save loop builds one record per tick, in input order |
| Codec.SavedBarReadsBack | duckdb_database.py:336-348 | after a save, the row stored for a bar that no later bar overwrites decodes to that bar |
| Codec.SavedTickReadsBack | duckdb_database.py:380-417 | after a save, the row stored for a tick that no later tick overwrites decodes to that tick |
| Database.DuckdbDatabase.constructor | duckdb_database.py:24-29 | opening the store keeps the existing tables unchanged |
| Database.DuckdbDatabase.SaveBarData | duckdb_database.py:115-188 | fails with nothing written on an empty list; otherwise the bar table is the upsert of the batch and the bar summary table follows the rule for `bars[0]`'s series; tick tables are unchanged; exact summaries stay exact under the save conditions |
| Database.DuckdbDatabase.SaveTickData | duckdb_database.py:190-313 | the same as SaveBarData, for ticks, with bar tables unchanged |
| Database.DuckdbDatabase.LoadBarData | duckdb_database.py:315-352 | returns exactly the series' bars with datetime in `[start, end]`, in strictly ascending order, each decoded from its stored row, with gateway name "DB" |
| Database.DuckdbDatabase.LoadTickData | duckdb_database.py:354-421 | the same as LoadBarData, for ticks |
| Database.DuckdbDatabase.DeleteBarData | duckdb_database.py:423-445 | returns the series' raw row count; removes its raw rows and its summary row and nothing else; the count equals the summary count when the summaries were exact |
| Database.DuckdbDatabase.DeleteTickData | duckdb_database.py:447-468 | the same as DeleteBarData, for ticks |
| Database.DuckdbDatabase.InitBarOverview | duckdb_database.py:521-539 | the bar summaries become the prior ones overridden by the true aggregate of every series with raw bars |
| Database.DuckdbDatabase.GetBarOverview | duckdb_database.py:470-499 | backfills exactly when raw bars exist and the summary table is empty; after a backfill the summaries are exact and non-empty, so a second call does not backfill; it lists every summary row once |
| Database.DuckdbDatabase.GetTickOverview | duckdb_database.py:501-519 | lists every stored tick summary row once and never backfills |
| SaveConditions.StreamOverlapMiscounts | duckdb_database.py:167-172 | a stream batch repeating the recorded end counts that row twice (count 4 against 3 rows) |
| SaveConditions.MixedSeriesLosesSummary | duckdb_database.py:118-121 | a batch mixing two series leaves the second with raw rows but no summary row |
| SaveConditions.UnsortedBatchWrongStart | duckdb_database.py:160-166 | a first write out of time order records a start later than the earliest row |
| SaveConditions.RepeatedTimeMiscounts | duckdb_database.py:160-166 | a first write repeating a timestamp counts two rows where one is stored |
| SaveConditions.MissingSummaryMiscounts | duckdb_database.py:160-166 | raw rows without a summary row stay uncounted after the first write |
| SaveConditions.UnsortedBulkStaysExact | duckdb_database.py:173-186 | an out-of-order bulk save inside the recorded range keeps the summaries exact, so the ascending condition is sufficient, not necessary |

## Left out

- The DuckDB engine and SQL text. Tables are maps keyed by their primary keys, and statements are map updates. `executemany` is a loop of per-record upserts.
- Filesystem and configuration: `SETTINGS["database.database"]`, `Path.mkdir` and `duckdb.connect`. The constructor receives the tables the file already holds.
- Timezone handling: `convert_tz` on save, including its write back into the caller's objects, and `datetime.fromtimestamp(..., DB_TZ)` on load. Timestamps are already-normalised integers.
- The DOUBLE columns are modelled as `real` values carried unchanged; there is no floating-point reasoning. The nullable `tick_data` columns (order-book levels 2-5 and `localtime`) are `Option` values, with NULL for none. The schema's column `DEFAULT`s are not modelled, because every insert supplies every column.
- `Exchange` and `Interval` enum parsing, and the vnpy `BarData`, `TickData` and `*Overview` classes. Tags are strings; records and summaries are datatypes.
- Database.DuckdbDatabase.SaveBarData: an empty list raises `IndexError` at `bars[0]` in the source; the model returns `false` with nothing written. A non-empty save returns `true`, as the source does.
- Database.DuckdbDatabase.SaveTickData: the empty-list case is modelled the same way as for bars.
- Database.DuckdbDatabase.constructor: requires every existing raw row to have the column count and kinds the load decodes (text and NOT NULL DOUBLE columns present, nullable columns a value or NULL) and key columns equal to its primary key. The typed maps cannot express this, so it is a precondition. Existing summary rows are taken as they are, and nothing is assumed about their exactness.
- `count` is an unbounded `nat`; the 32-bit `INTEGER` column's overflow is not modelled.
- Read-only/read-write connection switching and cross-process locking: this file opens one connection and has no such logic.
- Transactions, atomicity and concurrent access: each method is one sequential step.
- `stream` defaults to `False` in `save_bar_data` and `save_tick_data` (`duckdb_database.py:115`, `190`). Dafny has no default arguments, so callers pass it explicitly.
- Row order of the summary listings: the source leaves it unspecified, so `Listing` promises each row exactly once, in any order.
