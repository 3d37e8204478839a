/**
 The record codec: how a bar or tick record becomes one row of its raw table
 and how a stored row becomes a record again.

 A row is positional, one value per column in the table's column order, as
 the save statements insert it and the load statements select it. Exchange
 and interval tags are kept as their string values; timestamps are already
 normalised integers.
 */
module Codec {
  import opened Tables

  datatype Option<T> = None | Some(value: T)

  /** One column value as the store holds it. */
  datatype Value = Text(text: string) | Double(number: real) | Stamp(time: Time) | Null

  /** One row of a raw table, in column order. */
  type Row = seq<Value>

  /** Series key of `bar_data` and `bar_overview`. */
  datatype BarKey = BarKey(symbol: string, exchange: string, interval: string)

  /** Series key of `tick_data` and `tick_overview`. */
  datatype TickKey = TickKey(symbol: string, exchange: string)

  /** A bar (candle) record. `gatewayName` is not stored. */
  datatype BarData = BarData(
    symbol: string, exchange: string, datetime: Time, interval: string,
    volume: real, turnover: real, openInterest: real, openPrice: real, highPrice: real, lowPrice: real, closePrice: real,
    gatewayName: string)

  /**
   A tick snapshot with five levels of order book. Levels 2 to 5 of the bid
   and ask prices and volumes are nullable columns, so they are optional here.
   `gatewayName` is not stored.
   */
  datatype TickData = TickData(
    symbol: string, exchange: string, datetime: Time, name: string,
    volume: real, turnover: real, openInterest: real, lastPrice: real, lastVolume: real,
    limitUp: real, limitDown: real, openPrice: real, highPrice: real, lowPrice: real,
    preClose: real, bidPrice1: real, bidPrice2: Option<real>, bidPrice3: Option<real>, bidPrice4: Option<real>,
    bidPrice5: Option<real>, askPrice1: real, askPrice2: Option<real>, askPrice3: Option<real>, askPrice4: Option<real>,
    askPrice5: Option<real>, bidVolume1: real, bidVolume2: Option<real>, bidVolume3: Option<real>, bidVolume4: Option<real>,
    bidVolume5: Option<real>, askVolume1: real, askVolume2: Option<real>, askVolume3: Option<real>, askVolume4: Option<real>,
    askVolume5: Option<real>,
    localtime: Option<Time>, gatewayName: string)

  /** The gateway name every loaded record carries. */
  const LoadedGateway: string := "DB"

  function BarKeyOf(b: BarData): BarKey
  {
    BarKey(b.symbol, b.exchange, b.interval)
  }

  function TickKeyOf(t: TickData): TickKey
  {
    TickKey(t.symbol, t.exchange)
  }

  /** The bar as loaded back: every stored field kept, the gateway name replaced. */
  function AsLoadedBar(b: BarData): BarData
  {
    b.(gatewayName := LoadedGateway)
  }

  /** The tick as loaded back: every stored field kept, the gateway name replaced. */
  function AsLoadedTick(t: TickData): TickData
  {
    t.(gatewayName := LoadedGateway)
  }

  /** A row of `bar_data` (as selected by the load) back into a bar; `None` when a column has the wrong kind. */
  function DecodeBar(row: Row): (r: Option<BarData>)
    ensures r.Some? ==> |row| == 11 && row[2].Stamp? && r.value.datetime == row[2].time && r.value.gatewayName == LoadedGateway
  {
    if |row| == 11 && row[0].Text? && row[1].Text? && row[2].Stamp? && row[3].Text?
       && row[4].Double? && row[5].Double? && row[6].Double? && row[7].Double? && row[8].Double? && row[9].Double? && row[10].Double?
    then Some(BarData(row[0].text, row[1].text, row[2].time, row[3].text,
                      row[4].number, row[5].number, row[6].number, row[7].number, row[8].number, row[9].number, row[10].number,
                      LoadedGateway))
    else None
  }

  /** A bar as the row `save_bar_data` inserts, in `bar_data` column order; decoding gives the bar back. */
  function EncodeBar(b: BarData): (row: Row)
    ensures DecodeBar(row) == Some(AsLoadedBar(b))
  {
    [Text(b.symbol), Text(b.exchange), Stamp(b.datetime), Text(b.interval),
     Double(b.volume), Double(b.turnover), Double(b.openInterest), Double(b.openPrice), Double(b.highPrice), Double(b.lowPrice), Double(b.closePrice)]
  }

  /** A row that decodes is the encoding of what it decodes to. */
  lemma DecodeBarEncodes(row: Row)
    requires DecodeBar(row).Some?
    ensures EncodeBar(DecodeBar(row).value) == row
  {
  }

  function LocaltimeValue(t: Option<Time>): Value
  {
    match t
    case Some(x) => Stamp(x)
    case None => Null
  }

  /** A value a nullable DOUBLE column can hold. */
  predicate IsNullableDouble(v: Value)
  {
    v.Double? || v.Null?
  }

  /** A nullable DOUBLE column as loaded: a NULL comes back as an absent value. */
  function NullableNumber(v: Value): Option<real>
  {
    if v.Double? then Some(v.number) else None
  }

  /** A nullable DOUBLE column as saved, `Null` for an absent value; loading gives the value back. */
  function NullableValue(x: Option<real>): (v: Value)
    ensures IsNullableDouble(v) && NullableNumber(v) == x
  {
    match x
    case Some(d) => Double(d)
    case None => Null
  }

  /** A row of `tick_data` (as selected by the load) back into a tick; `None` when a column has the wrong kind. */
  function DecodeTick(row: Row): Option<TickData>
  {
    if |row| == 36 && row[0].Text? && row[1].Text? && row[2].Stamp? && row[3].Text?
       && row[4].Double? && row[5].Double? && row[6].Double? && row[7].Double? && row[8].Double? && row[9].Double?
       && row[10].Double? && row[11].Double? && row[12].Double? && row[13].Double? && row[14].Double? && row[15].Double?
       && IsNullableDouble(row[16]) && IsNullableDouble(row[17]) && IsNullableDouble(row[18]) && IsNullableDouble(row[19]) && row[20].Double? && IsNullableDouble(row[21])
       && IsNullableDouble(row[22]) && IsNullableDouble(row[23]) && IsNullableDouble(row[24]) && row[25].Double? && IsNullableDouble(row[26]) && IsNullableDouble(row[27])
       && IsNullableDouble(row[28]) && IsNullableDouble(row[29]) && row[30].Double? && IsNullableDouble(row[31]) && IsNullableDouble(row[32]) && IsNullableDouble(row[33])
       && IsNullableDouble(row[34])
       && (row[35].Stamp? || row[35].Null?)
    then Some(TickData(row[0].text, row[1].text, row[2].time, row[3].text,
                       row[4].number, row[5].number, row[6].number, row[7].number, row[8].number, row[9].number,
                       row[10].number, row[11].number, row[12].number, row[13].number, row[14].number, row[15].number,
                       NullableNumber(row[16]), NullableNumber(row[17]), NullableNumber(row[18]), NullableNumber(row[19]), row[20].number, NullableNumber(row[21]),
                       NullableNumber(row[22]), NullableNumber(row[23]), NullableNumber(row[24]), row[25].number, NullableNumber(row[26]), NullableNumber(row[27]),
                       NullableNumber(row[28]), NullableNumber(row[29]), row[30].number, NullableNumber(row[31]), NullableNumber(row[32]), NullableNumber(row[33]),
                       NullableNumber(row[34]),
                       if row[35].Stamp? then Some(row[35].time) else None,
                       LoadedGateway))
    else None
  }

  /** The key columns and name of a `tick_data` row. */
  function TickHeadColumns(t: TickData): (cols: seq<Value>)
    ensures |cols| == 4
    ensures cols[0] == Text(t.symbol) && cols[1] == Text(t.exchange) && cols[2] == Stamp(t.datetime) && cols[3] == Text(t.name)
  {
    [Text(t.symbol), Text(t.exchange), Stamp(t.datetime), Text(t.name)]
  }

  /** The eleven quote columns of a `tick_data` row, `volume` to `pre_close`. */
  function TickQuoteColumns(t: TickData): (cols: seq<Value>)
    ensures |cols| == 11
    ensures cols[0] == Double(t.volume)
    ensures cols[1] == Double(t.turnover)
    ensures cols[2] == Double(t.openInterest)
    ensures cols[3] == Double(t.lastPrice)
    ensures cols[4] == Double(t.lastVolume)
    ensures cols[5] == Double(t.limitUp)
    ensures cols[6] == Double(t.limitDown)
    ensures cols[7] == Double(t.openPrice)
    ensures cols[8] == Double(t.highPrice)
    ensures cols[9] == Double(t.lowPrice)
    ensures cols[10] == Double(t.preClose)
  {
    [Double(t.volume), Double(t.turnover), Double(t.openInterest), Double(t.lastPrice), Double(t.lastVolume), Double(t.limitUp),
     Double(t.limitDown), Double(t.openPrice), Double(t.highPrice), Double(t.lowPrice), Double(t.preClose)]
  }

  /**
   One side of the order book (bid or ask, price or volume) as five columns:
   level 1 is NOT NULL, levels 2 to 5 are nullable.
   */
  function LevelColumns(l1: real, l2: Option<real>, l3: Option<real>, l4: Option<real>, l5: Option<real>): (cols: seq<Value>)
    ensures |cols| == 5 && cols[0] == Double(l1)
    ensures IsNullableDouble(cols[1]) && NullableNumber(cols[1]) == l2
    ensures IsNullableDouble(cols[2]) && NullableNumber(cols[2]) == l3
    ensures IsNullableDouble(cols[3]) && NullableNumber(cols[3]) == l4
    ensures IsNullableDouble(cols[4]) && NullableNumber(cols[4]) == l5
  {
    [Double(l1), NullableValue(l2), NullableValue(l3), NullableValue(l4), NullableValue(l5)]
  }

  /** A tick as the row `save_tick_data` inserts, in `tick_data` column order; decoding gives the tick back. */
  function EncodeTick(t: TickData): (row: Row)
    ensures DecodeTick(row) == Some(AsLoadedTick(t))
  {
    TickHeadColumns(t) + TickQuoteColumns(t)
    + LevelColumns(t.bidPrice1, t.bidPrice2, t.bidPrice3, t.bidPrice4, t.bidPrice5)
    + LevelColumns(t.askPrice1, t.askPrice2, t.askPrice3, t.askPrice4, t.askPrice5)
    + LevelColumns(t.bidVolume1, t.bidVolume2, t.bidVolume3, t.bidVolume4, t.bidVolume5)
    + LevelColumns(t.askVolume1, t.askVolume2, t.askVolume3, t.askVolume4, t.askVolume5)
    + [LocaltimeValue(t.localtime)]
  }

  /** A row that decodes is the encoding of what it decodes to. */
  lemma DecodeTickEncodes(row: Row)
    requires DecodeTick(row).Some?
    ensures EncodeTick(DecodeTick(row).value) == row
  {
    assert forall v :: IsNullableDouble(v) ==> NullableValue(NullableNumber(v)) == v;
  }

  /** The raw-table record a bar is upserted as: its key columns and its whole row. */
  function BarRecord(b: BarData): Record<BarKey, Row>
  {
    Record(BarKeyOf(b), b.datetime, EncodeBar(b))
  }

  function TickRecord(t: TickData): Record<TickKey, Row>
  {
    Record(TickKeyOf(t), t.datetime, EncodeTick(t))
  }

  /** The `data` list a save builds, one record per input, in order. */
  function BarBatch(bars: seq<BarData>): seq<Record<BarKey, Row>>
  {
    seq(|bars|, i requires 0 <= i < |bars| => BarRecord(bars[i]))
  }

  function TickBatch(ticks: seq<TickData>): seq<Record<TickKey, Row>>
  {
    seq(|ticks|, i requires 0 <= i < |ticks| => TickRecord(ticks[i]))
  }

  /** A stored `bar_data` row decodes, and its key columns are the key it is stored under. */
  predicate BarRowFits(p: (BarKey, Time), row: Row)
  {
    DecodeBar(row).Some? && BarKeyOf(DecodeBar(row).value) == p.0 && DecodeBar(row).value.datetime == p.1
  }

  /** A stored `tick_data` row decodes, and its key columns are the key it is stored under. */
  predicate TickRowFits(p: (TickKey, Time), row: Row)
  {
    DecodeTick(row).Some? && TickKeyOf(DecodeTick(row).value) == p.0 && DecodeTick(row).value.datetime == p.1
  }

  /** Every record a save writes fits the key it is written under. */
  lemma BarBatchFits(bars: seq<BarData>)
    ensures forall i :: 0 <= i < |BarBatch(bars)| ==> BarRowFits(KeyOf(BarBatch(bars)[i]), BarBatch(bars)[i].payload)
  {
  }

  lemma TickBatchFits(ticks: seq<TickData>)
    ensures forall i :: 0 <= i < |TickBatch(ticks)| ==> TickRowFits(KeyOf(TickBatch(ticks)[i]), TickBatch(ticks)[i].payload)
  {
  }

  /**
   Save then load: after a bar batch is upserted, the row stored under the key
   of a bar that no later bar of the batch overwrites decodes to that bar,
   with every stored field as saved.
   */
  lemma SavedBarReadsBack(raw: map<(BarKey, Time), Row>, bars: seq<BarData>, i: int)
    requires 0 <= i < |bars| && LastFor(BarBatch(bars), i)
    ensures (BarKeyOf(bars[i]), bars[i].datetime) in Upserted(raw, BarBatch(bars))
    ensures DecodeBar(Upserted(raw, BarBatch(bars))[(BarKeyOf(bars[i]), bars[i].datetime)]) == Some(AsLoadedBar(bars[i]))
  {
    UpsertedSpec(raw, BarBatch(bars));
    assert KeyOf(BarBatch(bars)[i]) in BatchKeys(BarBatch(bars));
  }

  /** Save then load, for ticks. */
  lemma SavedTickReadsBack(raw: map<(TickKey, Time), Row>, ticks: seq<TickData>, i: int)
    requires 0 <= i < |ticks| && LastFor(TickBatch(ticks), i)
    ensures (TickKeyOf(ticks[i]), ticks[i].datetime) in Upserted(raw, TickBatch(ticks))
    ensures DecodeTick(Upserted(raw, TickBatch(ticks))[(TickKeyOf(ticks[i]), ticks[i].datetime)]) == Some(AsLoadedTick(ticks[i]))
  {
    UpsertedSpec(raw, TickBatch(ticks));
    assert KeyOf(TickBatch(ticks)[i]) in BatchKeys(TickBatch(ticks));
  }

  /** Every row of a `bar_data` table fits the key it is stored under. */
  ghost predicate BarTableFits(raw: map<(BarKey, Time), Row>)
  {
    forall p :: p in raw ==> BarRowFits(p, raw[p])
  }

  /** Every row of a `tick_data` table fits the key it is stored under. */
  ghost predicate TickTableFits(raw: map<(TickKey, Time), Row>)
  {
    forall p :: p in raw ==> TickRowFits(p, raw[p])
  }

  /** Upserting the encoded bars keeps every stored row fitting its key. */
  lemma BarSaveFits(raw: map<(BarKey, Time), Row>, bars: seq<BarData>)
    requires BarTableFits(raw)
    ensures BarTableFits(Upserted(raw, BarBatch(bars)))
  {
    BarBatchFits(bars);
    UpsertedKeeps(raw, BarBatch(bars), (p, row) => BarRowFits(p, row));
  }

  /** Upserting the encoded ticks keeps every stored row fitting its key. */
  lemma TickSaveFits(raw: map<(TickKey, Time), Row>, ticks: seq<TickData>)
    requires TickTableFits(raw)
    ensures TickTableFits(Upserted(raw, TickBatch(ticks)))
  {
    TickBatchFits(ticks);
    UpsertedKeeps(raw, TickBatch(ticks), (p, row) => TickRowFits(p, row));
  }

  /** The save loop that turns each bar into the tuple it inserts, in input order. */
  method EncodeBars(bars: seq<BarData>) returns (data: seq<Record<BarKey, Row>>)
    ensures data == BarBatch(bars)
  {
    data := [];
    for i := 0 to |bars|
      invariant |data| == i
      invariant forall j :: 0 <= j < i ==> data[j] == BarRecord(bars[j])
    {
      data := data + [BarRecord(bars[i])];
    }
  }

  /** The save loop that turns each tick into the tuple it inserts, in input order. */
  method EncodeTicks(ticks: seq<TickData>) returns (data: seq<Record<TickKey, Row>>)
    ensures data == TickBatch(ticks)
  {
    data := [];
    for i := 0 to |ticks|
      invariant |data| == i
      invariant forall j :: 0 <= j < i ==> data[j] == TickRecord(ticks[j])
    {
      data := data + [TickRecord(ticks[i])];
    }
  }
}
