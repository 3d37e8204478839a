/**
 Raw time-series tables, written once for both record kinds.

 A raw table (`bar_data`, `tick_data`) is a map from its primary key, a series
 key together with a timestamp, to the stored row. The series key is
 (symbol, exchange, interval) for bars and (symbol, exchange) for ticks; this
 module is generic over it (`K`) and over the stored row (`P`).
 */
module Tables {

  /** A timestamp, already normalised to the store's time zone. */
  type Time = int

  /** One row to be written: its series, its timestamp and its stored columns. */
  datatype Record<K, P> = Record(key: K, time: Time, payload: P)

  /** The primary key a record is stored under. */
  function KeyOf<K, P>(r: Record<K, P>): (K, Time)
  {
    (r.key, r.time)
  }

  function Min(a: Time, b: Time): Time
  {
    if a <= b then a else b
  }

  function Max(a: Time, b: Time): Time
  {
    if a <= b then b else a
  }

  /** The timestamps stored for series `k`: what `WHERE <series> = k` selects. */
  function Times<K(==), P>(raw: map<(K, Time), P>, k: K): (ts: set<Time>)
    ensures forall t :: t in ts <==> (k, t) in raw
  {
    set p | p in raw && p.0 == k :: p.1
  }

  /** The primary keys a batch writes. */
  function BatchKeys<K(==), P>(batch: seq<Record<K, P>>): set<(K, Time)>
  {
    set i | 0 <= i < |batch| :: KeyOf(batch[i])
  }

  /** The timestamps a batch writes for series `k`. */
  function BatchTimes<K(==), P>(batch: seq<Record<K, P>>, k: K): set<Time>
  {
    set i | 0 <= i < |batch| && batch[i].key == k :: batch[i].time
  }

  /** The timestamps of a sequence of records, whatever their series. */
  function TimesOf<K, P>(rows: seq<Record<K, P>>): set<Time>
  {
    set i | 0 <= i < |rows| :: rows[i].time
  }

  /** Strictly increasing timestamps (so also no timestamp twice). */
  predicate Ascending<K, P>(rows: seq<Record<K, P>>)
  {
    forall i, j :: 0 <= i < j < |rows| ==> rows[i].time < rows[j].time
  }

  /** No later record of the batch has the same primary key as record `i`. */
  predicate LastFor<K(==), P>(batch: seq<Record<K, P>>, i: int)
    requires 0 <= i < |batch|
  {
    forall j :: i < j < |batch| ==> KeyOf(batch[j]) != KeyOf(batch[i])
  }

  /** The raw table after upserting every record of the batch, in order; no stored row is ever removed. */
  function Upserted<K(==), P>(raw: map<(K, Time), P>, batch: seq<Record<K, P>>): (r: map<(K, Time), P>)
    ensures raw.Keys <= r.Keys
    decreases |batch|
  {
    if batch == [] then raw
    else Upserted(raw[KeyOf(batch[0]) := batch[0].payload], batch[1..])
  }

  /** The raw table after deleting every row of series `k`. */
  function RemoveSeries<K(==), P>(raw: map<(K, Time), P>, k: K): (r: map<(K, Time), P>)
    ensures Times(r, k) == {}
    ensures forall p :: p in raw && p.0 != k ==> p in r && r[p] == raw[p]
    ensures r.Keys <= raw.Keys
  {
    map p | p in raw && p.0 != k :: raw[p]
  }

  lemma BatchKeysSplit<K, P>(batch: seq<Record<K, P>>)
    requires batch != []
    ensures BatchKeys(batch) == {KeyOf(batch[0])} + BatchKeys(batch[1..])
  {
    var rest := batch[1..];
    forall q | q in BatchKeys(batch) ensures q in {KeyOf(batch[0])} + BatchKeys(rest) {
      var i :| 0 <= i < |batch| && KeyOf(batch[i]) == q;
      if i > 0 { assert KeyOf(rest[i - 1]) == q; }
    }
    forall q | q in BatchKeys(rest) ensures q in BatchKeys(batch) {
      var i :| 0 <= i < |rest| && KeyOf(rest[i]) == q;
      assert KeyOf(batch[i + 1]) == q;
    }
  }

  /**
   Upsert is keyed and replaces: the table gains exactly the batch's keys,
   rows under other keys keep their value, and every key of the batch holds
   the payload of the last record written under it.
   */
  lemma {:induction false} UpsertedSpec<K, P>(raw: map<(K, Time), P>, batch: seq<Record<K, P>>)
    ensures Upserted(raw, batch).Keys == raw.Keys + BatchKeys(batch)
    ensures forall p :: p in raw && p !in BatchKeys(batch) ==> Upserted(raw, batch)[p] == raw[p]
    ensures forall i :: 0 <= i < |batch| && LastFor(batch, i) ==>
              Upserted(raw, batch)[KeyOf(batch[i])] == batch[i].payload
    decreases |batch|
  {
    if batch != [] {
      var raw1 := raw[KeyOf(batch[0]) := batch[0].payload];
      var rest := batch[1..];
      UpsertedSpec(raw1, rest);
      BatchKeysSplit(batch);
      forall i | 0 <= i < |batch| && LastFor(batch, i)
        ensures Upserted(raw, batch)[KeyOf(batch[i])] == batch[i].payload
      {
        if i == 0 {
          assert KeyOf(batch[0]) !in BatchKeys(rest);
        } else {
          assert rest[i - 1] == batch[i];
          assert LastFor(rest, i - 1) by {
            forall j | i - 1 < j < |rest| ensures KeyOf(rest[j]) != KeyOf(rest[i - 1]) {
              assert rest[j] == batch[j + 1];
            }
          }
        }
      }
    }
  }

  /** A property of every (key, row) pair of the table survives an upsert of rows that have it. */
  lemma {:induction false} UpsertedKeeps<K, P>(raw: map<(K, Time), P>, batch: seq<Record<K, P>>,
                                               fits: ((K, Time), P) -> bool)
    requires forall p :: p in raw ==> fits(p, raw[p])
    requires forall i :: 0 <= i < |batch| ==> fits(KeyOf(batch[i]), batch[i].payload)
    ensures forall p :: p in Upserted(raw, batch) ==> fits(p, Upserted(raw, batch)[p])
    decreases |batch|
  {
    if batch != [] {
      var raw1 := raw[KeyOf(batch[0]) := batch[0].payload];
      assert forall i :: 0 <= i < |batch| - 1 ==> batch[1..][i] == batch[i + 1];
      UpsertedKeeps(raw1, batch[1..], fits);
    }
  }

  /** After an upsert, series `k` holds its old timestamps and the batch's timestamps for `k`. */
  lemma UpsertedTimes<K, P>(raw: map<(K, Time), P>, batch: seq<Record<K, P>>, k: K)
    ensures Times(Upserted(raw, batch), k) == Times(raw, k) + BatchTimes(batch, k)
  {
    UpsertedSpec(raw, batch);
    var after := Upserted(raw, batch);
    forall t | t in Times(after, k) ensures t in Times(raw, k) + BatchTimes(batch, k) {
      if (k, t) !in raw {
        var i :| 0 <= i < |batch| && KeyOf(batch[i]) == (k, t);
        assert batch[i].key == k && batch[i].time == t;
      }
    }
    forall t | t in BatchTimes(batch, k) ensures t in Times(after, k) {
      var i :| 0 <= i < |batch| && batch[i].key == k && batch[i].time == t;
      assert KeyOf(batch[i]) in BatchKeys(batch);
    }
  }

  /** `executemany` of the upsert statement: one keyed upsert per record, in batch order. */
  method UpsertRows<K(==), P>(raw: map<(K, Time), P>, batch: seq<Record<K, P>>) returns (r: map<(K, Time), P>)
    ensures r == Upserted(raw, batch)
  {
    r := raw;
    var i := 0;
    while i < |batch|
      invariant 0 <= i <= |batch|
      invariant Upserted(r, batch[i..]) == Upserted(raw, batch)
    {
      assert batch[i..][1..] == batch[i + 1..];
      r := r[KeyOf(batch[i]) := batch[i].payload];
      i := i + 1;
    }
    assert batch[i..] == [];
  }

  /** A set that is not empty has an element. */
  lemma NonEmpty<T>(s: set<T>)
    requires s != {}
    ensures exists x :: x in s
  {
  }

  /** `m` is the least element of `s`. */
  predicate IsLeast(m: Time, s: set<Time>)
  {
    m in s && forall u :: u in s ==> m <= u
  }

  /** `m` is the greatest element of `s`. */
  predicate IsGreatest(m: Time, s: set<Time>)
  {
    m in s && forall u :: u in s ==> u <= m
  }

  /** A finite non-empty set of timestamps has a least element. */
  lemma {:induction false} SetHasMin(s: set<Time>)
    requires s != {}
    ensures exists m :: IsLeast(m, s)
  {
    if forall u :: u !in s {
      assert false;
    }
    var x :| x in s;
    var others := s - {x};
    if others == {} {
      forall u | u in s ensures x <= u {
        assert u !in others;
      }
      assert IsLeast(x, s);
    } else {
      SetHasMin(others);
      var m :| IsLeast(m, others);
      var least := Min(x, m);
      forall u | u in s ensures least <= u {
        if u != x { assert u in others; }
      }
      assert IsLeast(least, s);
    }
  }

  /** A finite non-empty set of timestamps has a greatest element. */
  lemma {:induction false} SetHasMax(s: set<Time>)
    requires s != {}
    ensures exists m :: IsGreatest(m, s)
  {
    if forall u :: u !in s {
      assert false;
    }
    var x :| x in s;
    var others := s - {x};
    if others == {} {
      forall u | u in s ensures u <= x {
        assert u !in others;
      }
      assert IsGreatest(x, s);
    } else {
      SetHasMax(others);
      var m :| IsGreatest(m, others);
      var greatest := Max(x, m);
      forall u | u in s ensures u <= greatest {
        if u != x { assert u in others; }
      }
      assert IsGreatest(greatest, s);
    }
  }

  /** The timestamps of series `k` within the inclusive range `[start, end]`. */
  function RangeTimes<K(==), P>(raw: map<(K, Time), P>, k: K, start: Time, end: Time): set<Time>
  {
    set t | t in Times(raw, k) && start <= t <= end
  }

  /** Every row is a stored row of series `k`, carrying the stored payload. */
  ghost predicate StoredRowsOf<K, P>(rows: seq<Record<K, P>>, raw: map<(K, Time), P>, k: K)
  {
    forall i :: 0 <= i < |rows| ==>
      rows[i].key == k && KeyOf(rows[i]) in raw && rows[i].payload == raw[KeyOf(rows[i])]
  }

  /**
   What the scan knows part-way: `rows` holds, in order, the wanted timestamps
   already taken, and each of them is earlier than any still to take in `rest`.
   */
  ghost predicate ScanSoFar<K, P>(rows: seq<Record<K, P>>, rest: set<Time>, wanted: set<Time>)
  {
    && TimesOf(rows) + rest == wanted
    && (forall i, u :: 0 <= i < |rows| && u in rest ==> rows[i].time < u)
    && Ascending(rows)
  }

  /** Taking the least remaining timestamp keeps the scan's state. */
  lemma ScanStep<K, P>(rows: seq<Record<K, P>>, rest: set<Time>, wanted: set<Time>, next: Record<K, P>)
    requires ScanSoFar(rows, rest, wanted)
    requires IsLeast(next.time, rest)
    ensures ScanSoFar(rows + [next], rest - {next.time}, wanted)
  {
    var rows' := rows + [next];
    assert forall i :: 0 <= i < |rows| ==> rows'[i] == rows[i];
    assert rows'[|rows|] == next;
    assert TimesOf(rows') == TimesOf(rows) + {next.time};
  }

  /**
   The range query of the loads: the rows of series `k` with
   `start <= datetime <= end`, `ORDER BY datetime`, one per stored row.
   */
  method RangeScan<K(==), P>(raw: map<(K, Time), P>, k: K, start: Time, end: Time)
    returns (rows: seq<Record<K, P>>)
    ensures Ascending(rows)
    ensures TimesOf(rows) == RangeTimes(raw, k, start, end)
    ensures StoredRowsOf(rows, raw, k)
  {
    var wanted := RangeTimes(raw, k, start, end);
    var rest := wanted;
    rows := [];
    while rest != {}
      invariant ScanSoFar(rows, rest, wanted)
      invariant StoredRowsOf(rows, raw, k)
      decreases rest
    {
      SetHasMin(rest);
      var t :| IsLeast(t, rest);
      var next := Record(k, t, raw[(k, t)]);
      ScanStep(rows, rest, wanted, next);
      rows := rows + [next];
      rest := rest - {t};
    }
  }
}
