/** The order-book collector: every book state from the depth stream is
    turned into one flat row (the best `top_levels` levels of each side,
    best bid and ask, mid, and aggregated volumes), and rows are buffered
    and written out in batches of 50. */
module DataCollector {
  import opened Wrappers
  import opened BinanceClient

  /** The dataset settings the row formatter reads. */
  datatype DatasetConfig = DatasetConfig(topLevels: int, aggDepths: seq<int>)

  datatype BookSide = Bid | Ask

  /** The names of the per-level and aggregated columns of a row:
      `bid_{n}_price`, `bid_{n}_vol`, `bid_vol_top_{d}` and their ask
      counterparts. */
  datatype RowKey =
    | Price(side: BookSide, n: nat)
    | Vol(side: BookSide, n: nat)
    | VolTop(side: BookSide, depth: int)

  /** One formatted row: the fixed columns, then the level columns. */
  datatype Row = Row(
    exchangeTime: Option<int>, localTime: real,
    bestBid: real, bestAsk: real, mid: real,
    fields: map<RowKey, real>)

  /** The prices of a list of levels. */
  function Prices(levels: seq<Level>): (ps: seq<real>)
    ensures |ps| == |levels|
    ensures forall k :: 0 <= k < |levels| ==> ps[k] == levels[k].0
  {
    seq(|levels|, k requires 0 <= k < |levels| => levels[k].0)
  }

  /** Strictly decreasing when `descending`, strictly increasing
      otherwise. */
  ghost predicate Ordered(ps: seq<real>, descending: bool)
  {
    forall a, b :: 0 <= a < b < |ps| ==> if descending then ps[a] > ps[b] else ps[a] < ps[b]
  }

  /** The prices of one side in sorted order, highest first when
      `descending` and lowest first otherwise: each price once. */
  function SortedPrices(ks: set<real>, descending: bool): (ps: seq<real>)
    ensures |ps| == |ks| && Ordered(ps, descending)
    ensures forall p :: p in ps <==> p in ks
    decreases |ks|
  {
    if |ks| == 0 then []
    else
      var top := if descending then SetMax(ks) else SetMin(ks);
      [top] + SortedPrices(ks - {top}, descending)
  }

  /** `sorted(side.items(), key=...)`: the levels of one side, bids by
      descending and asks by ascending price, each with its quantity. */
  function Sorted(m: Side, descending: bool): (s: seq<Level>)
    ensures Prices(s) == SortedPrices(m.Keys, descending)
    ensures forall k :: 0 <= k < |s| ==> s[k].0 in m && s[k].1 == m[s[k].0]
  {
    WithQuantities(SortedPrices(m.Keys, descending), m)
  }

  /** Each price of `ps` paired with its quantity on the side. */
  function WithQuantities(ps: seq<real>, m: Side): (s: seq<Level>)
    requires forall k :: 0 <= k < |ps| ==> ps[k] in m
    ensures Prices(s) == ps
    ensures forall k :: 0 <= k < |s| ==> s[k].0 in m && s[k].1 == m[s[k].0]
  {
    var s := seq(|ps|, k requires 0 <= k < |ps| => (ps[k], m[ps[k]]));
    assert Prices(s) == ps;
    s
  }

  /** The retained levels of one side: `sorted(...)[:top_levels]`. */
  function Retained(m: Side, descending: bool, topLevels: int): seq<Level>
  {
    PyTake(Sorted(m, descending), topLevels)
  }

  /** With a non-negative `top_levels` the number of levels retained is
      `min(top_levels, |side|)`: all of them once `top_levels` covers the
      side, none for `top_levels == 0`. */
  lemma RetainedCount(m: Side, descending: bool, topLevels: int)
    requires topLevels >= 0
    ensures |Retained(m, descending, topLevels)| == if topLevels < |m| then topLevels else |m|
  {
    assert |Prices(Sorted(m, descending))| == |Sorted(m, descending)|;
    assert |SortedPrices(m.Keys, descending)| == |m.Keys|;
  }

  /** Every retained bid is above every bid that was cut off, and every
      retained ask below every ask that was cut off. */
  lemma {:induction false} RetainedAreBest(m: Side, descending: bool, topLevels: int, k: nat, p: real)
    requires k < |Retained(m, descending, topLevels)|
    requires p in m && p !in Prices(Retained(m, descending, topLevels))
    ensures if descending then p < Retained(m, descending, topLevels)[k].0
            else p > Retained(m, descending, topLevels)[k].0
  {
    var ps := SortedPrices(m.Keys, descending);
    var s := Sorted(m, descending);
    var c := PyCut(s, topLevels);
    var r := Retained(m, descending, topLevels);
    assert r == s[..c];
    assert p in ps;
    var j :| 0 <= j < |ps| && ps[j] == p;
    assert forall i :: 0 <= i < c ==> ps[i] == Prices(r)[i];
    assert j >= c;
    assert ps[k] == r[k].0;
    assert Ordered(ps, descending);
  }

  /** `sum(v for _, v in levels)`. */
  function SumVol(levels: seq<Level>): real
  {
    if |levels| == 0 then 0.0 else SumVol(levels[..|levels| - 1]) + levels[|levels| - 1].1
  }

  /** Summing a list of levels in two parts gives the sum of the whole. */
  lemma {:induction false} SumVolAppend(a: seq<Level>, b: seq<Level>)
    ensures SumVol(a + b) == SumVol(a) + SumVol(b)
    decreases |b|
  {
    if |b| > 0 {
      assert (a + b)[..|a + b| - 1] == a + b[..|b| - 1];
      SumVolAppend(a, b[..|b| - 1]);
    } else {
      assert a + b == a;
    }
  }

  /** The aggregated volume over the first `d` levels is at most the
      volume of all retained levels when quantities are non-negative,
      and equals it once `d` reaches the number of levels. */
  lemma SumVolTop(levels: seq<Level>, d: int)
    requires forall k :: 0 <= k < |levels| ==> levels[k].1 >= 0.0
    ensures SumVol(PyTake(levels, d)) <= SumVol(levels)
    ensures d >= |levels| ==> SumVol(PyTake(levels, d)) == SumVol(levels)
  {
    var c := PyCut(levels, d);
    assert levels == levels[..c] + levels[c..];
    SumVolAppend(levels[..c], levels[c..]);
    SumVolNonNegative(levels[c..]);
  }

  lemma {:induction false} SumVolNonNegative(levels: seq<Level>)
    requires forall k :: 0 <= k < |levels| ==> levels[k].1 >= 0.0
    ensures SumVol(levels) >= 0.0
  {
    if |levels| > 0 {
      SumVolNonNegative(levels[..|levels| - 1]);
    }
  }

  /** The first level's price, or 0.0 for an empty side. */
  function Best(levels: seq<Level>): real
  {
    if |levels| > 0 then levels[0].0 else 0.0
  }

  /** The mid price, or 0.0 unless both best prices are non-zero. */
  function MidOf(bestBid: real, bestAsk: real): (mid: real)
    ensures bestBid != 0.0 && bestAsk != 0.0 ==> bestBid - mid == mid - bestAsk
    ensures bestBid == 0.0 || bestAsk == 0.0 ==> mid == 0.0
  {
    if bestBid != 0.0 && bestAsk != 0.0 then (bestBid + bestAsk) / 2.0 else 0.0
  }

  /** Which columns a row holds: one price and one volume column per
      retained level, numbered from 1, and one aggregated column per
      configured depth on each side. */
  ghost predicate IsColumn(key: RowKey, bids: seq<Level>, asks: seq<Level>, aggDepths: seq<int>)
  {
    LevelColumn(key, Bid, |bids|) || LevelColumn(key, Ask, |asks|) || (key.VolTop? && key.depth in aggDepths)
  }

  /** The value of column `key` given the retained levels. */
  function ColumnValue(key: RowKey, bids: seq<Level>, asks: seq<Level>): real
  {
    var levels := if key.side == Bid then bids else asks;
    match key
    case Price(_, n) => if 1 <= n <= |levels| then levels[n - 1].0 else 0.0
    case Vol(_, n) => if 1 <= n <= |levels| then levels[n - 1].1 else 0.0
    case VolTop(_, d) => SumVol(PyTake(levels, d))
  }

  /** What `_format_row` promises about the row for book `ob` received
      at local time `ts`: the event time and the local time copied, best
      bid and ask from the retained levels, the mid, and exactly the level
      and aggregated columns, each with its value. */
  ghost predicate IsRowOf(row: Row, cfg: DatasetConfig, ob: BookState, ts: real)
  {
    var bids := Retained(ob.bids, true, cfg.topLevels);
    var asks := Retained(ob.asks, false, cfg.topLevels);
    && row.exchangeTime == ob.eventTime && row.localTime == ts
    && row.bestBid == Best(bids) && row.bestAsk == Best(asks)
    && row.mid == MidOf(row.bestBid, row.bestAsk)
    && (forall key :: key in row.fields <==> IsColumn(key, bids, asks, cfg.aggDepths))
    && (forall key :: key in row.fields ==> row.fields[key] == ColumnValue(key, bids, asks))
  }

  /** Whether `key` is a level column of `side` numbered within
      `1..count`. */
  ghost predicate LevelColumn(key: RowKey, side: BookSide, count: int)
  {
    !key.VolTop? && key.side == side && 1 <= key.n <= count
  }

  /** The first two loops of `_format_row`: `{side}_{n}_price` and
      `{side}_{n}_vol` for every retained level of one side, numbered
      from 1, added to the columns already there. */
  method PutLevels(fields: map<RowKey, real>, side: BookSide, levels: seq<Level>, bids: seq<Level>, asks: seq<Level>)
    returns (out: map<RowKey, real>)
    requires levels == if side == Bid then bids else asks
    requires forall key :: key in fields ==> !LevelColumn(key, side, |levels|)
    requires forall key :: key in fields ==> fields[key] == ColumnValue(key, bids, asks)
    ensures forall key :: key in out <==> key in fields || LevelColumn(key, side, |levels|)
    ensures forall key :: key in out ==> out[key] == ColumnValue(key, bids, asks)
  {
    out := fields;
    for i := 0 to |levels|
      invariant forall key :: key in out <==> key in fields || LevelColumn(key, side, i)
      invariant forall key :: key in out ==> out[key] == ColumnValue(key, bids, asks)
    {
      out := out[Price(side, i + 1) := levels[i].0];
      out := out[Vol(side, i + 1) := levels[i].1];
    }
  }

  /** The last loop of `_format_row`: `bid_vol_top_{d}` and
      `ask_vol_top_{d}` for every configured depth. */
  method PutVolTops(fields: map<RowKey, real>, aggDepths: seq<int>, bids: seq<Level>, asks: seq<Level>)
    returns (out: map<RowKey, real>)
    requires forall key :: key in fields ==> fields[key] == ColumnValue(key, bids, asks)
    ensures forall key :: key in out <==> key in fields || (key.VolTop? && key.depth in aggDepths)
    ensures forall key :: key in out ==> out[key] == ColumnValue(key, bids, asks)
  {
    out := fields;
    for i := 0 to |aggDepths|
      invariant forall key :: key in out <==> key in fields || (key.VolTop? && key.depth in aggDepths[..i])
      invariant forall key :: key in out ==> out[key] == ColumnValue(key, bids, asks)
    {
      var d := aggDepths[i];
      assert aggDepths[..i + 1] == aggDepths[..i] + [d];
      ghost var prev := out;
      out := out[VolTop(Bid, d) := SumVol(PyTake(bids, d))];
      out := out[VolTop(Ask, d) := SumVol(PyTake(asks, d))];
      forall key
        ensures key in out <==> key in fields || (key.VolTop? && key.depth in aggDepths[..i + 1])
      {
        assert key in out <==> key in prev || key == VolTop(Bid, d) || key == VolTop(Ask, d);
        if key.VolTop? {
          assert key.depth in aggDepths[..i + 1] <==> key.depth in aggDepths[..i] || key.depth == d;
          assert key == VolTop(key.side, key.depth);
          assert key.side == Bid || key.side == Ask;
        }
      }
    }
    assert aggDepths[..|aggDepths|] == aggDepths;
  }

  /** `_format_row`: the row for one book state received at local time
      `ts`. */
  method FormatRow(cfg: DatasetConfig, ob: BookState, ts: real) returns (row: Row)
    ensures IsRowOf(row, cfg, ob, ts)
  {
    var bids := Retained(ob.bids, true, cfg.topLevels);
    var asks := Retained(ob.asks, false, cfg.topLevels);
    var bestBid := Best(bids);
    var bestAsk := Best(asks);
    var fields := PutLevels(map[], Bid, bids, bids, asks);
    fields := PutLevels(fields, Ask, asks, bids, asks);
    fields := PutVolTops(fields, cfg.aggDepths, bids, asks);
    row := Row(ob.eventTime, ts, bestBid, bestAsk, MidOf(bestBid, bestAsk), fields);
  }

  /** The concatenation of the written batches. */
  function Flatten(batches: seq<seq<Row>>): (rows: seq<Row>)
  {
    if |batches| == 0 then [] else Flatten(batches[..|batches| - 1]) + batches[|batches| - 1]
  }

  const BatchSize := 50

  /** The rows buffered in `run` and the batches written out so far. */
  class Collector {
    var buffer: seq<Row>
    var written: seq<seq<Row>>

    /** `written` holds the batches handed to `_write_csv`, one per flush.
        Every row received is either written or buffered, in arrival
        order; every write is a full batch; the buffer is never full
        between rows. */
    ghost predicate Valid(received: seq<Row>)
      reads this
    {
      && Flatten(written) + buffer == received
      && (forall k :: 0 <= k < |written| ==> |written[k]| == BatchSize)
      && |buffer| < BatchSize
    }

    constructor ()
      ensures buffer == [] && written == []
      ensures Valid([])
    {
      buffer := [];
      written := [];
    }

    /** One iteration of the loop in `run`: append the row and, once the
        buffer holds 50 rows, write them and clear it. */
    method OnRow(row: Row, ghost received: seq<Row>)
      requires Valid(received)
      modifies this
      ensures Valid(received + [row])
      ensures |old(buffer)| + 1 >= BatchSize ==>
                written == old(written) + [old(buffer) + [row]] && buffer == []
      ensures |old(buffer)| + 1 < BatchSize ==>
                written == old(written) && buffer == old(buffer) + [row]
    {
      buffer := buffer + [row];
      if |buffer| >= BatchSize {
        written := written + [buffer];
        buffer := [];
        assert written[..|written| - 1] == old(written);
      }
    }
  }

  /** `run` with the I/O taken out: each book from the stream is
      formatted with the local time `now(k)` and handed to the buffer;
      `rows` are the rows made, one per book. */
  method Run(cfg: DatasetConfig, books: seq<BookState>, now: nat -> real)
    returns (c: Collector, ghost rows: seq<Row>)
    ensures fresh(c)
    ensures |rows| == |books|
    ensures forall k :: 0 <= k < |books| ==> IsRowOf(rows[k], cfg, books[k], now(k))
    ensures c.Valid(rows)
  {
    c := new Collector();
    rows := [];
    for k := 0 to |books|
      invariant |rows| == k
      invariant forall j :: 0 <= j < k ==> IsRowOf(rows[j], cfg, books[j], now(j))
      invariant c.Valid(rows)
    {
      var row := FormatRow(cfg, books[k], now(k));
      c.OnRow(row, rows);
      ghost var prev := rows;
      rows := rows + [row];
      forall j | 0 <= j < k + 1
        ensures IsRowOf(rows[j], cfg, books[j], now(j))
      {
        if j < k {
          assert rows[j] == prev[j];
        }
      }
    }
  }
}
