/** Shared vocabulary of the backtesting engine: trade sides, 5-minute candles,
    candidate positions, the calendar arithmetic on naive timestamps and the
    queries the commands run against the candle table. */
module Market {

  datatype Option<T> = None | Some(value: T)

  datatype Side = Long | Short

  /** The side swap `"SHORT" if side == "LONG" else "LONG"`. */
  function Flip(s: Side): (r: Side)
    ensures r != s
  {
    if s == Long then Short else Long
  }

  /* Timestamps are naive local date-times counted in seconds. */
  const FIVE_MINUTES: int := 300
  const HOUR: int := 3600
  const DAY: int := 86400

  /** The calendar date of a timestamp, as a day number (day 0 is 1970-01-01). */
  function DayOf(t: int): int
  {
    t / DAY
  }

  /** `datetime.hour`. */
  function HourOf(t: int): (h: int)
    ensures 0 <= h < 24
  {
    (t % DAY) / HOUR
  }

  /** Python's `datetime.weekday()`: Monday is 0, Sunday is 6; 1970-01-01 was a Thursday. */
  function WeekdayOf(t: int): (w: int)
    ensures 0 <= w < 7
  {
    (DayOf(t) + 3) % 7
  }

  /** The price a position is entered at: the reference price nudged by 0.01%
      in the trader's favour - up for a SHORT, down for a LONG. */
  function EntryPrice(side: Side, price: real): (r: real)
    ensures r == 0.0 <==> price == 0.0
    ensures price > 0.0 ==> 0.0 < r && (side == Short ==> r > price) && (side == Long ==> r < price)
  {
    if side == Short then price * 1.0001 else price * 0.9999
  }

  /** One row of the OHLCV table. */
  datatype Candle = Candle(time: int, open: real, high: real, low: real, close: real, volume: real)

  /** Candles as the queries return them: ordered by strictly increasing time. */
  ghost predicate Chronological(cs: seq<Candle>)
  {
    forall i, j :: 0 <= i < j < |cs| ==> cs[i].time < cs[j].time
  }

  /** A row of the Position table, with the fields the engine and the commands use
      (the `symbol` column, which none of them reads, is omitted). */
  datatype Position = Position(
    side: Side,
    start: int,
    liquidationTime: int,
    strategyType: string,
    liquidationAmount: real,
    nrOfLiquidations: int,
    confirmationCandles: int,
    candlesBeforeEntry: int,
    amount: real,
    entryPrice: Option<real>,
    movingAverage50: Option<real>,
    liquidationClosingPrice: Option<real>,
    timeframe: string)

  /** The only candle interval the commands create positions on. */
  const FIVE_MINUTE_TIMEFRAME: string := "5m"

  /** The optional liquidation-amount bounds of a form: a bound that is
      missing or 0 is falsy in Python and filters nothing. */
  predicate LiquidationWithin(minLiquidation: Option<real>, maxLiquidation: Option<real>, p: Position)
  {
    && (minLiquidation.None? || minLiquidation.value == 0.0 || p.liquidationAmount >= minLiquidation.value)
    && (maxLiquidation.None? || maxLiquidation.value == 0.0 || p.liquidationAmount <= maxLiquidation.value)
  }

  /** An optional position as a list of at most one. */
  function Listed(o: Option<Position>): (r: seq<Position>)
    ensures |r| <= 1 && (o.Some? ==> r == [o.value]) && (o.None? ==> r == [])
  {
    match o case Some(p) => [p] case None => []
  }

  /** The positions of `ps` that `keep` admits, in their order: a query's
      `filter` over the Position table. */
  function Where(ps: seq<Position>, keep: Position -> bool): (r: seq<Position>)
    ensures |r| <= |ps|
    ensures forall p :: p in r <==> p in ps && keep(p)
  {
    if ps == [] then []
    else (if keep(ps[0]) then [ps[0]] else []) + Where(ps[1..], keep)
  }

  /** Positions ordered by `key`, as an `order_by` leaves them. */
  predicate OrderedBy(ps: seq<Position>, key: Position -> int)
  {
    forall i, j :: 0 <= i < j < |ps| ==> key(ps[i]) <= key(ps[j])
  }

  /** Filtering a table already in `key` order keeps it in that order. */
  lemma {:induction false} WhereKeepsOrder(ps: seq<Position>, keep: Position -> bool, key: Position -> int)
    requires OrderedBy(ps, key)
    ensures OrderedBy(Where(ps, keep), key)
  {
    if ps != [] {
      assert OrderedBy(ps[1..], key);
      WhereKeepsOrder(ps[1..], keep, key);
      var rest := Where(ps[1..], keep);
      forall q | q in rest ensures key(ps[0]) <= key(q) {
        var k :| 0 <= k < |ps[1..]| && ps[1..][k] == q;
        assert ps[k + 1] == q;
      }
    }
  }

  /** The liquidations of one timestamp, summed: `values("datetime")`
      annotated with the total amount, the count and the side. */
  datatype LiquidationGroup = LiquidationGroup(time: int, totalAmount: real, count: int, side: Side)

  /** A simulated position as the what-if tables list it. */
  datatype Trade = Trade(position: Position, entry: real, size: real, closing: real, pnl: real)

  /** The candles of `store` with `lo <= time < hi`, in store order. */
  function Between(store: seq<Candle>, lo: int, hi: int): (r: seq<Candle>)
    ensures |r| <= |store|
    ensures forall c :: c in r <==> c in store && lo <= c.time < hi
  {
    if store == [] then []
    else (if lo <= store[0].time < hi then [store[0]] else []) + Between(store[1..], lo, hi)
  }

  /** The candles of `store` with `lo <= time`, in store order. */
  function From(store: seq<Candle>, lo: int): (r: seq<Candle>)
    ensures |r| <= |store|
    ensures forall c :: c in r <==> c in store && lo <= c.time
  {
    if store == [] then []
    else (if lo <= store[0].time then [store[0]] else []) + From(store[1..], lo)
  }

  /** The candles of `store` with `time < hi`, in store order. */
  function Before(store: seq<Candle>, hi: int): (r: seq<Candle>)
    ensures |r| <= |store|
    ensures forall c :: c in r <==> c in store && c.time < hi
  {
    if store == [] then []
    else (if store[0].time < hi then [store[0]] else []) + Before(store[1..], hi)
  }

  /** Filtering keeps a chronological store chronological. */
  lemma {:induction false} BetweenChronological(store: seq<Candle>, lo: int, hi: int)
    requires Chronological(store)
    ensures Chronological(Between(store, lo, hi))
  {
    if store != [] {
      assert Chronological(store[1..]);
      BetweenChronological(store[1..], lo, hi);
      var rest := Between(store[1..], lo, hi);
      forall c | c in rest ensures store[0].time < c.time {
        var k :| 0 <= k < |store[1..]| && store[1..][k] == c;
        assert store[k + 1] == c;
      }
    }
  }
}
