/** The live execution loop: for each book the depth stream yields, the
    engine derives mid and spread, asks the signal model for a
    probability, and runs its position state machine (daily-loss breaker,
    open when flat, close on loss or profit thresholds). The trading venue
    is an order log; order results are never inspected. */
module LiveTrading {
  import opened Wrappers
  import BinanceClient

  type BookState = BinanceClient.BookState

  /** The thresholds the live loop reads. */
  datatype LiveConfig = LiveConfig(
    maxPosition: real, maxSingleLoss: real, maxDailyLoss: real,
    pBuy: real, pSell: real, takeProfit: real)

  datatype OrderSide = Buy | Sell

  /** A MARKET order for the configured symbol. */
  datatype Order = Order(side: OrderSide, size: real)

  /** The engine's mutable variables. */
  datatype TradeState = TradeState(position: real, entryPrice: real, dailyPnl: real)

  /** The feature vector handed to the signal model:
      spread, spread relative to mid, and the event time `E` (in
      milliseconds) modulo 86400, as the loop computes it. */
  datatype Features = Features(spread: real, relSpread: real, eventTimeMod86400: int)

  /** Why the loop stopped: `max`/`min` of an empty side, a division by
      a zero mid or a zero entry price, or `None % 86400` when the event
      carried no time. */
  datatype Halt = EmptySide | ZeroMid | MissingEventTime | ZeroEntryPrice

  datatype StepResult = Halted(reason: Halt) | Done(state: TradeState, order: Option<Order>)

  const Flat := TradeState(0.0, 0.0, 0.0)

  /** `max(ob["bids"].keys())`: the highest bid price. */
  function BestBid(book: BookState): (b: real)
    requires book.bids != map[]
    ensures b in book.bids && forall q :: q in book.bids ==> q <= b
  {
    SetMax(book.bids.Keys)
  }

  /** `min(ob["asks"].keys())`: the lowest ask price. */
  function BestAsk(book: BookState): (a: real)
    requires book.asks != map[]
    ensures a in book.asks && forall q :: q in book.asks ==> a <= q
  {
    SetMin(book.asks.Keys)
  }

  /** The midpoint of the best bid and the best ask. */
  function Mid(book: BookState): (m: real)
    requires book.bids != map[] && book.asks != map[]
    ensures m - BestBid(book) == BestAsk(book) - m
  {
    (BestBid(book) + BestAsk(book)) / 2.0
  }

  /** The order that flattens a position: SELL a long, BUY otherwise, for
      the absolute size. */
  function CloseOrder(position: real): (o: Order)
    ensures o.size >= 0.0
    ensures o.side == Sell <==> position > 0.0
    ensures o.size == position || o.size == -position
  {
    Order(if position > 0.0 then Sell else Buy, AbsR(position))
  }

  /** The decision for one book, given the signal model `score`. */
  function Step(cfg: LiveConfig, score: Features -> real, st: TradeState, book: BookState): StepResult
  {
    if book.bids == map[] || book.asks == map[] then Halted(EmptySide)
    else
      var mid := Mid(book);
      var spread := BestAsk(book) - BestBid(book);
      if mid == 0.0 then Halted(ZeroMid)
      else if book.eventTime.None? then Halted(MissingEventTime)
      else
        var prob := score(Features(spread, spread / mid, book.eventTime.value % 86400));
        if st.dailyPnl <= cfg.maxDailyLoss then
          if st.position != 0.0 then Done(st.(position := 0.0), Some(CloseOrder(st.position)))
          else Done(st, None)
        else if st.position == 0.0 then
          if prob > cfg.pBuy then
            Done(st.(position := cfg.maxPosition, entryPrice := mid), Some(Order(Buy, cfg.maxPosition)))
          else if prob < 1.0 - cfg.pSell then
            Done(st.(position := -cfg.maxPosition, entryPrice := mid), Some(Order(Sell, cfg.maxPosition)))
          else Done(st, None)
        else if st.entryPrice == 0.0 then Halted(ZeroEntryPrice)
        else
          var pnl := (mid - st.entryPrice) / st.entryPrice * st.position;
          if pnl <= cfg.maxSingleLoss || pnl >= cfg.takeProfit then
            Done(TradeState(0.0, st.entryPrice, st.dailyPnl + pnl), Some(CloseOrder(st.position)))
          else Done(st, None)
  }

  /** The outcome of feeding books to the loop until it halts. */
  datatype RunResult = RunResult(state: TradeState, orders: seq<Order>, halted: Option<Halt>)

  function Run(cfg: LiveConfig, score: Features -> real, books: seq<BookState>): (r: RunResult)
    ensures |r.orders| <= |books|
  {
    if books == [] then RunResult(Flat, [], None)
    else
      var prev := Run(cfg, score, books[..|books| - 1]);
      if prev.halted.Some? then prev
      else
        match Step(cfg, score, prev.state, books[|books| - 1])
        case Halted(h) => prev.(halted := Some(h))
        case Done(st, o) =>
          RunResult(st, if o.Some? then prev.orders + [o.value] else prev.orders, None)
  }

  // ---------------------------------------------------------------------
  // Properties of one step

  /** The position only ever takes the values 0, +max and -max. */
  ghost predicate PositionInRange(cfg: LiveConfig, st: TradeState)
  {
    st.position == 0.0 || st.position == cfg.maxPosition || st.position == -cfg.maxPosition
  }

  lemma StepKeepsPositionInRange(cfg: LiveConfig, score: Features -> real, st: TradeState, book: BookState)
    requires PositionInRange(cfg, st)
    ensures Step(cfg, score, st, book).Done? ==> PositionInRange(cfg, Step(cfg, score, st, book).state)
  {
  }

  /** Daily-loss breaker: no opening order; an open position is closed
      with the flattening order and the daily P&L is left as it was. */
  lemma BreakerOnlyFlattens(cfg: LiveConfig, score: Features -> real, st: TradeState, book: BookState)
    requires st.dailyPnl <= cfg.maxDailyLoss
    requires Step(cfg, score, st, book).Done?
    ensures Step(cfg, score, st, book).state == st.(position := 0.0)
    ensures Step(cfg, score, st, book).order ==
              (if st.position != 0.0 then Some(CloseOrder(st.position)) else None)
  {
  }

  /** Flat, breaker clear and `prob > p_buy`: one BUY of `max_position`,
      long at mid. */
  lemma OpenLong(cfg: LiveConfig, score: Features -> real, st: TradeState, book: BookState)
    requires st.position == 0.0 && st.dailyPnl > cfg.maxDailyLoss
    requires book.bids != map[] && book.asks != map[] && Mid(book) != 0.0 && book.eventTime.Some?
    requires score(Features(BestAsk(book) - BestBid(book), (BestAsk(book) - BestBid(book)) / Mid(book),
                            book.eventTime.value % 86400)) > cfg.pBuy
    ensures Step(cfg, score, st, book) ==
              Done(TradeState(cfg.maxPosition, Mid(book), st.dailyPnl), Some(Order(Buy, cfg.maxPosition)))
  {
  }

  /** Flat, breaker clear, not buying and `prob < 1 - p_sell`: one SELL
      of `max_position`, short at mid; otherwise nothing happens. */
  lemma OpenShortOrStay(cfg: LiveConfig, score: Features -> real, st: TradeState, book: BookState)
    requires st.position == 0.0 && st.dailyPnl > cfg.maxDailyLoss
    requires book.bids != map[] && book.asks != map[] && Mid(book) != 0.0 && book.eventTime.Some?
    requires score(Features(BestAsk(book) - BestBid(book), (BestAsk(book) - BestBid(book)) / Mid(book),
                            book.eventTime.value % 86400)) <= cfg.pBuy
    ensures var prob := score(Features(BestAsk(book) - BestBid(book), (BestAsk(book) - BestBid(book)) / Mid(book),
                                       book.eventTime.value % 86400));
            Step(cfg, score, st, book) ==
              if prob < 1.0 - cfg.pSell then
                Done(TradeState(-cfg.maxPosition, Mid(book), st.dailyPnl), Some(Order(Sell, cfg.maxPosition)))
              else Done(st, None)
  {
  }

  /** An open position (breaker clear) is closed exactly when the P&L,
      scaled by the position size, reaches the single-trade loss or the
      take-profit threshold; the close adds that P&L to the daily total. */
  lemma CloseOnThresholds(cfg: LiveConfig, score: Features -> real, st: TradeState, book: BookState)
    requires st.position != 0.0 && st.entryPrice != 0.0 && st.dailyPnl > cfg.maxDailyLoss
    requires book.bids != map[] && book.asks != map[] && Mid(book) != 0.0 && book.eventTime.Some?
    ensures var pnl := (Mid(book) - st.entryPrice) / st.entryPrice * st.position;
            Step(cfg, score, st, book) ==
              if pnl <= cfg.maxSingleLoss || pnl >= cfg.takeProfit then
                Done(TradeState(0.0, st.entryPrice, st.dailyPnl + pnl), Some(CloseOrder(st.position)))
              else Done(st, None)
  {
  }

  /** A stop-loss example: long 1 unit from 100, mid 97, loss limit
      -0.02: the position is closed with a SELL and -0.03 is booked. */
  lemma StopLossExample(score: Features -> real)
    ensures var cfg := LiveConfig(1.0, -0.02, -1.0, 0.55, 0.55, 0.003);
            var book := BinanceClient.BookState(Some(5), map[96.5 := 1.0], map[97.5 := 1.0]);
            Step(cfg, score, TradeState(1.0, 100.0, 0.0), book) ==
              Done(TradeState(0.0, 100.0, -0.03), Some(Order(Sell, 1.0)))
  {
    var book := BinanceClient.BookState(Some(5), map[96.5 := 1.0], map[97.5 := 1.0]);
    assert book.bids.Keys == {96.5} && book.asks.Keys == {97.5};
  }

  // ---------------------------------------------------------------------
  // Properties of a whole run

  /** One more book appends at most one order to the log, and changes
      nothing once the loop has halted. */
  lemma RunSnoc(cfg: LiveConfig, score: Features -> real, books: seq<BookState>)
    requires |books| > 0
    ensures var prev := Run(cfg, score, books[..|books| - 1]);
            var r := Run(cfg, score, books);
            && prev.orders <= r.orders && |r.orders| <= |prev.orders| + 1
            && (prev.halted.Some? ==> r == prev)
  {
  }

  /** A longer feed only appends to the order log of a shorter one, and
      once halted the loop stays halted with its state frozen. */
  lemma {:induction false} RunExtends(cfg: LiveConfig, score: Features -> real, books: seq<BookState>, k: nat)
    requires k <= |books|
    ensures Run(cfg, score, books[..k]).orders <= Run(cfg, score, books).orders
    ensures Run(cfg, score, books[..k]).halted.Some? ==> Run(cfg, score, books) == Run(cfg, score, books[..k])
    decreases |books| - k
  {
    if k < |books| {
      RunExtends(cfg, score, books, k + 1);
      var longer := books[..k + 1];
      RunSnoc(cfg, score, longer);
      assert longer[..k] == books[..k];
    } else {
      assert books[..k] == books;
    }
  }

  /** The engine starts flat with zero daily P&L, and its position is
      always 0, +max or -max. */
  lemma {:induction false} RunKeepsPositionInRange(cfg: LiveConfig, score: Features -> real, books: seq<BookState>)
    ensures PositionInRange(cfg, Run(cfg, score, books).state)
  {
    if books != [] {
      var prev := Run(cfg, score, books[..|books| - 1]);
      RunKeepsPositionInRange(cfg, score, books[..|books| - 1]);
      if prev.halted.None? {
        StepKeepsPositionInRange(cfg, score, prev.state, books[|books| - 1]);
      }
    }
  }

  /** The breaker is absorbing: once the daily P&L is at or below the
      limit after `k` books, it never changes again, no further order is
      issued except one flattening order for the position then open, and
      every later step leaves the engine flat. */
  lemma {:induction false} BreakerIsAbsorbing(cfg: LiveConfig, score: Features -> real, books: seq<BookState>, k: nat)
    requires k <= |books|
    requires Run(cfg, score, books[..k]).state.dailyPnl <= cfg.maxDailyLoss
    ensures Run(cfg, score, books).state.dailyPnl == Run(cfg, score, books[..k]).state.dailyPnl
    ensures var before := Run(cfg, score, books[..k]);
            var after := Run(cfg, score, books);
            after.orders == before.orders ||
            (before.state.position != 0.0 && after.orders == before.orders + [CloseOrder(before.state.position)])
    ensures k < |books| && Run(cfg, score, books).halted.None? ==> Run(cfg, score, books).state.position == 0.0
  {
    if |books| > k {
      var front := books[..|books| - 1];
      assert front[..k] == books[..k];
      BreakerIsAbsorbing(cfg, score, front, k);
      var prev := Run(cfg, score, front);
      if prev.halted.None? && Step(cfg, score, prev.state, books[|books| - 1]).Done? {
        BreakerOnlyFlattens(cfg, score, prev.state, books[|books| - 1]);
      }
    } else {
      assert books[..k] == books;
    }
  }

  // ---------------------------------------------------------------------
  // The imperative engine

  /** The loop's variables and the order log standing in for the venue. */
  class Trader {
    const cfg: LiveConfig
    var position: real
    var entryPrice: real
    var dailyPnl: real
    var orders: seq<Order>

    function State(): TradeState
      reads this
    {
      TradeState(position, entryPrice, dailyPnl)
    }

    constructor (cfg: LiveConfig)
      ensures this.cfg == cfg
      ensures State() == Flat && orders == []
    {
      this.cfg := cfg;
      position, entryPrice, dailyPnl := 0.0, 0.0, 0.0;
      orders := [];
    }

    method PlaceOrder(side: OrderSide, size: real)
      modifies this
      ensures orders == old(orders) + [Order(side, size)]
      ensures State() == old(State())
    {
      orders := orders + [Order(side, size)];
    }

    /** The body of the loop for one book. */
    method OnBook(score: Features -> real, book: BookState) returns (halt: Option<Halt>)
      modifies this
      ensures match Step(cfg, score, old(State()), book)
              case Halted(h) => halt == Some(h) && State() == old(State()) && orders == old(orders)
              case Done(st, o) =>
                halt == None && State() == st &&
                orders == if o.Some? then old(orders) + [o.value] else old(orders)
    {
      if book.bids == map[] || book.asks == map[] {
        return Some(EmptySide);
      }
      var bestBid := SetMax(book.bids.Keys);
      var bestAsk := SetMin(book.asks.Keys);
      var mid := (bestBid + bestAsk) / 2.0;
      var spread := bestAsk - bestBid;
      if mid == 0.0 {
        return Some(ZeroMid);
      }
      if book.eventTime.None? {
        return Some(MissingEventTime);
      }
      var prob := score(Features(spread, spread / mid, book.eventTime.value % 86400));
      halt := None;

      if dailyPnl <= cfg.maxDailyLoss {
        if position != 0.0 {
          var c := CloseOrder(position);
          PlaceOrder(c.side, c.size);
          position := 0.0;
        }
        return;
      }

      if position == 0.0 {
        if prob > cfg.pBuy {
          PlaceOrder(Buy, cfg.maxPosition);
          position := cfg.maxPosition;
          entryPrice := mid;
        } else if prob < 1.0 - cfg.pSell {
          PlaceOrder(Sell, cfg.maxPosition);
          position := -cfg.maxPosition;
          entryPrice := mid;
        }
      } else {
        if entryPrice == 0.0 {
          return Some(ZeroEntryPrice);
        }
        var pnl := (mid - entryPrice) / entryPrice * position;
        if pnl <= cfg.maxSingleLoss || pnl >= cfg.takeProfit {
          var side := if position > 0.0 then Sell else Buy;
          PlaceOrder(side, AbsR(position));
          dailyPnl := dailyPnl + pnl;
          position := 0.0;
        }
      }
    }
  }

  /** The whole loop: a fresh engine consumes the books in order and stops
      at the first step that raises. */
  method RunLiveTrading(cfg: LiveConfig, score: Features -> real, books: seq<BookState>) returns (r: RunResult)
    ensures r == Run(cfg, score, books)
  {
    var trader := new Trader(cfg);
    var i := 0;
    r := RunResult(Flat, [], None);
    while i < |books|
      invariant 0 <= i <= |books|
      invariant r == Run(cfg, score, books[..i])
      invariant r.halted.None? ==> trader.State() == r.state && trader.orders == r.orders
      invariant trader.cfg == cfg
    {
      if r.halted.Some? {
        RunExtends(cfg, score, books, i);
        return;
      }
      var h := trader.OnBook(score, books[i]);
      assert books[..i + 1][..i] == books[..i];
      r := RunResult(trader.State(), trader.orders, h);
      i := i + 1;
    }
    assert books[..i] == books;
  }
}
