/** The backtest strategy loop: one pass over a price series with the
    model's probabilities, opening a unit long or short position when
    flat, exiting on the holding period, stop-loss or take-profit, and
    recording the equity curve (cash after every tick) and the trades. */
module Backtest {
  import opened Wrappers

  /** The thresholds the strategy reads. */
  datatype BacktestConfig = BacktestConfig(
    pBuy: real, pSell: real, holdTicks: int, stopLoss: real, takeProfit: real,
    slippage: real, feeRate: real)

  datatype TradeSide = Long | Short

  /** A trade record; `exit` and `pnl` are filled in when it is closed. */
  datatype Trade = Trade(i: nat, side: TradeSide, entry: real, exit: Option<real>, pnl: Option<real>)

  /** The loop's variables after some ticks. */
  datatype Sim = Sim(cash: real, position: int, entryPrice: real, equity: seq<real>, trades: seq<Trade>)

  const Start := Sim(0.0, 0, 0.0, [], [])

  /** The inputs the model handles: a probability for every price,
      positive prices, and a slippage that keeps entry prices positive. */
  ghost predicate Inputs(cfg: BacktestConfig, prob: seq<real>, price: seq<real>)
  {
    |prob| >= |price| && -1.0 < cfg.slippage < 1.0 &&
    forall k :: 0 <= k < |price| ==> price[k] > 0.0
  }

  /** What the loop keeps true after `n` ticks. */
  ghost predicate Valid(s: Sim, n: nat)
  {
    && (s.position == -1 || s.position == 0 || s.position == 1)
    && |s.equity| == n
    && (n > 0 ==> s.equity[n - 1] == s.cash)
    && (forall a, b :: 0 <= a < b < |s.trades| ==> s.trades[a].i < s.trades[b].i)
    && (forall k :: 0 <= k < |s.trades| ==> s.trades[k].i < n)
    && (forall k :: 0 <= k < |s.trades| ==> (s.trades[k].exit.Some? <==> s.trades[k].pnl.Some?))
    && (forall k :: 0 <= k < |s.trades| - 1 ==> s.trades[k].exit.Some?)
    && (s.position != 0 <==> |s.trades| > 0 && s.trades[|s.trades| - 1].exit.None?)
    && (s.position != 0 ==>
          s.entryPrice == s.trades[|s.trades| - 1].entry && s.entryPrice > 0.0 &&
          (s.position == 1 <==> s.trades[|s.trades| - 1].side == Long))
  }

  /** The unrealised return of the open position at price `p`. */
  function Pnl(s: Sim, p: real): real
    requires s.entryPrice != 0.0
  {
    Return(s.entryPrice, p, s.position)
  }

  /** The return from `entry` to `p`, times the signed position size. */
  function Return(entry: real, p: real, position: int): real
    requires entry != 0.0
  {
    (p - entry) / entry * (position as real)
  }

  /** Whether an open position is exited at tick `i`. */
  predicate ExitNow(cfg: BacktestConfig, s: Sim, i: nat, p: real)
    requires s.entryPrice != 0.0 && |s.trades| > 0
  {
    Abs(i - s.trades[|s.trades| - 1].i) >= cfg.holdTicks ||
    Pnl(s, p) <= cfg.stopLoss || Pnl(s, p) >= cfg.takeProfit
  }

  /** Tick `i` at price `p` with probability `pr`: open when flat, maybe
      exit when open, then append the cash to the equity curve. */
  function Tick(cfg: BacktestConfig, s: Sim, i: nat, p: real, pr: real): Sim
    requires s.position != 0 ==> |s.trades| > 0 && s.entryPrice != 0.0
  {
    var t :=
      if s.position == 0 then
        if pr > cfg.pBuy then
          var e := p * (1.0 + cfg.slippage);
          s.(position := 1, entryPrice := e, cash := s.cash - cfg.feeRate,
             trades := s.trades + [Trade(i, Long, e, None, None)])
        else if pr < 1.0 - cfg.pSell then
          var e := p * (1.0 - cfg.slippage);
          s.(position := -1, entryPrice := e, cash := s.cash - cfg.feeRate,
             trades := s.trades + [Trade(i, Short, e, None, None)])
        else s
      else if ExitNow(cfg, s, i, p) then
        var pnl := Pnl(s, p);
        var last := s.trades[|s.trades| - 1];
        s.(cash := s.cash + pnl - cfg.feeRate, position := 0,
           trades := s.trades[..|s.trades| - 1] + [last.(exit := Some(p), pnl := Some(pnl))])
      else s;
    t.(equity := s.equity + [t.cash])
  }

  lemma EntryPositive(p: real, slippage: real)
    requires p > 0.0 && -1.0 < slippage < 1.0
    ensures p * (1.0 + slippage) > 0.0 && p * (1.0 - slippage) > 0.0
  {
  }

  /** What `Tick` needs: an open position has a trade and a positive
      entry price. */
  ghost predicate Open(s: Sim)
  {
    s.position != 0 ==> |s.trades| > 0 && s.entryPrice > 0.0
  }

  lemma OpenKeepsValid(cfg: BacktestConfig, s: Sim, n: nat, p: real, pr: real)
    requires Valid(s, n) && p > 0.0 && -1.0 < cfg.slippage < 1.0 && s.position == 0
    ensures Valid(Tick(cfg, s, n, p, pr), n + 1)
  {
    if pr > cfg.pBuy {
      OpenLongKeepsValid(cfg, s, n, p, pr);
    } else if pr < 1.0 - cfg.pSell {
      OpenShortKeepsValid(cfg, s, n, p, pr);
    } else {
      TickWhenFlat(cfg, s, n, p, pr);
      assert (s.equity + [s.cash])[n] == s.cash;
    }
  }

  /** Opening a long position from flat keeps the invariant. */
  lemma OpenLongKeepsValid(cfg: BacktestConfig, s: Sim, n: nat, p: real, pr: real)
    requires Valid(s, n) && p > 0.0 && -1.0 < cfg.slippage < 1.0 && s.position == 0 && pr > cfg.pBuy
    ensures Valid(Tick(cfg, s, n, p, pr), n + 1)
  {
    TickWhenFlat(cfg, s, n, p, pr);
    OpeningKeepsValid(s, n, 1, Long, p, 1.0 + cfg.slippage, s.cash - cfg.feeRate);
  }

  /** Opening a short position from flat keeps the invariant. */
  lemma OpenShortKeepsValid(cfg: BacktestConfig, s: Sim, n: nat, p: real, pr: real)
    requires Valid(s, n) && p > 0.0 && -1.0 < cfg.slippage < 1.0 && s.position == 0
    requires pr <= cfg.pBuy && pr < 1.0 - cfg.pSell
    ensures Valid(Tick(cfg, s, n, p, pr), n + 1)
  {
    TickWhenFlat(cfg, s, n, p, pr);
    OpeningKeepsValid(s, n, -1, Short, p, 1.0 - cfg.slippage, s.cash - cfg.feeRate);
  }

  /** The three cases of a tick taken while flat: open long, open short,
      or stay flat, and in each case append the cash to the curve. */
  lemma TickWhenFlat(cfg: BacktestConfig, s: Sim, n: nat, p: real, pr: real)
    requires s.position == 0
    ensures var t := Tick(cfg, s, n, p, pr);
            var cash := s.cash - cfg.feeRate;
            if pr > cfg.pBuy || pr < 1.0 - cfg.pSell then
              var side := if pr > cfg.pBuy then Long else Short;
              var e := p * (if pr > cfg.pBuy then 1.0 + cfg.slippage else 1.0 - cfg.slippage);
              && t.cash == cash && t.equity == s.equity + [cash] && t.entryPrice == e
              && t.position == (if side == Long then 1 else -1)
              && t.trades == s.trades + [Trade(n, side, e, None, None)]
            else t == s.(equity := s.equity + [s.cash])
  {
  }

  /** Opening a position at tick `n` appends an open trade that starts
      after every earlier one. */
  lemma OpeningKeepsValid(s: Sim, n: nat, position: int, side: TradeSide, p: real, factor: real, cash: real)
    requires Valid(s, n) && s.position == 0 && p > 0.0 && factor > 0.0
    requires (position == 1 && side == Long) || (position == -1 && side == Short)
    ensures var e := p * factor;
            Valid(Sim(cash, position, e, s.equity + [cash], s.trades + [Trade(n, side, e, None, None)]), n + 1)
  {
    var e := p * factor;
    assert e > 0.0;
    var trades := s.trades + [Trade(n, side, e, None, None)];
    var equity := s.equity + [cash];
    var m := |s.trades|;
    assert forall k :: 0 <= k < m ==> trades[k] == s.trades[k];
    assert trades[m] == Trade(n, side, e, None, None);
    forall a, b | 0 <= a < b < |trades|
      ensures trades[a].i < trades[b].i
    {
      if b < m {
        assert trades[a] == s.trades[a] && trades[b] == s.trades[b];
      } else {
        assert trades[a] == s.trades[a];
      }
    }
    assert equity[n] == cash;
  }

  lemma ExitKeepsValid(cfg: BacktestConfig, s: Sim, n: nat, p: real, pr: real)
    requires Valid(s, n) && s.position != 0 && ExitNow(cfg, s, n, p)
    ensures Valid(Tick(cfg, s, n, p, pr), n + 1)
  {
    var t := Tick(cfg, s, n, p, pr);
    assert t.trades[..|t.trades| - 1] == s.trades[..|s.trades| - 1];
  }

  lemma {:induction false} TickKeepsValid(cfg: BacktestConfig, s: Sim, n: nat, p: real, pr: real)
    requires Valid(s, n) && p > 0.0 && -1.0 < cfg.slippage < 1.0
    ensures Valid(Tick(cfg, s, n, p, pr), n + 1)
  {
    if s.position == 0 {
      OpenKeepsValid(cfg, s, n, p, pr);
    } else if ExitNow(cfg, s, n, p) {
      ExitKeepsValid(cfg, s, n, p, pr);
    }
  }

  lemma TickKeepsOpen(cfg: BacktestConfig, s: Sim, i: nat, p: real, pr: real)
    requires Open(s) && p > 0.0 && -1.0 < cfg.slippage < 1.0
    ensures Open(Tick(cfg, s, i, p, pr))
    ensures |Tick(cfg, s, i, p, pr).equity| == |s.equity| + 1
  {
    EntryPositive(p, cfg.slippage);
    var t := Tick(cfg, s, i, p, pr);
    if s.position == 0 && pr > cfg.pBuy {
      assert t.entryPrice == p * (1.0 + cfg.slippage);
    } else if s.position == 0 && pr < 1.0 - cfg.pSell {
      assert t.entryPrice == p * (1.0 - cfg.slippage);
    }
  }

  /** The state after the first `n` ticks. */
  function Simulate(cfg: BacktestConfig, prob: seq<real>, price: seq<real>, n: nat): (s: Sim)
    requires Inputs(cfg, prob, price) && n <= |price|
    ensures Open(s) && |s.equity| == n
  {
    if n == 0 then Start
    else
      var prev := Simulate(cfg, prob, price, n - 1);
      TickKeepsOpen(cfg, prev, n - 1, price[n - 1], prob[n - 1]);
      Tick(cfg, prev, n - 1, price[n - 1], prob[n - 1])
  }

  /** After every tick: the position is -1, 0 or 1; trade entry indices
      strictly increase; every trade but the last is closed, and the last
      is open exactly when a position is held, at the recorded entry. */
  lemma {:induction false} SimulateValid(cfg: BacktestConfig, prob: seq<real>, price: seq<real>, n: nat)
    requires Inputs(cfg, prob, price) && n <= |price|
    ensures Valid(Simulate(cfg, prob, price, n), n)
  {
    if n > 0 {
      SimulateValid(cfg, prob, price, n - 1);
      TickKeepsValid(cfg, Simulate(cfg, prob, price, n - 1), n - 1, price[n - 1], prob[n - 1]);
    }
  }

  /** The equity curve has one entry per tick, the cash after that tick. */
  lemma {:induction false} EquityIsCashAfterEachTick(cfg: BacktestConfig, prob: seq<real>, price: seq<real>, n: nat, k: nat)
    requires Inputs(cfg, prob, price) && k < n <= |price|
    ensures |Simulate(cfg, prob, price, n).equity| == n
    ensures Simulate(cfg, prob, price, n).equity[k] == Simulate(cfg, prob, price, k + 1).cash
  {
    if n > k + 1 {
      EquityIsCashAfterEachTick(cfg, prob, price, n - 1, k);
    }
  }

  /** The rules of one tick. When flat: long above `p_buy` (entry with
      slippage added), else short below `1 - p_sell` (slippage taken
      off), paying the fee and recording a new trade; otherwise nothing.
      When open: exit exactly when the holding period is reached or the
      return hits a threshold, booking `pnl - fee` and closing the last
      trade; nothing is opened on that tick. Cash moves only on these
      opens and exits. */
  lemma TickRules(cfg: BacktestConfig, s: Sim, i: nat, p: real, pr: real)
    requires Open(s)
    ensures var t := Tick(cfg, s, i, p, pr);
      && t.equity == s.equity + [t.cash]
      && (s.position == 0 && pr > cfg.pBuy ==>
            t.position == 1 && t.entryPrice == p * (1.0 + cfg.slippage) &&
            t.cash == s.cash - cfg.feeRate && t.trades == s.trades + [Trade(i, Long, t.entryPrice, None, None)])
      && (s.position == 0 && pr <= cfg.pBuy && pr < 1.0 - cfg.pSell ==>
            t.position == -1 && t.entryPrice == p * (1.0 - cfg.slippage) &&
            t.cash == s.cash - cfg.feeRate && t.trades == s.trades + [Trade(i, Short, t.entryPrice, None, None)])
      && (s.position == 0 && pr <= cfg.pBuy && pr >= 1.0 - cfg.pSell ==>
            t.position == 0 && t.cash == s.cash && t.trades == s.trades)
      && (s.position != 0 ==> |t.trades| == |s.trades| && t.trades[..|s.trades| - 1] == s.trades[..|s.trades| - 1])
      && (s.position != 0 && ExitNow(cfg, s, i, p) ==>
            t.position == 0 && t.cash == s.cash + Pnl(s, p) - cfg.feeRate &&
            t.trades[|t.trades| - 1] == s.trades[|s.trades| - 1].(exit := Some(p), pnl := Some(Pnl(s, p))))
      && (s.position != 0 && !ExitNow(cfg, s, i, p) ==>
            t.position == s.position && t.cash == s.cash && t.trades == s.trades && t.entryPrice == s.entryPrice)
  {
  }

  lemma SimulateStep(cfg: BacktestConfig, prob: seq<real>, price: seq<real>, i: nat)
    requires Inputs(cfg, prob, price) && i < |price|
    ensures Simulate(cfg, prob, price, i + 1) ==
            Tick(cfg, Simulate(cfg, prob, price, i), i, price[i], prob[i])
  {
  }

  /** The body of the loop over the prices, on the loop's variables. */
  method TickVars(cfg: BacktestConfig, i: nat, p: real, pr: real,
                  cash: real, position: int, entryPrice: real, trades: seq<Trade>)
    returns (cash': real, position': int, entryPrice': real, trades': seq<Trade>)
    requires position != 0 ==> |trades| > 0 && entryPrice != 0.0
    ensures var t := Tick(cfg, Sim(cash, position, entryPrice, [], trades), i, p, pr);
      cash' == t.cash && position' == t.position && entryPrice' == t.entryPrice && trades' == t.trades
  {
    cash', position', entryPrice', trades' := cash, position, entryPrice, trades;
    if position == 0 {
      if pr > cfg.pBuy {
        position' := 1;
        entryPrice' := p * (1.0 + cfg.slippage);
        cash' := cash - cfg.feeRate;
        trades' := trades + [Trade(i, Long, entryPrice', None, None)];
      } else if pr < 1.0 - cfg.pSell {
        position' := -1;
        entryPrice' := p * (1.0 - cfg.slippage);
        cash' := cash - cfg.feeRate;
        trades' := trades + [Trade(i, Short, entryPrice', None, None)];
      }
    } else {
      var pnl := Return(entryPrice, p, position);
      if Abs(i - trades[|trades| - 1].i) >= cfg.holdTicks || pnl <= cfg.stopLoss || pnl >= cfg.takeProfit {
        cash' := cash + pnl - cfg.feeRate;
        trades' := trades[..|trades| - 1] + [trades[|trades| - 1].(exit := Some(p), pnl := Some(pnl))];
        position' := 0;
      }
    }
  }

  /** `_run_strategy`: the loop over the prices. */
  method RunStrategy(prob: seq<real>, price: seq<real>, cfg: BacktestConfig)
    returns (equity: seq<real>, trades: seq<Trade>)
    requires |prob| >= |price| && -1.0 < cfg.slippage < 1.0
    requires forall k :: 0 <= k < |price| ==> price[k] > 0.0
    ensures equity == Simulate(cfg, prob, price, |price|).equity
    ensures trades == Simulate(cfg, prob, price, |price|).trades
  {
    var cash := 0.0;
    var position := 0;
    var entryPrice := 0.0;
    equity, trades := [], [];
    for i := 0 to |price|
      invariant Sim(cash, position, entryPrice, equity, trades) == Simulate(cfg, prob, price, i)
    {
      SimulateStep(cfg, prob, price, i);
      cash, position, entryPrice, trades := TickVars(cfg, i, price[i], prob[i], cash, position, entryPrice, trades);
      equity := equity + [cash];
    }
  }
}
