/**
 * Model of the decision logic of `TradingBot` (src/index.js): the entry gate
 * of `executeTrade`, the per-minute loop that ticks every open position, and
 * the midnight reset of the daily counter. Exchange calls and clock readings
 * are replaced by the values they resolved to.
 */
module TradingBot {
  import opened Options
  import PM = PositionManager
  import TA = TechnicalAnalysis
  import AI = AIAnalysis

  /** Minimum time between two entries: five minutes, in milliseconds. */
  const CooldownMillis: int := 5 * 60 * 1000
  /** Minimum 24h traded volume. */
  const MinVolume24h: real := 500000.0
  /** Largest tolerated absolute 24h price change, in percent. */
  const MaxPriceChangePercent: real := 5.0
  /** Minimum order value in quote currency. */
  const MinNotional: real := 10.0

  datatype BotConfig = BotConfig(investment: real, maxDailyTrades: int, positions: PM.Config)

  /** The bot's mutable state: the position manager and the two entry counters. */
  datatype Bot = Bot(manager: PM.Manager, dailyTrades: nat, lastTradeTime: Option<int>)

  /** The technical half of a market analysis, as `analyzeMarket` assembles it. */
  datatype Technical = Technical(rsi: real, macd: Option<TA.Macd>, volumePeak: bool, trendStrength: real)

  /** A market analysis; `ai` is `None` when the analyst call failed. */
  datatype MarketAnalysis = MarketAnalysis(technical: Technical, ai: Option<AI.Analysis>, currentPrice: real)

  /**
   * What the exchange and the clock answered during one `executeTrade`:
   * the time of the cooldown check, the free quote balance, the 24h ticker,
   * the id of the placed buy order (`None` when the order call failed) and
   * the time read after the order was filled.
   */
  datatype Observed = Observed(
    checkedAt: int,
    balance: real,
    volume24h: real,
    priceChangePercent: real,
    orderId: Option<PM.OrderId>,
    filledAt: int)

  /** Why `executeTrade` did not enter, in the order the checks run. */
  datatype Reason =
    | DailyLimit
    | Cooldown
    | InsufficientBalance
    | LowVolume
    | UnusualPriceMove
    | SignalUnavailable
    | NoSignal
    | OrderTooSmall
    | OrderFailed

  datatype Verdict = Entered(orderId: PM.OrderId, quantity: real) | NoAction(reason: Reason)

  datatype TradeStep = TradeStep(bot: Bot, verdict: Verdict)

  function Abs(x: real): real
  {
    if x < 0.0 then -x else x
  }

  /** A previous entry is recorded and less than five minutes have passed since. */
  predicate CoolingDown(bot: Bot, now: int)
  {
    bot.lastTradeTime.Some? && now - bot.lastTradeTime.value < CooldownMillis
  }

  /** The admission checks that run before the signal is looked at. */
  predicate Admitted(bot: Bot, cfg: BotConfig, obs: Observed)
  {
    && bot.dailyTrades < cfg.maxDailyTrades
    && !CoolingDown(bot, obs.checkedAt)
    && obs.balance >= cfg.investment
    && obs.volume24h >= MinVolume24h
    && Abs(obs.priceChangePercent) <= MaxPriceChangePercent
  }

  /** The fusion predicate: bullish, confident, trending and RSI strictly between 30 and 70. */
  predicate ShouldTrade(technical: Technical, ai: AI.Analysis)
  {
    && ai.sentiment == AI.Bullish
    && ai.confidence > 0.7
    && technical.trendStrength > 0.6
    && technical.rsi > 30.0 && technical.rsi < 70.0
  }

  /**
   * One run of `executeTrade`: the checks in source order, each failing one
   * ending the run with its reason; on success the position is opened and
   * the counters are advanced, and on every other path nothing changes.
   */
  function ExecuteTrade(bot: Bot, cfg: BotConfig, analysis: MarketAnalysis, obs: Observed): (r: TradeStep)
    requires analysis.currentPrice != 0.0
    ensures r.verdict.NoAction? ==> r.bot == bot
    ensures r.verdict.Entered? ==>
              && Some(r.verdict.orderId) == obs.orderId
              && r.verdict.quantity == cfg.investment / analysis.currentPrice
              && r.bot.dailyTrades == bot.dailyTrades + 1
              && r.bot.lastTradeTime == Some(obs.filledAt)
              && r.bot.manager == PM.OpenPosition(bot.manager, cfg.positions, r.verdict.orderId,
                                                 r.verdict.quantity, analysis.currentPrice)
    ensures r.verdict.Entered? <==>
              && Admitted(bot, cfg, obs)
              && analysis.ai.Some? && ShouldTrade(analysis.technical, analysis.ai.value)
              && cfg.investment >= MinNotional
              && obs.orderId.Some?
  {
    var price := analysis.currentPrice;
    if bot.dailyTrades >= cfg.maxDailyTrades then TradeStep(bot, NoAction(DailyLimit))
    else if CoolingDown(bot, obs.checkedAt) then TradeStep(bot, NoAction(Cooldown))
    else if obs.balance < cfg.investment then TradeStep(bot, NoAction(InsufficientBalance))
    else if obs.volume24h < MinVolume24h then TradeStep(bot, NoAction(LowVolume))
    else if Abs(obs.priceChangePercent) > MaxPriceChangePercent then TradeStep(bot, NoAction(UnusualPriceMove))
    else if analysis.ai.None? then TradeStep(bot, NoAction(SignalUnavailable))
    else if !ShouldTrade(analysis.technical, analysis.ai.value) then TradeStep(bot, NoAction(NoSignal))
    else
      var quantity := cfg.investment / price;
      NotionalIsInvestment(cfg.investment, price);
      if quantity * price < MinNotional then TradeStep(bot, NoAction(OrderTooSmall))
      else if obs.orderId.None? then TradeStep(bot, NoAction(OrderFailed))
      else
        var id := obs.orderId.value;
        var manager := PM.OpenPosition(bot.manager, cfg.positions, id, quantity, price);
        TradeStep(Bot(manager, bot.dailyTrades + 1, Some(obs.filledAt)), Entered(id, quantity))
  }

  /** Over exact reals the order value `investment / price * price` is the investment itself. */
  lemma NotionalIsInvestment(investment: real, price: real)
    requires price != 0.0
    ensures investment / price * price == investment
  {
  }

  /** The midnight job: the daily counter goes back to zero; the cooldown clock and positions are kept. */
  function ResetDaily(bot: Bot): (b: Bot)
    ensures b.dailyTrades == 0
    ensures b.lastTradeTime == bot.lastTradeTime && b.manager == bot.manager
  {
    bot.(dailyTrades := 0)
  }

  // ---------------------------------------------------------------- gate properties

  /** After the midnight reset a positive daily limit no longer refuses an entry. */
  lemma ResetReopensGate(bot: Bot, cfg: BotConfig, analysis: MarketAnalysis, obs: Observed)
    requires analysis.currentPrice != 0.0
    requires cfg.maxDailyTrades > 0
    ensures ExecuteTrade(ResetDaily(bot), cfg, analysis, obs).verdict != NoAction(DailyLimit)
  {
  }

  /** The daily counter never passes the limit by entering: an entry needs a counter below it. */
  lemma DailyLimitKept(bot: Bot, cfg: BotConfig, analysis: MarketAnalysis, obs: Observed)
    requires analysis.currentPrice != 0.0
    requires bot.dailyTrades <= cfg.maxDailyTrades
    ensures ExecuteTrade(bot, cfg, analysis, obs).bot.dailyTrades <= cfg.maxDailyTrades
  {
  }

  /** Two entries are at least five minutes apart: an entry needs the cooldown to have elapsed. */
  lemma CooldownKept(bot: Bot, cfg: BotConfig, analysis: MarketAnalysis, obs: Observed)
    requires analysis.currentPrice != 0.0
    requires ExecuteTrade(bot, cfg, analysis, obs).verdict.Entered?
    ensures bot.lastTradeTime.None? || obs.checkedAt - bot.lastTradeTime.value >= CooldownMillis
  {
  }

  /**
   * Each reason is reported exactly when every earlier check passed and its
   * own check failed.
   */
  lemma ReasonsInOrder(bot: Bot, cfg: BotConfig, analysis: MarketAnalysis, obs: Observed)
    requires analysis.currentPrice != 0.0
    ensures var v := ExecuteTrade(bot, cfg, analysis, obs).verdict;
            var limitOk := bot.dailyTrades < cfg.maxDailyTrades;
            var rested := limitOk && !CoolingDown(bot, obs.checkedAt);
            var funded := rested && obs.balance >= cfg.investment;
            var liquid := funded && obs.volume24h >= MinVolume24h;
            && (v == NoAction(DailyLimit) <==> !limitOk)
            && (v == NoAction(Cooldown) <==> limitOk && CoolingDown(bot, obs.checkedAt))
            && (v == NoAction(InsufficientBalance) <==> rested && obs.balance < cfg.investment)
            && (v == NoAction(LowVolume) <==> funded && obs.volume24h < MinVolume24h)
            && (v == NoAction(UnusualPriceMove) <==> liquid && Abs(obs.priceChangePercent) > MaxPriceChangePercent)
            && (v == NoAction(SignalUnavailable) <==> Admitted(bot, cfg, obs) && analysis.ai.None?)
            && (v == NoAction(NoSignal) <==>
                  Admitted(bot, cfg, obs) && analysis.ai.Some? && !ShouldTrade(analysis.technical, analysis.ai.value))
            && (v == NoAction(OrderTooSmall) <==>
                  Admitted(bot, cfg, obs) && analysis.ai.Some? && ShouldTrade(analysis.technical, analysis.ai.value)
                  && cfg.investment < MinNotional)
            && (v == NoAction(OrderFailed) <==>
                  Admitted(bot, cfg, obs) && analysis.ai.Some? && ShouldTrade(analysis.technical, analysis.ai.value)
                  && cfg.investment >= MinNotional && obs.orderId.None?)
  {
  }

  /**
   * An analyst text that states no `confidence: 0.<digits>` gets the default
   * confidence 0.5, which never passes the gate.
   */
  lemma DefaultConfidenceNeverEnters(bot: Bot, cfg: BotConfig, technical: Technical, text: string,
                                     price: real, obs: Observed)
    requires price != 0.0
    requires AI.NoConfidenceGiven(text)
    ensures ExecuteTrade(bot, cfg, MarketAnalysis(technical, Some(AI.ParseAnalysis(text)), price), obs).verdict.NoAction?
  {
  }

  /**
   * A bullish analysis with confidence 0.8, trend strength 0.7 and RSI 50
   * enters when every admission check passes; the same inputs with RSI 25
   * do not.
   */
  lemma GateScenario(bot: Bot, cfg: BotConfig, obs: Observed, raw: string)
    requires Admitted(bot, cfg, obs) && cfg.investment >= MinNotional && obs.orderId.Some?
    ensures var ai := Some(AI.Analysis(AI.Bullish, AI.Up, 0.8, raw));
            var inBand := MarketAnalysis(Technical(50.0, None, false, 0.7), ai, 100.0);
            var oversold := MarketAnalysis(Technical(25.0, None, false, 0.7), ai, 100.0);
            && ExecuteTrade(bot, cfg, inBand, obs).verdict.Entered?
            && ExecuteTrade(bot, cfg, oversold, obs).verdict == NoAction(NoSignal)
  {
  }

  // ---------------------------------------------------------------- position management tick

  /** A sell order for the whole quantity of a closed position. */
  datatype Sell = Sell(position: PM.OrderId, quantity: real)

  /** `x` comes strictly before `y` in the iteration order `ids`. */
  predicate Before(ids: seq<PM.OrderId>, x: PM.OrderId, y: PM.OrderId)
  {
    exists i, j :: 0 <= i < j < |ids| && x == ids[i] && y == ids[j]
  }

  /** The order of the prefix `pre` is kept in `ids`, and every id of `pre` precedes the last one. */
  lemma BeforeInPrefix(ids: seq<PM.OrderId>, pre: seq<PM.OrderId>)
    requires |ids| > 0 && pre == ids[..|ids| - 1]
    ensures forall x, y :: Before(pre, x, y) ==> Before(ids, x, y)
    ensures forall x :: x in pre ==> Before(ids, x, ids[|ids| - 1])
  {
    forall x, y | Before(pre, x, y)
      ensures Before(ids, x, y)
    {
      var i, j :| 0 <= i < j < |pre| && x == pre[i] && y == pre[j];
      assert x == ids[i] && y == ids[j];
    }
    forall x | x in pre
      ensures Before(ids, x, ids[|ids| - 1])
    {
      var i :| 0 <= i < |pre| && pre[i] == x;
      assert x == ids[i];
    }
  }

  /** The ids, in iteration order, whose position a tick at `price` closes. */
  function Closing(m: PM.Manager, cfg: PM.Config, ids: seq<PM.OrderId>, price: real): (c: seq<PM.OrderId>)
    ensures forall k :: 0 <= k < |c| ==> c[k] in ids && PM.StopHit(m, cfg, c[k], price)
    ensures forall id :: id in ids && PM.StopHit(m, cfg, id, price) ==> id in c
    ensures forall a, b :: 0 <= a < b < |c| ==> Before(ids, c[a], c[b])
  {
    if |ids| == 0 then []
    else
      var last := ids[|ids| - 1];
      var earlier := Closing(m, cfg, ids[..|ids| - 1], price);
      BeforeInPrefix(ids, ids[..|ids| - 1]);
      earlier + (if PM.StopHit(m, cfg, last, price) then [last] else [])
  }

  /** Ticking one more id extends the closing list by that id exactly when its stop is hit. */
  lemma ClosingExtends(m: PM.Manager, cfg: PM.Config, ids: seq<PM.OrderId>, i: nat, price: real)
    requires i < |ids|
    ensures Closing(m, cfg, ids[..i + 1], price) ==
              Closing(m, cfg, ids[..i], price) + (if PM.StopHit(m, cfg, ids[i], price) then [ids[i]] else [])
    ensures ids[..i + 1] == ids[..i] + [ids[i]]
  {
    assert ids[..i + 1][..i] == ids[..i];
  }

  /** Order `id` has been ticked: closed with its counters gone if the stop was hit, else ratcheted in place. */
  predicate Ticked(m0: PM.Manager, m: PM.Manager, cfg: PM.Config, id: PM.OrderId, price: real)
  {
    if PM.StopHit(m0, cfg, id, price) then
      id !in m.positions && id !in m.scaleInAttempts && id !in m.profitLocks
    else
      && (id in m.positions <==> id in m0.positions)
      && (id in m0.positions ==> m.positions[id] == PM.Ratchet(m0.positions[id], cfg, price))
      && PM.Attempts(m, id) == PM.Attempts(m0, id)
      && (id in m.profitLocks <==> id in m0.profitLocks)
  }

  /** Order `id` has not been touched yet. */
  predicate Untouched(m0: PM.Manager, m: PM.Manager, id: PM.OrderId)
  {
    && (id in m.positions <==> id in m0.positions)
    && (id in m0.positions ==> m.positions[id] == m0.positions[id])
    && PM.Attempts(m, id) == PM.Attempts(m0, id)
    && (id in m.profitLocks <==> id in m0.profitLocks)
  }

  /**
   * The per-minute job: every open position, in the map's iteration order
   * `ids`, gets `updatePosition` at the current price, and a market sell of
   * the position's quantity is issued for exactly those that close.
   */
  method ManagePositions(bot: Bot, cfg: PM.Config, ids: seq<PM.OrderId>, price: real)
    returns (after: Bot, sells: seq<Sell>)
    requires forall i, j :: 0 <= i < j < |ids| ==> ids[i] != ids[j]
    requires forall id :: id in bot.manager.positions <==> id in ids
    ensures after.dailyTrades == bot.dailyTrades && after.lastTradeTime == bot.lastTradeTime
    ensures |sells| == |Closing(bot.manager, cfg, ids, price)|
    ensures forall k :: 0 <= k < |sells| ==>
              && sells[k].position == Closing(bot.manager, cfg, ids, price)[k]
              && sells[k].quantity == bot.manager.positions[sells[k].position].quantity
    ensures forall id :: id in after.manager.positions <==>
              id in bot.manager.positions && !PM.StopHit(bot.manager, cfg, id, price)
    ensures forall id :: id in after.manager.positions ==>
              after.manager.positions[id] == PM.Ratchet(bot.manager.positions[id], cfg, price)
    ensures forall id :: PM.StopHit(bot.manager, cfg, id, price) ==>
              id !in after.manager.scaleInAttempts && id !in after.manager.profitLocks
    ensures forall a, b :: 0 <= a < b < |sells| ==> sells[a].position != sells[b].position
    ensures forall id :: !PM.StopHit(bot.manager, cfg, id, price) ==>
              && PM.Attempts(after.manager, id) == PM.Attempts(bot.manager, id)
              && (id in after.manager.profitLocks <==> id in bot.manager.profitLocks)
  {
    var m0 := bot.manager;
    var m := m0;
    sells := [];
    var i := 0;
    while i < |ids|
      invariant 0 <= i <= |ids|
      invariant |sells| == |Closing(m0, cfg, ids[..i], price)|
      invariant forall k :: 0 <= k < |sells| ==>
                  && sells[k].position == Closing(m0, cfg, ids[..i], price)[k]
                  && sells[k].position in m0.positions
                  && sells[k].quantity == m0.positions[sells[k].position].quantity
      invariant forall id :: id in ids[..i] ==> Ticked(m0, m, cfg, id, price)
      invariant forall id :: id !in ids[..i] ==> Untouched(m0, m, id)
    {
      var id := ids[i];
      assert id !in ids[..i];
      assert Untouched(m0, m, id);
      assert PM.StopHit(m, cfg, id, price) == PM.StopHit(m0, cfg, id, price);
      var step := PM.UpdatePosition(m, cfg, id, price);
      if step.value.Some? {
        sells := sells + [Sell(id, step.value.value.quantity)];
      }
      ClosingExtends(m0, cfg, ids, i, price);
      FrameOthers(m0, m, step.state, cfg, id, ids[..i], price);
      m := step.state;
      i := i + 1;
    }
    assert ids[..|ids|] == ids;
    after := bot.(manager := m);
  }

  /** An update of `id` keeps every other order's tick record as it was. */
  lemma FrameOthers(m0: PM.Manager, m: PM.Manager, m': PM.Manager, cfg: PM.Config, id: PM.OrderId,
                    done: seq<PM.OrderId>, price: real)
    requires PM.OthersUnchanged(m, m', id)
    requires forall o :: o in done ==> Ticked(m0, m, cfg, o, price)
    requires forall o :: o !in done ==> Untouched(m0, m, o)
    ensures forall o :: o in done && o != id ==> Ticked(m0, m', cfg, o, price)
    ensures forall o :: o !in done && o != id ==> Untouched(m0, m', o)
  {
    forall o | o != id
      ensures (o in m'.positions <==> o in m.positions)
      ensures o in m.positions ==> m'.positions[o] == m.positions[o]
      ensures PM.Attempts(m', o) == PM.Attempts(m, o)
      ensures (o in m'.scaleInAttempts <==> o in m.scaleInAttempts)
      ensures (o in m'.profitLocks <==> o in m.profitLocks)
    {
      assert o in m'.positions <==> o in m'.positions - {id};
      assert o in m.positions <==> o in m.positions - {id};
      if o in m.positions {
        assert m'.positions[o] == (m'.positions - {id})[o];
      }
      assert o in m'.scaleInAttempts <==> o in m'.scaleInAttempts - {id};
      assert o in m.scaleInAttempts <==> o in m.scaleInAttempts - {id};
      if o in m.scaleInAttempts {
        assert m'.scaleInAttempts[o] == (m'.scaleInAttempts - {id})[o];
      }
      assert o in m'.profitLocks <==> o in m'.profitLocks - {id};
    }
  }
}
