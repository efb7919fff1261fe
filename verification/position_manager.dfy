/**
 * Model of `PositionManager` (src/position_manager.js): open positions keyed
 * by order id, the companion `profitLocks` and `scaleInAttempts` maps, and the
 * seven operations on them. Every operation takes the manager and returns the
 * new manager together with what the source returns; an unknown id is an
 * ordinary outcome, never a fault.
 */
module PositionManager {
  import opened Options
  import opened RealArith

  type OrderId = int

  /** The part of the bot configuration the manager reads. Percentages are in percent. */
  datatype Config = Config(
    initialStopLoss: real,
    trailingStop: real,
    scaleInDip: real,
    maxScaleInAttempts: int,
    scaleOutLevels: seq<real>,
    scaleOutPercentages: seq<real>)

  /** One open trade; `scaleOutLevels` is the list of profit levels recorded as taken. */
  datatype Position = Position(
    quantity: real,
    entryPrice: real,
    stopPrice: real,
    highestPrice: real,
    scaleOutLevels: seq<real>)

  /**
   * The manager's three maps. `profitLocks` is only ever deleted from, so its
   * values are never observable and only its key set is kept.
   */
  datatype Manager = Manager(
    positions: map<OrderId, Position>,
    profitLocks: set<OrderId>,
    scaleInAttempts: map<OrderId, nat>)

  datatype CloseResult = CloseResult(profit: real, quantity: real, entryPrice: real, exitPrice: real)

  datatype ScaleOutSignal = ScaleOutSignal(level: real, percentage: real)

  /** The manager after an operation, paired with the operation's return value. */
  datatype Step<T> = Step(state: Manager, value: T)

  /** A freshly constructed manager: all three maps empty. */
  function Empty(): Manager
  {
    Manager(map[], {}, map[])
  }

  /** `scaleInAttempts.get(id) || 0`. */
  function Attempts(m: Manager, id: OrderId): nat
  {
    if id in m.scaleInAttempts then m.scaleInAttempts[id] else 0
  }

  /** `price * (1 - percent / 100)`: the stop `percent` percent below `price`. */
  function StopBelow(price: real, percent: real): real
  {
    price * (1.0 - percent / 100.0)
  }

  /** Nothing recorded for any order other than `id` differs between `m` and `m'`. */
  predicate OthersUnchanged(m: Manager, m': Manager, id: OrderId)
  {
    && m'.positions - {id} == m.positions - {id}
    && m'.profitLocks - {id} == m.profitLocks - {id}
    && m'.scaleInAttempts - {id} == m.scaleInAttempts - {id}
  }

  // ---------------------------------------------------------------- open

  /**
   * Records a new position at `entryPrice` with the initial stop below it; the
   * attempt counter and profit locks are left as they are.
   */
  function OpenPosition(m: Manager, cfg: Config, id: OrderId, quantity: real, entryPrice: real): (m': Manager)
    ensures id in m'.positions
    ensures var p := m'.positions[id];
            && p.quantity == quantity && p.entryPrice == entryPrice
            && p.highestPrice == entryPrice && p.scaleOutLevels == []
            && p.stopPrice == StopBelow(entryPrice, cfg.initialStopLoss)
    ensures OthersUnchanged(m, m', id)
    ensures m'.scaleInAttempts == m.scaleInAttempts && m'.profitLocks == m.profitLocks
  {
    var stop := StopBelow(entryPrice, cfg.initialStopLoss);
    m.(positions := m.positions[id := Position(quantity, entryPrice, stop, entryPrice, [])])
  }

  // ---------------------------------------------------------------- update / close

  function Max(a: real, b: real): real
  {
    if a >= b then a else b
  }

  /** The trailing-stop ratchet: a new high raises the high and lifts the stop to at least the trailing stop. */
  function Ratchet(p: Position, cfg: Config, price: real): (q: Position)
    ensures q.highestPrice >= p.highestPrice && q.stopPrice >= p.stopPrice
    ensures price <= p.highestPrice ==> q == p
    ensures price > p.highestPrice ==>
              q.highestPrice == price && q.stopPrice >= StopBelow(price, cfg.trailingStop)
    ensures price > p.highestPrice ==>
              q.stopPrice == p.stopPrice || q.stopPrice == StopBelow(price, cfg.trailingStop)
    ensures q.quantity == p.quantity && q.entryPrice == p.entryPrice && q.scaleOutLevels == p.scaleOutLevels
  {
    if price > p.highestPrice then
      p.(highestPrice := price, stopPrice := Max(p.stopPrice, StopBelow(price, cfg.trailingStop)))
    else p
  }

  /** Whether a tick at `price` closes position `id`: the price is at or below the stop after the ratchet. */
  predicate StopHit(m: Manager, cfg: Config, id: OrderId, price: real)
  {
    id in m.positions && price <= Ratchet(m.positions[id], cfg, price).stopPrice
  }

  /** The realised result of closing `p` at `exitPrice`. */
  function Settle(p: Position, exitPrice: real): (c: CloseResult)
    ensures c.profit == c.quantity * (c.exitPrice - c.entryPrice)
    ensures c.quantity == p.quantity && c.entryPrice == p.entryPrice && c.exitPrice == exitPrice
  {
    CloseResult((exitPrice - p.entryPrice) * p.quantity, p.quantity, p.entryPrice, exitPrice)
  }

  /**
   * Removes a position and its auxiliary counters and reports the realised
   * profit; an unknown id changes nothing and reports `None`.
   */
  function ClosePosition(m: Manager, id: OrderId, exitPrice: real): (r: Step<Option<CloseResult>>)
    ensures id !in m.positions ==> r.state == m && r.value.None?
    ensures id in m.positions ==> r.value == Some(Settle(m.positions[id], exitPrice))
    ensures id in m.positions ==>
              id !in r.state.positions && id !in r.state.profitLocks && id !in r.state.scaleInAttempts
    ensures OthersUnchanged(m, r.state, id)
  {
    if id !in m.positions then Step(m, None)
    else
      var p := m.positions[id];
      Step(Manager(m.positions - {id}, m.profitLocks - {id}, m.scaleInAttempts - {id}), Some(Settle(p, exitPrice)))
  }

  /**
   * One price tick for position `id`: ratchet the trailing stop, then close
   * when the price is at or below the stop. `None` when the position stays
   * open or is unknown.
   */
  function UpdatePosition(m: Manager, cfg: Config, id: OrderId, price: real): (r: Step<Option<CloseResult>>)
    ensures id !in m.positions ==> r == Step(m, None)
    ensures r.value.Some? <==> StopHit(m, cfg, id, price)
    ensures StopHit(m, cfg, id, price) ==>
              && r.value.value == Settle(m.positions[id], price)
              && id !in r.state.positions && id !in r.state.profitLocks && id !in r.state.scaleInAttempts
    ensures id in m.positions && !StopHit(m, cfg, id, price) ==>
              && id in r.state.positions
              && r.state.positions[id] == Ratchet(m.positions[id], cfg, price)
              && Attempts(r.state, id) == Attempts(m, id)
              && (id in r.state.profitLocks <==> id in m.profitLocks)
    ensures OthersUnchanged(m, r.state, id)
  {
    if id !in m.positions then Step(m, None)
    else
      var p := Ratchet(m.positions[id], cfg, price);
      var m1 := m.(positions := m.positions[id := p]);
      if price <= p.stopPrice then ClosePosition(m1, id, price)
      else Step(m1, None)
  }

  // ---------------------------------------------------------------- scale in

  /**
   * Whether a position may be averaged down: attempts remain and the price has
   * fallen at least `scaleInDip` percent below the entry price.
   */
  function CanScaleIn(m: Manager, cfg: Config, id: OrderId, price: real): (b: bool)
    requires id in m.positions ==> m.positions[id].entryPrice != 0.0
    ensures b ==> id in m.positions && Attempts(m, id) < cfg.maxScaleInAttempts
    ensures id in m.positions && Attempts(m, id) < cfg.maxScaleInAttempts ==>
              var e := m.positions[id].entryPrice;
              (b <==> (price - e) / e * 100.0 <= -cfg.scaleInDip)
  {
    if id !in m.positions then false
    else if Attempts(m, id) >= cfg.maxScaleInAttempts then false
    else
      var e := m.positions[id].entryPrice;
      (price - e) / e * 100.0 <= -cfg.scaleInDip
  }

  /**
   * Adds `quantity` bought at `price` to position `id`, moving its entry price
   * to the quantity-weighted average and counting one more attempt. The
   * attempt cap is not checked here.
   */
  function ScaleIn(m: Manager, id: OrderId, quantity: real, price: real): (r: Step<bool>)
    requires id in m.positions ==> m.positions[id].quantity + quantity != 0.0
    ensures r.value <==> id in m.positions
    ensures !r.value ==> r.state == m
    ensures r.value ==> id in r.state.positions
    ensures r.value ==>
              var p := m.positions[id];
              var p' := r.state.positions[id];
              && Attempts(r.state, id) == Attempts(m, id) + 1
              && p'.quantity == p.quantity + quantity
              && p'.entryPrice * p'.quantity == p.entryPrice * p.quantity + price * quantity
              && p'.stopPrice == p.stopPrice && p'.highestPrice == p.highestPrice
              && p'.scaleOutLevels == p.scaleOutLevels
              && r.state.profitLocks == m.profitLocks
    ensures OthersUnchanged(m, r.state, id)
  {
    if id !in m.positions then Step(m, false)
    else
      var p := m.positions[id];
      var total := p.quantity + quantity;
      var entry := (p.entryPrice * p.quantity + price * quantity) / total;
      assert entry * total == p.entryPrice * p.quantity + price * quantity;
      var attempts := Attempts(m, id) + 1;
      Step(m.(positions := m.positions[id := p.(quantity := total, entryPrice := entry)],
              scaleInAttempts := m.scaleInAttempts[id := attempts]),
           true)
  }

  // ---------------------------------------------------------------- scale out

  /** Level `k` is due: the profit reaches it and it is not recorded as taken. */
  predicate LevelDue(levels: seq<real>, taken: seq<real>, profit: real, k: nat)
    requires k < |levels|
  {
    profit >= levels[k] && levels[k] !in taken
  }

  /** `levels.find(...)` from index `from`: the first due level's index, if any. */
  function FirstDue(levels: seq<real>, taken: seq<real>, profit: real, from: nat): (k: Option<nat>)
    requires from <= |levels|
    ensures k.Some? ==> from <= k.value < |levels| && LevelDue(levels, taken, profit, k.value)
    ensures k.Some? ==> forall j :: from <= j < k.value ==> !LevelDue(levels, taken, profit, j)
    ensures k.None? ==> forall j :: from <= j < |levels| ==> !LevelDue(levels, taken, profit, j)
    decreases |levels| - from
  {
    if from == |levels| then None
    else if LevelDue(levels, taken, profit, from) then Some(from)
    else FirstDue(levels, taken, profit, from + 1)
  }

  /** `s.indexOf(x)` for an `x` that occurs in `s`: the first index holding `x`. */
  function IndexOf(s: seq<real>, x: real): (k: nat)
    requires x in s
    ensures k < |s| && s[k] == x
    ensures forall j :: 0 <= j < k ==> s[j] != x
  {
    if s[0] == x then 0 else 1 + IndexOf(s[1..], x)
  }

  /** Profit of `p` at `price`, in percent of the entry price. */
  function ProfitPercent(p: Position, price: real): real
    requires p.entryPrice != 0.0
  {
    (price - p.entryPrice) / p.entryPrice * 100.0
  }

  /**
   * The first configured scale-out level, in configuration order, that the
   * profit has reached and that is not recorded as taken, paired with the
   * percentage configured at the same index. A found level equal to 0 is
   * falsy in the source and reported as `None`.
   */
  function ShouldScaleOut(m: Manager, cfg: Config, id: OrderId, price: real): (r: Option<ScaleOutSignal>)
    requires id in m.positions ==> m.positions[id].entryPrice != 0.0
    requires |cfg.scaleOutLevels| <= |cfg.scaleOutPercentages|
    ensures id !in m.positions ==> r.None?
    ensures r.Some? ==> id in m.positions && r.value.level in cfg.scaleOutLevels
    ensures r.Some? ==>
              var p := m.positions[id];
              var profit := ProfitPercent(p, price);
              var k := IndexOf(cfg.scaleOutLevels, r.value.level);
              && LevelDue(cfg.scaleOutLevels, p.scaleOutLevels, profit, k)
              && (forall j :: 0 <= j < k ==> !LevelDue(cfg.scaleOutLevels, p.scaleOutLevels, profit, j))
              && r.value.level != 0.0
              && r.value.percentage == cfg.scaleOutPercentages[k]
  {
    if id !in m.positions then None
    else
      var p := m.positions[id];
      var levels := cfg.scaleOutLevels;
      var found := FirstDue(levels, p.scaleOutLevels, ProfitPercent(p, price), 0);
      if found.None? || levels[found.value] == 0.0 then None
      else
        var level := levels[found.value];
        var k := IndexOf(levels, level);
        assert k == found.value by {
          if k < found.value {
            assert LevelDue(levels, p.scaleOutLevels, ProfitPercent(p, price), k);
          }
        }
        Some(ScaleOutSignal(level, cfg.scaleOutPercentages[k]))
  }

  /**
   * Sells `percentage` percent of position `id` and reports the quantity
   * removed. The list of taken levels is left as it is.
   */
  function ScaleOut(m: Manager, id: OrderId, percentage: real): (r: Step<Option<real>>)
    ensures id !in m.positions ==> r == Step(m, None)
    ensures id in m.positions ==>
              var p := m.positions[id];
              && r.value.Some?
              && id in r.state.positions
              && r.value.value == p.quantity * percentage / 100.0
              && r.value.value + r.state.positions[id].quantity == p.quantity
              && r.state.positions[id] == p.(quantity := r.state.positions[id].quantity)
              && r.state.scaleInAttempts == m.scaleInAttempts && r.state.profitLocks == m.profitLocks
    ensures OthersUnchanged(m, r.state, id)
  {
    if id !in m.positions then Step(m, None)
    else
      var p := m.positions[id];
      var removed := p.quantity * (percentage / 100.0);
      Step(m.(positions := m.positions[id := p.(quantity := p.quantity - removed)]), Some(removed))
  }

  // ---------------------------------------------------------------- invariants

  /** Percentages the stop computations expect: both stop distances within [0, 100]. */
  predicate SaneConfig(cfg: Config)
  {
    0.0 <= cfg.initialStopLoss <= 100.0 && 0.0 <= cfg.trailingStop <= 100.0
  }

  /** A well-formed position: positive size and cost basis, and a non-negative stop at or below the high. */
  predicate PositionOk(p: Position)
  {
    p.quantity > 0.0 && p.entryPrice > 0.0 && 0.0 <= p.stopPrice <= p.highestPrice
  }

  /** Every position is well formed, and no attempt counter or profit lock outlives its position. */
  predicate Inv(m: Manager)
  {
    && (forall id :: id in m.positions ==> PositionOk(m.positions[id]))
    && m.scaleInAttempts.Keys <= m.positions.Keys
    && m.profitLocks <= m.positions.Keys
  }

  /** A stop `percent` percent below a non-negative price, for a percentage in [0, 100], lies in [0, price]. */
  lemma StopBelowWithin(price: real, percent: real)
    requires price >= 0.0 && 0.0 <= percent <= 100.0
    ensures 0.0 <= StopBelow(price, percent) <= price
  {
    var f := 1.0 - percent / 100.0;
    assert 0.0 <= f <= 1.0;
    ProductNonNegative(price, f);
    ProductNonNegative(price, 1.0 - f);
    assert price * f + price * (1.0 - f) == price;
  }

  /** A call on the manager, with the arguments the source passes. */
  datatype Call =
    | OpenCall(id: OrderId, quantity: real, price: real)
    | UpdateCall(id: OrderId, price: real)
    | CloseCall(id: OrderId, price: real)
    | ScaleInCall(id: OrderId, quantity: real, price: real)
    | ScaleOutCall(id: OrderId, percentage: real)

  /** Arguments a caller can sensibly pass: positive sizes and prices, and a partial scale-out. */
  predicate CallOk(c: Call)
  {
    match c
    case OpenCall(_, q, p) => q > 0.0 && p > 0.0
    case UpdateCall(_, _) => true
    case CloseCall(_, _) => true
    case ScaleInCall(_, q, p) => q > 0.0 && p > 0.0
    case ScaleOutCall(_, pct) => 0.0 <= pct < 100.0
  }

  function Apply(m: Manager, cfg: Config, c: Call): Manager
    requires Inv(m) && CallOk(c)
  {
    match c
    case OpenCall(id, q, p) => OpenPosition(m, cfg, id, q, p)
    case UpdateCall(id, p) => UpdatePosition(m, cfg, id, p).state
    case CloseCall(id, p) => ClosePosition(m, id, p).state
    case ScaleInCall(id, q, p) => ScaleIn(m, id, q, p).state
    case ScaleOutCall(id, pct) => ScaleOut(m, id, pct).state
  }

  /** A change confined to order `id` keeps the invariant when it keeps that order well formed. */
  lemma InvAfterLocalChange(m: Manager, m': Manager, id: OrderId)
    requires Inv(m) && OthersUnchanged(m, m', id)
    requires id in m'.positions ==> PositionOk(m'.positions[id])
    requires id in m'.scaleInAttempts ==> id in m'.positions
    requires id in m'.profitLocks ==> id in m'.positions
    ensures Inv(m')
  {
    forall o | o in m'.positions && o != id
      ensures o in m.positions && m'.positions[o] == m.positions[o]
    {
      assert o in m'.positions - {id};
    }
    forall o | o in m'.scaleInAttempts && o != id
      ensures o in m'.positions
    {
      assert o in m'.scaleInAttempts - {id};
      assert o in m.positions - {id};
    }
    forall o | o in m'.profitLocks && o != id
      ensures o in m'.positions
    {
      assert o in m'.profitLocks - {id};
      assert o in m.positions - {id};
    }
  }

  /** With both stop percentages in [0,100], every well-formed call (positive size and price for open and scale-in, a scale-out below 100%) keeps the invariant. */
  lemma ApplyPreservesInv(m: Manager, cfg: Config, c: Call)
    requires SaneConfig(cfg) && Inv(m) && CallOk(c)
    ensures Inv(Apply(m, cfg, c))
  {
    var m' := Apply(m, cfg, c);
    match c
    case OpenCall(id, q, p) =>
      StopBelowWithin(p, cfg.initialStopLoss);
      InvAfterLocalChange(m, m', id);
    case UpdateCall(id, p) =>
      if id in m.positions && !StopHit(m, cfg, id, p) && p > m.positions[id].highestPrice {
        StopBelowWithin(p, cfg.trailingStop);
      }
      InvAfterLocalChange(m, m', id);
    case CloseCall(id, p) =>
      InvAfterLocalChange(m, m', id);
    case ScaleInCall(id, q, p) =>
      if id in m.positions {
        var before := m.positions[id];
        var after := m'.positions[id];
        assert after.entryPrice * after.quantity > 0.0 by {
          ProductPositive(before.entryPrice, before.quantity);
          ProductPositive(p, q);
        }
        SignOfProduct(after.entryPrice, after.quantity);
      }
      InvAfterLocalChange(m, m', id);
    case ScaleOutCall(id, pct) =>
      if id in m.positions {
        var before := m.positions[id];
        var after := m'.positions[id];
        var keep := 1.0 - pct / 100.0;
        assert after.quantity == before.quantity * keep;
        ProductPositive(before.quantity, keep);
        assert after.quantity > 0.0;
      }
      InvAfterLocalChange(m, m', id);
  }

  /** The manager reached from `m` by a sequence of calls. */
  function Run(m: Manager, cfg: Config, calls: seq<Call>): Manager
    requires SaneConfig(cfg) && Inv(m)
    requires forall i :: 0 <= i < |calls| ==> CallOk(calls[i])
    decreases |calls|
  {
    if |calls| == 0 then m
    else
      ApplyPreservesInv(m, cfg, calls[0]);
      Run(Apply(m, cfg, calls[0]), cfg, calls[1..])
  }

  /** From any manager satisfying the invariant, any sequence of well-formed calls keeps every position well formed. */
  lemma {:induction false} RunPreservesInv(m: Manager, cfg: Config, calls: seq<Call>)
    requires SaneConfig(cfg) && Inv(m)
    requires forall i :: 0 <= i < |calls| ==> CallOk(calls[i])
    ensures Inv(Run(m, cfg, calls))
    decreases |calls|
  {
    if |calls| > 0 {
      ApplyPreservesInv(m, cfg, calls[0]);
      RunPreservesInv(Apply(m, cfg, calls[0]), cfg, calls[1..]);
    }
  }

  // ---------------------------------------------------------------- lifecycle properties

  /**
   * An update never lowers the stop or the high of a position it leaves
   * open, and a price not above the high leaves the position as it was.
   */
  lemma UpdateRatchetsUp(m: Manager, cfg: Config, id: OrderId, price: real)
    requires id in m.positions
    ensures var m' := UpdatePosition(m, cfg, id, price).state;
            id in m'.positions ==>
              && m'.positions[id].stopPrice >= m.positions[id].stopPrice
              && m'.positions[id].highestPrice >= m.positions[id].highestPrice
              && (price <= m.positions[id].highestPrice ==> m'.positions[id] == m.positions[id])
  {
  }

  /** Closing twice: the second close finds nothing and changes nothing. */
  lemma CloseIsIdempotent(m: Manager, id: OrderId, first: real, second: real)
    ensures var once := ClosePosition(m, id, first).state;
            ClosePosition(once, id, second) == Step(once, None)
  {
  }

  /**
   * For a positive entry price, the percentage test of `CanScaleIn` is a
   * price threshold: the price is at or below `entry * (1 - scaleInDip / 100)`.
   */
  lemma CanScaleInThreshold(m: Manager, cfg: Config, id: OrderId, price: real)
    requires id in m.positions && m.positions[id].entryPrice > 0.0
    ensures CanScaleIn(m, cfg, id, price) <==>
              Attempts(m, id) < cfg.maxScaleInAttempts
              && price <= StopBelow(m.positions[id].entryPrice, cfg.scaleInDip)
  {
    var e := m.positions[id].entryPrice;
    var change := (price - e) / e * 100.0;
    assert change * e == (price - e) * 100.0;
    assert StopBelow(e, cfg.scaleInDip) * 100.0 == e * 100.0 - e * cfg.scaleInDip;
    assert (change + cfg.scaleInDip) * e == 100.0 * (price - StopBelow(e, cfg.scaleInDip));
    SignOfProduct(change + cfg.scaleInDip, e);
  }

  /** Averaging down: with positive sizes the new entry price lies between the old one and the added price. */
  lemma ScaleInAveragesEntry(m: Manager, id: OrderId, quantity: real, price: real)
    requires id in m.positions && m.positions[id].quantity > 0.0 && quantity > 0.0
    ensures var e := m.positions[id].entryPrice;
            var e' := ScaleIn(m, id, quantity, price).state.positions[id].entryPrice;
            (e <= price ==> e <= e' <= price) && (price <= e ==> price <= e' <= e)
  {
    var p := m.positions[id];
    var q := p.quantity;
    var e := p.entryPrice;
    var e' := ScaleIn(m, id, quantity, price).state.positions[id].entryPrice;
    var total := q + quantity;
    assert e' * total == e * q + price * quantity;
    // e' - e and price - e' are the two shares of price - e
    assert (e' - e) * total == (price - e) * quantity;
    assert (price - e') * total == (price - e) * q;
    SignOfProduct(e' - e, total);
    SignOfProduct(price - e', total);
    SignOfProduct(e - e', total);
    SignOfProduct(e' - price, total);
    SignOfProduct(price - e, quantity);
    SignOfProduct(price - e, q);
    SignOfProduct(e - price, quantity);
    SignOfProduct(e - price, q);
  }

  /**
   * `ScaleIn` does not consult the attempt cap: once `CanScaleIn` refuses
   * for lack of attempts, a direct `ScaleIn` still succeeds and pushes the
   * counter past the cap.
   */
  lemma ScaleInIgnoresCap(m: Manager, cfg: Config, id: OrderId, quantity: real, price: real)
    requires id in m.positions && m.positions[id].entryPrice != 0.0
    requires m.positions[id].quantity + quantity != 0.0
    requires Attempts(m, id) >= cfg.maxScaleInAttempts
    ensures !CanScaleIn(m, cfg, id, price)
    ensures var r := ScaleIn(m, id, quantity, price);
            r.value && Attempts(r.state, id) > cfg.maxScaleInAttempts
  {
  }

  /** With no level equal to 0, a known position gets no signal exactly when no level is due. */
  lemma ShouldScaleOutNoneIff(m: Manager, cfg: Config, id: OrderId, price: real)
    requires id in m.positions && m.positions[id].entryPrice != 0.0
    requires |cfg.scaleOutLevels| <= |cfg.scaleOutPercentages|
    requires forall k :: 0 <= k < |cfg.scaleOutLevels| ==> cfg.scaleOutLevels[k] != 0.0
    ensures var p := m.positions[id];
            ShouldScaleOut(m, cfg, id, price).None? <==>
              forall k :: 0 <= k < |cfg.scaleOutLevels| ==>
                !LevelDue(cfg.scaleOutLevels, p.scaleOutLevels, ProfitPercent(p, price), k)
  {
    var p := m.positions[id];
    var found := FirstDue(cfg.scaleOutLevels, p.scaleOutLevels, ProfitPercent(p, price), 0);
    if found.Some? {
      assert cfg.scaleOutLevels[found.value] != 0.0;
    }
  }

  /**
   * Scaling out does not record the level: right after a scale-out the same
   * price yields the same scale-out signal again.
   */
  lemma ScaleOutRetriggers(m: Manager, cfg: Config, id: OrderId, percentage: real, price: real)
    requires id in m.positions && m.positions[id].entryPrice != 0.0
    requires |cfg.scaleOutLevels| <= |cfg.scaleOutPercentages|
    ensures var m' := ScaleOut(m, id, percentage).state;
            ShouldScaleOut(m', cfg, id, price) == ShouldScaleOut(m, cfg, id, price)
  {
    var m' := ScaleOut(m, id, percentage).state;
    assert m'.positions[id].entryPrice == m.positions[id].entryPrice;
    assert m'.positions[id].scaleOutLevels == m.positions[id].scaleOutLevels;
  }

  /**
   * Open at 100 with a 5% stop (stop 95), a tick at 110 with a 3% trailing
   * stop (stop 106.7), then a tick at 105 closes with profit 5.
   */
  lemma TrailingStopScenario(id: OrderId)
    ensures var cfg := Config(5.0, 3.0, 0.0, 0, [], []);
            var m0 := OpenPosition(Empty(), cfg, id, 1.0, 100.0);
            var s1 := UpdatePosition(m0, cfg, id, 110.0);
            var s2 := UpdatePosition(s1.state, cfg, id, 105.0);
            && m0.positions[id].stopPrice == 95.0
            && s1.value.None? && s1.state.positions[id].stopPrice == 106.7
            && s2.value == Some(CloseResult(5.0, 1.0, 100.0, 105.0))
            && id !in s2.state.positions
  {
    var cfg := Config(5.0, 3.0, 0.0, 0, [], []);
    var m0 := OpenPosition(Empty(), cfg, id, 1.0, 100.0);
    assert m0.positions[id].stopPrice == 95.0;
    assert StopHit(m0, cfg, id, 110.0) == false;
    var s1 := UpdatePosition(m0, cfg, id, 110.0);
    assert s1.state.positions[id].stopPrice == 106.7;
    assert StopHit(s1.state, cfg, id, 105.0);
  }

  /** Right after opening, a tick at or below the initial stop closes the position at that price. */
  lemma OpenThenStopOut(m: Manager, cfg: Config, id: OrderId, quantity: real, entryPrice: real, price: real)
    requires price <= StopBelow(entryPrice, cfg.initialStopLoss)
    requires SaneConfig(cfg) && entryPrice >= 0.0
    ensures var r := UpdatePosition(OpenPosition(m, cfg, id, quantity, entryPrice), cfg, id, price);
            r.value == Some(CloseResult((price - entryPrice) * quantity, quantity, entryPrice, price))
  {
    StopBelowWithin(entryPrice, cfg.initialStopLoss);
    var m' := OpenPosition(m, cfg, id, quantity, entryPrice);
    var p := m'.positions[id];
    assert Ratchet(p, cfg, price) == p;
    assert StopHit(m', cfg, id, price);
    assert Settle(p, price) == CloseResult((price - entryPrice) * quantity, quantity, entryPrice, price);
  }
}
