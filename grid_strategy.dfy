/**
 * Start-up of the grid trading strategy (grid_trading/strategies/grid.py).
 *
 * `initialize` lays a ladder of `grid_size` evenly spaced prices from
 * `lower_price` to `upper_price` and tries to place one limit order per rung:
 * a buy where the rung is below the current market price, a sell otherwise.
 * The exchange is an oracle: `replies[i]` is its answer to the i-th placement,
 * an order id or a raised error, and `marketPrices[i]` is what the price query
 * returns in the i-th round. A failed placement is swallowed and the ladder goes on.
 *
 * The strategy's config is the unvalidated `GridConfig` of the database models
 * (grid_trading/database/models.py); it shares only its five fields with the
 * `Validation` record used here, so `initialize` takes any record, including a
 * `grid_size` of 1 or less.
 */
module GridStrategy {
  import opened Validation

  datatype Side = Buy | Sell

  datatype OrderStatus = Pending | Filled | Cancelled

  /** An order as the strategy's registry would hold it. */
  datatype Order = Order(exchangeOrderId: string, side: Side, price: real, quantity: real, status: OrderStatus)

  /** The exchange's error classes; `OtherError` is any other exception. */
  datatype ExchangeFailure = ExchangeError | InsufficientFundsError | InvalidOrderError | OtherError

  datatype PlacementReply = Placed(orderId: string) | Raised(failure: ExchangeFailure)

  /** The arguments of one `place_limit_order` call. */
  datatype PlacementRequest = PlacementRequest(symbol: string, side: Side, price: real, quantity: real)

  /** One placement the strategy made and what the exchange answered. */
  datatype Attempt = Attempt(request: PlacementRequest, reply: PlacementReply)

  datatype InitOutcome =
    | Completed(attempts: seq<Attempt>)
    | StepUndefined  // `grid_size == 1`: the step divides by zero and `initialize` raises

  /** `price_step`: the distance between neighbouring rungs. */
  function PriceStep(c: GridConfig): real
    requires c.gridSize != 1
  {
    (c.upperPrice - c.lowerPrice) / ((c.gridSize - 1) as real)
  }

  /** Reference ladder: rung `i` lies the fraction i/(grid_size-1) of the way from the lower to the upper price. */
  function LevelPrice(c: GridConfig, i: int): real
    requires c.gridSize != 1
  {
    c.lowerPrice + (c.upperPrice - c.lowerPrice) * (i as real) / ((c.gridSize - 1) as real)
  }

  /** The side rule: strictly below the market buys, at or above it sells. */
  function SideFor(price: real, marketPrice: real): Side {
    if price < marketPrice then Buy else Sell
  }

  /** The number of rounds `range(grid_size)` runs. */
  function LevelCount(c: GridConfig): nat {
    if c.gridSize < 0 then 0 else c.gridSize
  }

  /** Stepping `i` times from the lower price reaches the reference rung `i`. */
  lemma StepsReachLevel(c: GridConfig, i: int)
    requires c.gridSize != 1
    ensures c.lowerPrice + PriceStep(c) * (i as real) == LevelPrice(c, i)
  {
  }

  /** Rung 0 is the lower price and the last rung is the upper price, exactly. */
  lemma LadderEndpoints(c: GridConfig)
    requires 2 <= c.gridSize
    ensures LevelPrice(c, 0) == c.lowerPrice
    ensures LevelPrice(c, c.gridSize - 1) == c.upperPrice
  {
  }

  /** Neighbouring rungs are exactly one step apart. */
  lemma LadderSpacing(c: GridConfig, i: int)
    requires c.gridSize != 1
    ensures LevelPrice(c, i + 1) - LevelPrice(c, i) == PriceStep(c)
  {
  }

  /** With the upper price above the lower one the ladder strictly rises. */
  lemma LadderRises(c: GridConfig, i: int, j: int)
    requires 2 <= c.gridSize && c.lowerPrice < c.upperPrice
    requires i < j
    ensures LevelPrice(c, i) < LevelPrice(c, j)
  {
  }

  /** No validator orders the bounds: with them inverted the ladder strictly falls. */
  lemma InvertedLadderFalls(c: GridConfig, i: int, j: int)
    requires 2 <= c.gridSize && c.upperPrice < c.lowerPrice
    requires i < j
    ensures LevelPrice(c, i) > LevelPrice(c, j)
  {
  }

  /** Every rung of an ordered ladder lies between the bounds. */
  lemma LadderWithinBounds(c: GridConfig, i: int)
    requires 2 <= c.gridSize && c.lowerPrice <= c.upperPrice
    requires 0 <= i < c.gridSize
    ensures c.lowerPrice <= LevelPrice(c, i) <= c.upperPrice
  {
    var d, m := c.upperPrice - c.lowerPrice, (c.gridSize - 1) as real;
    assert 0.0 <= d * (i as real) <= d * m;
    assert d * (i as real) / m <= d * m / m == d;
  }

  /**
   * Against one market price a rising ladder splits in two: once a rung is a
   * sell, every rung above it is a sell too (buys below, sells above).
   */
  lemma SellsStayAbove(c: GridConfig, marketPrice: real, i: int, j: int)
    requires 2 <= c.gridSize && c.lowerPrice < c.upperPrice
    requires i < j
    requires SideFor(LevelPrice(c, i), marketPrice) == Sell
    ensures SideFor(LevelPrice(c, j), marketPrice) == Sell
  {
    LadderRises(c, i, j);
  }

  /**
   * Ten rungs from 40000 to 50000 are 10000/9 apart, rung 3 is 130000/3, and
   * with the market at 45000 rungs 0 to 4 buy and rungs 5 to 9 sell.
   */
  lemma TenRungScenario(symbol: string, quantity: real)
    ensures var c := GridConfig(symbol, 10, 50000.0, 40000.0, quantity);
      && PriceStep(c) == 10000.0 / 9.0
      && LevelPrice(c, 3) == 130000.0 / 3.0
      && (forall i :: 0 <= i <= 4 ==> SideFor(LevelPrice(c, i), 45000.0) == Buy)
      && (forall i :: 5 <= i <= 9 ==> SideFor(LevelPrice(c, i), 45000.0) == Sell)
  {
    var c := GridConfig(symbol, 10, 50000.0, 40000.0, quantity);
    assert LevelPrice(c, 4) < 45000.0;
    assert LevelPrice(c, 5) >= 45000.0;
    forall i | 0 <= i <= 4
      ensures SideFor(LevelPrice(c, i), 45000.0) == Buy
    {
      if i < 4 {
        LadderRises(c, i, 4);
      }
    }
    forall i | 5 <= i <= 9
      ensures SideFor(LevelPrice(c, i), 45000.0) == Sell
    {
      if i > 5 {
        LadderRises(c, 5, i);
      }
    }
  }

  class GridTradingStrategy {
    const config: GridConfig
    const priceUpdateInterval: real
    var activeOrders: map<string, Order>
    var isRunning: bool

    /** `price_update_interval` defaults to one second; the core never reads it. */
    constructor (config: GridConfig, priceUpdateInterval: real := 1.0)
      ensures this.config == config && this.priceUpdateInterval == priceUpdateInterval
      ensures activeOrders == map[] && !isRunning
    {
      this.config := config;
      this.priceUpdateInterval := priceUpdateInterval;
      activeOrders := map[];
      isRunning := false;
    }

    /**
     * `_place_grid_order`: one placement with the configured symbol and quantity.
     * Whatever the exchange answers, the call returns normally.
     */
    method PlaceGridOrder(side: Side, price: real, reply: PlacementReply) returns (attempt: Attempt)
      ensures attempt.request == PlacementRequest(config.symbol, side, price, config.quantityPerOrder)
      ensures attempt.reply == reply
    {
      attempt := Attempt(PlacementRequest(config.symbol, side, price, config.quantityPerOrder), reply);
    }

    /**
     * `initialize`: one placement per rung, in rung order, each priced on the
     * reference ladder and sided against that round's market price. It writes no
     * field of the strategy: `active_orders` stays as it was.
     */
    method Initialize(marketPrices: seq<real>, replies: seq<PlacementReply>) returns (outcome: InitOutcome)
      requires config.gridSize <= |marketPrices| && config.gridSize <= |replies|
      ensures outcome == StepUndefined <==> config.gridSize == 1
      ensures outcome.Completed? ==> |outcome.attempts| == LevelCount(config)
      ensures outcome.Completed? ==> forall i :: 0 <= i < |outcome.attempts| ==>
        && outcome.attempts[i].request.price == LevelPrice(config, i)
        && (outcome.attempts[i].request.side == Buy <==> LevelPrice(config, i) < marketPrices[i])
        && outcome.attempts[i].request.symbol == config.symbol
        && outcome.attempts[i].request.quantity == config.quantityPerOrder
        && outcome.attempts[i].reply == replies[i]
    {
      if config.gridSize == 1 {
        return StepUndefined;
      }
      var priceStep := PriceStep(config);
      var attempts: seq<Attempt> := [];
      var i := 0;
      while i < config.gridSize
        invariant 0 <= i <= LevelCount(config)
        invariant |attempts| == i
        invariant forall k :: 0 <= k < i ==>
          && attempts[k].request.price == LevelPrice(config, k)
          && (attempts[k].request.side == Buy <==> LevelPrice(config, k) < marketPrices[k])
          && attempts[k].request.symbol == config.symbol
          && attempts[k].request.quantity == config.quantityPerOrder
          && attempts[k].reply == replies[k]
      {
        var price := config.lowerPrice + priceStep * (i as real);
        StepsReachLevel(config, i);
        var currentPrice := marketPrices[i];
        var attempt;
        if price < currentPrice {
          attempt := PlaceGridOrder(Buy, price, replies[i]);
        } else {
          attempt := PlaceGridOrder(Sell, price, replies[i]);
        }
        attempts := attempts + [attempt];
        i := i + 1;
      }
      outcome := Completed(attempts);
    }
  }
}
