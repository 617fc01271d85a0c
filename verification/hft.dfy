/** The high-frequency trading strategy: the pair analysis gates, the gas cap
    on order transactions, the bounded retry loop around order execution and
    the execution statistics it keeps. Prices, liquidity, the opportunity
    calculation, order calldata, gas prices and submissions are inputs. */
module Hft {
  import opened Primitives
  import opened Transactions
  import opened Retry
  import Nonce

  datatype TradingPair = TradingPair(
    tokenA: Address,
    tokenB: Address,
    dexAddress: Address,
    minTradeSize: nat,
    maxTradeSize: nat)

  datatype HftConfig = HftConfig(
    enabled: bool,
    minProfit: nat,
    maxGasPrice: nat,
    targetPairs: seq<TradingPair>,
    maxPositionSize: nat,
    minLiquidity: nat,
    maxConcurrentOrders: nat,
    maxRetries: nat)

  datatype OrderSide = Buy | Sell

  datatype Order = Order(
    pair: TradingPair,
    side: OrderSide,
    amount: nat,
    price: nat,
    timestamp: nat,
    gasPrice: nat,
    estimatedProfit: nat)

  /** what `calculate_opportunity` proposes for a pair: side, amount, profit */
  datatype Candidate = Candidate(side: OrderSide, amount: nat, profit: nat)

  /** `estimate_gas` always answers this default */
  const OrderGasLimit: nat := 300000

  /** `Strategy::validate` */
  predicate Validate(cfg: HftConfig)
  {
    cfg.enabled && cfg.targetPairs != [] && cfg.minProfit > 0
  }

  /** `analyze_pair`: read the price and the liquidity, give up on a pair
      below the liquidity floor, and propose an order only for a profit
      strictly above the minimum. */
  function AnalyzePair(
    cfg: HftConfig, pair: TradingPair,
    currentPrice: Result<nat, Error>, liquidity: Result<nat, Error>,
    candidate: Result<Option<Candidate>, Error>, gasPrice: Result<nat, Error>, now: nat)
    : (r: Result<Option<Order>, Error>)
    ensures currentPrice.Err? || liquidity.Err? ==> r.Err?
    ensures currentPrice.Ok? && liquidity.Ok? && liquidity.value < cfg.minLiquidity ==> r == Ok(None)
    ensures r.Ok? && r.value.Some? ==>
              && liquidity.Ok? && liquidity.value >= cfg.minLiquidity
              && candidate.Ok? && candidate.value.Some?
              && candidate.value.value.profit > cfg.minProfit && gasPrice.Ok?
              && r.value.value == Order(pair, candidate.value.value.side, candidate.value.value.amount,
                                        currentPrice.value, now, gasPrice.value, candidate.value.value.profit)
    ensures currentPrice.Ok? && liquidity.Ok? && liquidity.value >= cfg.minLiquidity && candidate.Ok? ==>
              (candidate.value.None? || candidate.value.value.profit <= cfg.minProfit <==> r == Ok(None))
  {
    if currentPrice.Err? then Err(currentPrice.error)
    else if liquidity.Err? then Err(liquidity.error)
    else if liquidity.value < cfg.minLiquidity then Ok(None)
    else if candidate.Err? then Err(candidate.error)
    else if candidate.value.None? then Ok(None)
    else
      var c := candidate.value.value;
      if c.profit > cfg.minProfit then
        if gasPrice.Err? then Err(gasPrice.error)
        else Ok(Some(Order(pair, c.side, c.amount, currentPrice.value, now, gasPrice.value, c.profit)))
      else Ok(None)
  }

  /** What `validate` guards: under a configuration it accepts, every order
      `analyze_pair` proposes expects a profit above a positive minimum. */
  lemma ValidatedOrdersAreProfitable(
    cfg: HftConfig, pair: TradingPair,
    currentPrice: Result<nat, Error>, liquidity: Result<nat, Error>,
    candidate: Result<Option<Candidate>, Error>, gasPrice: Result<nat, Error>, now: nat)
    requires Validate(cfg)
    ensures var r := AnalyzePair(cfg, pair, currentPrice, liquidity, candidate, gasPrice, now);
            r.Ok? && r.value.Some? ==> r.value.value.estimatedProfit > cfg.minProfit > 0
  {
  }

  /** `create_order_tx`: refuse a gas price above the cap, otherwise send the
      order amount to the pair's exchange at the current gas price. */
  function CreateOrderTx(cfg: HftConfig, order: Order, gasPrice: Result<nat, Error>, orderData: Result<Bytes, Error>)
    : (r: Result<TxRequest, Error>)
    ensures gasPrice.Ok? && orderData.Ok? ==> (r.Err? <==> gasPrice.value > cfg.maxGasPrice)
    ensures gasPrice.Ok? && gasPrice.value > cfg.maxGasPrice ==> r == Err(GasPriceTooHigh)
    ensures r.Ok? ==>
              && gasPrice.Ok? && gasPrice.value <= cfg.maxGasPrice && orderData.Ok?
              && r.value == DefaultRequest.(to := Some(order.pair.dexAddress), value := Some(order.amount),
                                            gasPrice := Some(gasPrice.value), gas := Some(OrderGasLimit),
                                            data := Some(orderData.value))
  {
    if gasPrice.Err? then Err(gasPrice.error)
    else if gasPrice.value > cfg.maxGasPrice then Err(GasPriceTooHigh)
    else if orderData.Err? then Err(orderData.error)
    else
      Ok(TxRequest(None, Some(order.pair.dexAddress), Some(order.amount), Some(gasPrice.value),
                   Some(OrderGasLimit), Some(orderData.value), None))
  }

  /** What the `i`-th attempt of `execute_order` sees: the gas price read,
      the order calldata and what becomes of the signed request. */
  datatype OrderEnv = OrderEnv(
    gasPrice: nat -> Result<nat, Error>,
    orderData: nat -> Result<Bytes, Error>,
    submission: nat -> Submission)

  /** the request each attempt builds (`create_order_tx`) */
  function Builds(cfg: HftConfig, order: Order, env: OrderEnv): nat -> Result<TxRequest, Error> {
    (i: nat) => CreateOrderTx(cfg, order, env.gasPrice(i), env.orderData(i))
  }

  /** the outcome of each attempt (`try_execute_order`) */
  function Attempts(cfg: HftConfig, order: Order, env: OrderEnv): nat -> Result<Receipt, Error> {
    (i: nat) => SendResult(CreateOrderTx(cfg, order, env.gasPrice(i), env.orderData(i)), env.submission(i))
  }

  /** `ExecutionStats` as a value */
  datatype StatsView = StatsView(total: nat, successful: nat, failed: nat, profit: nat, gasUsed: nat) {
    predicate Balanced() {
      total == successful + failed
    }
  }

  /** `update_stats` on a value: one more trade, counted as a success (with
      its profit and the gas the receipt reports) or as a failure. */
  function Recorded(v: StatsView, success: bool, receipt: Receipt, order: Order): (w: StatsView)
    ensures w.total == v.total + 1
    ensures w.successful + w.failed == v.successful + v.failed + 1
    ensures v.Balanced() ==> w.Balanced()
    ensures success ==> w.successful == v.successful + 1 && w.failed == v.failed
                        && w.profit == v.profit + order.estimatedProfit
                        && w.gasUsed == v.gasUsed + receipt.gasUsed.GetOr(0)
    ensures !success ==> w == v.(total := v.total + 1, failed := v.failed + 1)
  {
    var counted := v.(total := v.total + 1);
    if success then
      var credited := counted.(successful := v.successful + 1, profit := v.profit + order.estimatedProfit);
      match receipt.gasUsed
      case Some(g) => credited.(gasUsed := v.gasUsed + g)
      case None => credited
    else counted.(failed := v.failed + 1)
  }

  /** `ExecutionStats`, updated in place under its lock */
  class ExecutionStats {
    var totalTrades: nat
    var successfulTrades: nat
    var failedTrades: nat
    var totalProfit: nat
    var totalGasUsed: nat

    function View(): StatsView
      reads this
    {
      StatsView(totalTrades, successfulTrades, failedTrades, totalProfit, totalGasUsed)
    }

    /** every recorded trade is either a success or a failure */
    ghost predicate Valid()
      reads this
    {
      totalTrades == successfulTrades + failedTrades
    }

    /** `ExecutionStats::default()` */
    constructor ()
      ensures Valid() && View() == StatsView(0, 0, 0, 0, 0)
    {
      totalTrades, successfulTrades, failedTrades, totalProfit, totalGasUsed := 0, 0, 0, 0, 0;
    }

    /** `update_stats` */
    method UpdateStats(success: bool, receipt: Receipt, order: Order)
      requires Valid()
      modifies this
      ensures Valid()
      ensures View() == Recorded(old(View()), success, receipt, order)
    {
      totalTrades := totalTrades + 1;
      if success {
        successfulTrades := successfulTrades + 1;
        totalProfit := totalProfit + order.estimatedProfit;
        if receipt.gasUsed.Some? {
          totalGasUsed := totalGasUsed + receipt.gasUsed.value;
        }
      } else {
        failedTrades := failedTrades + 1;
      }
    }
  }

  class HftStrategy {
    const config: HftConfig
    const nonce: Nonce.NonceAllocator
    const stats: ExecutionStats

    ghost predicate Valid()
      reads this, nonce, stats
    {
      nonce.Valid() && stats.Valid()
    }

    /** `HFTStrategy::new`, given the account's on-chain transaction count */
    constructor (config: HftConfig, onChainCount: nat)
      ensures Valid() && fresh(nonce) && fresh(stats)
      ensures this.config == config && nonce.next == onChainCount && nonce.issued == []
      ensures stats.View() == StatsView(0, 0, 0, 0, 0)
    {
      var counters := new ExecutionStats();
      var allocator := new Nonce.NonceAllocator(onChainCount);
      this.config := config;
      nonce := allocator;
      stats := counters;
    }

    /** `try_execute_order`: build the request, then send it; only a built
        request consumes a nonce. */
    method TryExecuteOrder(order: Order, env: OrderEnv, attempt: nat) returns (r: Result<Receipt, Error>)
      requires nonce.Valid()
      modifies nonce
      ensures nonce.Valid()
      ensures r == Attempts(config, order, env)(attempt)
      ensures nonce.next == old(nonce.next) + if Builds(config, order, env)(attempt).Ok? then 1 else 0
    {
      var built := CreateOrderTx(config, order, env.gasPrice(attempt), env.orderData(attempt));
      if built.Ok? {
        var signed;
        r, signed := Nonce.SendTransaction(nonce, built.value, env.submission(attempt));
      } else {
        r := Err(built.error);
      }
    }

    /** `execute_order`: at most `max_retries` attempts, stopping at the first
        success, sleeping only between attempts; the statistics record the
        order once, as a success or as a failure. Each attempt whose request
        was built consumes one nonce, whatever the network then does. */
    method ExecuteOrder(order: Order, env: OrderEnv) returns (r: Result<Receipt, Error>, trace: seq<Step>)
      requires Valid()
      modifies nonce, stats
      ensures Valid()
      ensures FirstOk(Attempts(config, order, env), config.maxRetries).Some? ==>
                var k := FirstOk(Attempts(config, order, env), config.maxRetries).value;
                && r.Ok? && r == Attempts(config, order, env)(k)
                && trace == Spaced(k + 1)
                && nonce.next == old(nonce.next) + CountOk(Builds(config, order, env), k + 1)
                && stats.View() == Recorded(old(stats.View()), true, r.value, order)
      ensures FirstOk(Attempts(config, order, env), config.maxRetries).None? ==>
                && r == Err(MaxRetriesExceeded)
                && trace == Spaced(config.maxRetries)
                && nonce.next == old(nonce.next) + CountOk(Builds(config, order, env), config.maxRetries)
                && stats.View() == Recorded(old(stats.View()), false, DefaultReceipt, order)
    {
      r, trace := RetryOrder(order, env);
      if r.Ok? {
        stats.UpdateStats(true, r.value, order);
      } else {
        stats.UpdateStats(false, DefaultReceipt, order);
      }
    }

    /** the retry loop of `execute_order`, up to the statistics update */
    method RetryOrder(order: Order, env: OrderEnv) returns (r: Result<Receipt, Error>, trace: seq<Step>)
      requires nonce.Valid()
      modifies nonce
      ensures nonce.Valid()
      ensures FirstOk(Attempts(config, order, env), config.maxRetries).Some? ==>
                var k := FirstOk(Attempts(config, order, env), config.maxRetries).value;
                && r.Ok? && r == Attempts(config, order, env)(k)
                && trace == Spaced(k + 1)
                && nonce.next == old(nonce.next) + CountOk(Builds(config, order, env), k + 1)
      ensures FirstOk(Attempts(config, order, env), config.maxRetries).None? ==>
                && r == Err(MaxRetriesExceeded)
                && trace == Spaced(config.maxRetries)
                && nonce.next == old(nonce.next) + CountOk(Builds(config, order, env), config.maxRetries)
    {
      ghost var attempts := Attempts(config, order, env);
      ghost var builds := Builds(config, order, env);
      var retries := 0;
      trace := [];
      while retries < config.maxRetries
        invariant retries <= config.maxRetries
        invariant nonce.Valid()
        invariant FirstOk(attempts, retries).None?
        invariant nonce.next == old(nonce.next) + CountOk(builds, retries)
        invariant retries < config.maxRetries ==> trace == SleepAfterEach(retries)
        invariant retries == config.maxRetries ==> trace == Spaced(retries)
      {
        var result := TryExecuteOrder(order, env, retries);
        FirstOkStep(attempts, retries);
        assert CountOk(builds, retries + 1) == CountOk(builds, retries) + if builds(retries).Ok? then 1 else 0;
        SleepAfterEachThenAttempt(retries);
        trace := trace + [Attempt(retries)];
        if result.Ok? {
          FirstOkAt(attempts, retries, config.maxRetries);
          assert result == attempts(FirstOk(attempts, config.maxRetries).value);
          return result, trace;
        }
        retries := retries + 1;
        if retries < config.maxRetries {
          trace := trace + [Sleep];
        }
      }
      r := Err(MaxRetriesExceeded);
    }
  }
}
