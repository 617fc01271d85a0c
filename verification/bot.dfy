/** The bot's driver: which strategies it builds from the configuration,
    the execution context it derives from each block, the profitability gate
    and the per-block dispatch loop. The block stream, the gas price, each
    strategy's `validate` and `estimate_profit` answers are inputs; spawned
    executions are recorded, not run. */
module Bot {
  import opened Primitives
  import LiquidationStrategy = Liquidation
  import FlashLoanStrategy = FlashLoan

  /** the gas a strategy execution is estimated to use */
  const EstimatedGasUsage: nat := 500000

  /** the strategies `initialize_strategies` can build, in the order it
      considers them */
  datatype StrategyKind = Arbitrage | Liquidation | FlashLoan

  function Rank(s: StrategyKind): nat {
    match s
    case Arbitrage => 0
    case Liquidation => 1
    case FlashLoan => 2
  }

  /** the `enabled` flags of the three strategy sections of the configuration */
  datatype StrategiesConfig = StrategiesConfig(arbitrageEnabled: bool, liquidationEnabled: bool, flashLoanEnabled: bool)

  predicate Enabled(cfg: StrategiesConfig, s: StrategyKind) {
    match s
    case Arbitrage => cfg.arbitrageEnabled
    case Liquidation => cfg.liquidationEnabled
    case FlashLoan => cfg.flashLoanEnabled
  }

  /** `initialize_strategies`: the enabled strategies, each once, in the
      order arbitrage, liquidation, flash loan. */
  method InitializeStrategies(cfg: StrategiesConfig) returns (strategies: seq<StrategyKind>)
    ensures forall s :: s in strategies <==> Enabled(cfg, s)
    ensures forall i, j :: 0 <= i < j < |strategies| ==> Rank(strategies[i]) < Rank(strategies[j])
    ensures |strategies| <= 3
  {
    strategies := [];
    if cfg.arbitrageEnabled {
      strategies := strategies + [Arbitrage];
    }
    if cfg.liquidationEnabled {
      strategies := strategies + [Liquidation];
    }
    if cfg.flashLoanEnabled {
      strategies := strategies + [FlashLoan];
    }
  }

  /** the fields of a block header the context reads */
  datatype Block = Block(number: Option<nat>, timestamp: nat, baseFeePerGas: Option<nat>)

  datatype ExecutionContext = ExecutionContext(blockNumber: nat, timestamp: nat, gasPrice: nat, baseFee: nat, priorityFee: nat)

  /** `create_execution_context`: `gasPrice` is the provider's answer and
      `priorityFee` the configured one; a missing block number or base fee
      defaults to 0. */
  function CreateExecutionContext(block: Block, gasPrice: Result<nat, Error>, priorityFee: nat)
    : (r: Result<ExecutionContext, Error>)
    ensures r.Err? <==> gasPrice.Err?
    ensures r.Err? ==> r.error == gasPrice.error
    ensures r.Ok? ==>
              && r.value.gasPrice == gasPrice.value
              && r.value.timestamp == block.timestamp
              && r.value.priorityFee == priorityFee
              && (block.number.Some? ==> r.value.blockNumber == block.number.value)
              && (block.number.None? ==> r.value.blockNumber == 0)
              && (block.baseFeePerGas.Some? ==> r.value.baseFee == block.baseFeePerGas.value)
              && (block.baseFeePerGas.None? ==> r.value.baseFee == 0)
  {
    if gasPrice.Err? then Err(gasPrice.error)
    else Ok(ExecutionContext(block.number.GetOr(0), block.timestamp, gasPrice.value, block.baseFeePerGas.GetOr(0), priorityFee))
  }

  /** `is_profitable`: the profit must strictly exceed the estimated gas
      cost plus the threshold. */
  predicate IsProfitable(profit: nat, gasPrice: nat, minProfitThreshold: nat)
  {
    profit > gasPrice * EstimatedGasUsage + minProfitThreshold
  }

  /** A profitable execution pays for its gas and clears the threshold; a
      higher profit or a lower gas price keeps it profitable, and a profit of
      exactly cost plus threshold is not enough. */
  lemma IsProfitableMonotone(profit: nat, gasPrice: nat, minProfitThreshold: nat, profit': nat, gasPrice': nat)
    requires IsProfitable(profit, gasPrice, minProfitThreshold)
    requires profit' >= profit && gasPrice' <= gasPrice
    ensures profit > minProfitThreshold && profit > gasPrice * EstimatedGasUsage
    ensures IsProfitable(profit', gasPrice', minProfitThreshold)
    ensures !IsProfitable(gasPrice * EstimatedGasUsage + minProfitThreshold, gasPrice, minProfitThreshold)
  {
    assert gasPrice' * EstimatedGasUsage <= gasPrice * EstimatedGasUsage;
  }

  /** what the loop reads from outside: the gas price at each block (by
      position in the stream), the configured fees, and each strategy's
      `validate` and `estimate_profit` answers at each block (by block and
      strategy position) */
  datatype RunEnv = RunEnv(
    gasPrice: nat -> Result<nat, Error>,
    priorityFee: nat,
    minProfitThreshold: nat,
    validate: (nat, nat) -> Result<bool, Error>,
    estimateProfit: (nat, nat) -> Result<nat, Error>)

  /** an execution handed to `tokio::spawn`: the block and strategy
      positions, the strategy, and its estimated profit */
  datatype Spawn = Spawn(block: nat, position: nat, strategy: StrategyKind, estimatedProfit: nat)

  /** what the loop answers so far and the executions it spawned */
  datatype Outcome = Outcome(result: Result<(), Error>, spawned: seq<Spawn>)

  /** the first `k` strategies examined at block `b` with context `ctx` */
  function StrategyPass(env: RunEnv, strategies: seq<StrategyKind>, b: nat, ctx: ExecutionContext, k: nat): Outcome
    requires k <= |strategies|
  {
    if k == 0 then Outcome(Ok(()), [])
    else
      var prev := StrategyPass(env, strategies, b, ctx, k - 1);
      var valid := env.validate(b, k - 1);
      var profit := env.estimateProfit(b, k - 1);
      if prev.result.Err? then prev
      else if valid.Err? then Outcome(Err(valid.error), prev.spawned)
      else if !valid.value then prev
      else if profit.Err? then Outcome(Err(profit.error), prev.spawned)
      else if IsProfitable(profit.value, ctx.gasPrice, env.minProfitThreshold) then
        Outcome(Ok(()), prev.spawned + [Spawn(b, k - 1, strategies[k - 1], profit.value)])
      else prev
  }

  /** the first `n` blocks of the stream */
  function Dispatch(env: RunEnv, strategies: seq<StrategyKind>, blocks: seq<Block>, n: nat): Outcome
    requires n <= |blocks|
  {
    if n == 0 then Outcome(Ok(()), [])
    else
      var prev := Dispatch(env, strategies, blocks, n - 1);
      var ctx := CreateExecutionContext(blocks[n - 1], env.gasPrice(n - 1), env.priorityFee);
      if prev.result.Err? then prev
      else if ctx.Err? then Outcome(Err(ctx.error), prev.spawned)
      else
        var pass := StrategyPass(env, strategies, n - 1, ctx.value, |strategies|);
        Outcome(pass.result, prev.spawned + pass.spawned)
  }

  /** the conditions under which strategy `j` is spawned at block `b` */
  predicate Spawns(env: RunEnv, strategies: seq<StrategyKind>, b: nat, j: nat, profit: nat)
  {
    && j < |strategies|
    && env.gasPrice(b).Ok?
    && env.validate(b, j) == Ok(true)
    && env.estimateProfit(b, j) == Ok(profit)
    && IsProfitable(profit, env.gasPrice(b).value, env.minProfitThreshold)
  }

  /** (block, position) pairs in the order the loops visit them */
  predicate Before(s: Spawn, t: Spawn) {
    s.block < t.block || (s.block == t.block && s.position < t.position)
  }

  predicate Ordered(spawned: seq<Spawn>) {
    forall i, j :: 0 <= i < j < |spawned| ==> Before(spawned[i], spawned[j])
  }

  /** Within one block: every spawn passed `validate` and the profit gate,
      and the spawns follow strategy order. */
  lemma {:induction false} StrategyPassSound(env: RunEnv, strategies: seq<StrategyKind>, b: nat, ctx: ExecutionContext, k: nat)
    requires k <= |strategies|
    requires env.gasPrice(b) == Ok(ctx.gasPrice)
    ensures var o := StrategyPass(env, strategies, b, ctx, k);
            && Ordered(o.spawned)
            && forall s :: s in o.spawned ==>
                 s.block == b && s.position < k && s.strategy == strategies[s.position]
                 && Spawns(env, strategies, b, s.position, s.estimatedProfit)
  {
    if k > 0 {
      StrategyPassSound(env, strategies, b, ctx, k - 1);
    }
  }

  /** An error at an earlier strategy is the answer for the whole block. */
  lemma {:induction false} StrategyPassFailureSticks(env: RunEnv, strategies: seq<StrategyKind>, b: nat, ctx: ExecutionContext, k: nat, m: nat)
    requires k <= m <= |strategies|
    requires StrategyPass(env, strategies, b, ctx, k).result.Err?
    ensures StrategyPass(env, strategies, b, ctx, m) == StrategyPass(env, strategies, b, ctx, k)
    decreases m
  {
    if k < m {
      StrategyPassFailureSticks(env, strategies, b, ctx, k, m - 1);
    }
  }

  /** An error at an earlier block ends the loop. */
  lemma {:induction false} DispatchFailureSticks(env: RunEnv, strategies: seq<StrategyKind>, blocks: seq<Block>, n: nat, m: nat)
    requires n <= m <= |blocks|
    requires Dispatch(env, strategies, blocks, n).result.Err?
    ensures Dispatch(env, strategies, blocks, m) == Dispatch(env, strategies, blocks, n)
    decreases m
  {
    if n < m {
      DispatchFailureSticks(env, strategies, blocks, n, m - 1);
    }
  }

  /** Every spawned execution passed `validate` and the profit gate at the
      gas price of its block, and executions are spawned block by block, in
      strategy order within a block. */
  lemma {:induction false} DispatchSound(env: RunEnv, strategies: seq<StrategyKind>, blocks: seq<Block>, n: nat)
    requires n <= |blocks|
    ensures var o := Dispatch(env, strategies, blocks, n);
            && Ordered(o.spawned)
            && forall s :: s in o.spawned ==>
                 s.block < n && Spawns(env, strategies, s.block, s.position, s.estimatedProfit)
                 && s.strategy == strategies[s.position]
  {
    if n > 0 {
      DispatchSound(env, strategies, blocks, n - 1);
      var ctx := CreateExecutionContext(blocks[n - 1], env.gasPrice(n - 1), env.priorityFee);
      if ctx.Ok? {
        StrategyPassSound(env, strategies, n - 1, ctx.value, |strategies|);
      }
    }
  }

  /** Within one block that raised no error, every strategy that passes
      `validate` and the profit gate is spawned. */
  lemma {:induction false} StrategyPassComplete(
    env: RunEnv, strategies: seq<StrategyKind>, b: nat, ctx: ExecutionContext, k: nat, j: nat, profit: nat)
    requires k <= |strategies|
    requires env.gasPrice(b) == Ok(ctx.gasPrice)
    requires StrategyPass(env, strategies, b, ctx, k).result.Ok?
    requires j < k && Spawns(env, strategies, b, j, profit)
    ensures Spawn(b, j, strategies[j], profit) in StrategyPass(env, strategies, b, ctx, k).spawned
  {
    if j < k - 1 {
      StrategyPassComplete(env, strategies, b, ctx, k - 1, j, profit);
    }
  }

  /** When the loop ends without error, every strategy that passes
      `validate` and the profit gate at some block has been spawned for it. */
  lemma {:induction false} DispatchComplete(
    env: RunEnv, strategies: seq<StrategyKind>, blocks: seq<Block>, n: nat, b: nat, j: nat, profit: nat)
    requires n <= |blocks|
    requires Dispatch(env, strategies, blocks, n).result.Ok?
    requires b < n && Spawns(env, strategies, b, j, profit)
    ensures Spawn(b, j, strategies[j], profit) in Dispatch(env, strategies, blocks, n).spawned
  {
    if b < n - 1 {
      DispatchComplete(env, strategies, blocks, n - 1, b, j, profit);
    } else {
      var ctx := CreateExecutionContext(blocks[n - 1], env.gasPrice(n - 1), env.priorityFee);
      StrategyPassComplete(env, strategies, b, ctx.value, |strategies|, j, profit);
    }
  }

  /** the configuration sections of the two dispatched strategies whose
      `validate` this model defines; arbitrage's `validate` is not part of
      the model and stays an input */
  datatype StrategyConfigs = StrategyConfigs(
    liquidation: LiquidationStrategy.LiquidationConfig,
    flashLoan: FlashLoanStrategy.FlashLoanConfig)

  /** `env` answers `validate` as the built strategies do: the liquidation
      and flash-loan strategies check their own configuration sections, at
      every block, and never fail */
  ghost predicate ValidatesConfigs(env: RunEnv, strategies: seq<StrategyKind>, configs: StrategyConfigs) {
    forall b: nat, j: nat :: j < |strategies| ==>
      && (strategies[j] == Liquidation ==> env.validate(b, j) == Ok(LiquidationStrategy.Validate(configs.liquidation)))
      && (strategies[j] == FlashLoan ==> env.validate(b, j) == Ok(FlashLoanStrategy.Validate(configs.flashLoan)))
  }

  /** With `validate` answered by the strategies' own configurations, a
      liquidation execution is spawned only for an enabled configuration
      with protocols and a positive minimum profit, and a flash-loan
      execution only for an enabled one with pools, tokens and a positive
      minimum profit. */
  lemma SpawnedStrategiesAreValid(
    env: RunEnv, strategies: seq<StrategyKind>, blocks: seq<Block>, n: nat, configs: StrategyConfigs)
    requires n <= |blocks|
    requires ValidatesConfigs(env, strategies, configs)
    ensures forall s :: s in Dispatch(env, strategies, blocks, n).spawned && s.strategy == Liquidation ==>
              && configs.liquidation.enabled && configs.liquidation.targetProtocols != []
              && configs.liquidation.minProfit > 0
    ensures forall s :: s in Dispatch(env, strategies, blocks, n).spawned && s.strategy == FlashLoan ==>
              && configs.flashLoan.enabled && configs.flashLoan.targetLendingPools != []
              && configs.flashLoan.targetBorrowTokens != [] && configs.flashLoan.minProfit > 0
  {
    DispatchSound(env, strategies, blocks, n);
  }

  /** Conversely, when the loop ends without error, a liquidation or
      flash-loan strategy whose configuration `validate` accepts is spawned
      at every block where its estimated profit passes the gate. */
  lemma ValidProfitableStrategySpawned(
    env: RunEnv, strategies: seq<StrategyKind>, blocks: seq<Block>, n: nat, configs: StrategyConfigs,
    b: nat, j: nat, profit: nat)
    requires n <= |blocks|
    requires ValidatesConfigs(env, strategies, configs)
    requires Dispatch(env, strategies, blocks, n).result.Ok?
    requires b < n && j < |strategies|
    requires strategies[j] == Liquidation ==> LiquidationStrategy.Validate(configs.liquidation)
    requires strategies[j] == FlashLoan ==> FlashLoanStrategy.Validate(configs.flashLoan)
    requires strategies[j] != Arbitrage
    requires env.gasPrice(b).Ok? && env.estimateProfit(b, j) == Ok(profit)
    requires IsProfitable(profit, env.gasPrice(b).value, env.minProfitThreshold)
    ensures Spawn(b, j, strategies[j], profit) in Dispatch(env, strategies, blocks, n).spawned
  {
    assert env.validate(b, j) == Ok(true);
    DispatchComplete(env, strategies, blocks, n, b, j, profit);
  }

  /** `run`: for each block of the stream, build its context, then examine
      the strategies in order; one that passes `validate` and whose
      estimated profit passes `is_profitable` is spawned. Any `?` error ends
      the loop; `stream` is what `subscribe_blocks` answers, taken as
      finite. */
  method Run(strategies: seq<StrategyKind>, stream: Result<seq<Block>, Error>, env: RunEnv)
    returns (r: Result<(), Error>, spawned: seq<Spawn>)
    ensures stream.Err? ==> r == Err(stream.error) && spawned == []
    ensures stream.Ok? ==> Outcome(r, spawned) == Dispatch(env, strategies, stream.value, |stream.value|)
  {
    spawned := [];
    if stream.Err? {
      return Err(stream.error), spawned;
    }
    var blocks := stream.value;
    for b := 0 to |blocks|
      invariant Dispatch(env, strategies, blocks, b) == Outcome(Ok(()), spawned)
    {
      var context := CreateExecutionContext(blocks[b], env.gasPrice(b), env.priorityFee);
      if context.Err? {
        DispatchFailureSticks(env, strategies, blocks, b + 1, |blocks|);
        return Err(context.error), spawned;
      }
      ghost var before, inBlock := spawned, [];
      for j := 0 to |strategies|
        invariant StrategyPass(env, strategies, b, context.value, j) == Outcome(Ok(()), inBlock)
        invariant spawned == before + inBlock
      {
        var valid := env.validate(b, j);
        if valid.Err? {
          StrategyPassFailureSticks(env, strategies, b, context.value, j + 1, |strategies|);
          DispatchFailureSticks(env, strategies, blocks, b + 1, |blocks|);
          return Err(valid.error), spawned;
        }
        if valid.value {
          var estimatedProfit := env.estimateProfit(b, j);
          if estimatedProfit.Err? {
            StrategyPassFailureSticks(env, strategies, b, context.value, j + 1, |strategies|);
            DispatchFailureSticks(env, strategies, blocks, b + 1, |blocks|);
            return Err(estimatedProfit.error), spawned;
          }
          if IsProfitable(estimatedProfit.value, context.value.gasPrice, env.minProfitThreshold) {
            spawned := spawned + [Spawn(b, j, strategies[j], estimatedProfit.value)];
            inBlock := inBlock + [Spawn(b, j, strategies[j], estimatedProfit.value)];
          }
        }
      }
    }
    r := Ok(());
  }
}
