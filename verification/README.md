# MEV bot core, modelled in Dafny

This project models the decision logic and state updates of an on-chain
opportunity bot. It also proves properties of that model. The bot's parts
are:

- a driver that builds strategies from its configuration and dispatches
  them once per block;
- five strategies: sandwich, high-frequency trading, contract monitoring,
  liquidation and flash loan;
- shared web3 helpers;
- a Chainlink-backed price oracle with a cache;
- three calldata encoders and decoders for the oracle contracts;
- the address check and file-name derivation of the deployment helpers.

Every provider or contract read is an input to the model: gas prices,
receipts, logs, transaction counts, the clock, and what signing and
sending produce. Where a loop makes repeated reads, each read is indexed by
attempt or position (`nat -> Result<..>`). The model keeps the branching,
the constants, the error cases and the state changes that sit around those
reads.

The model has these parts:

- `primitives.dfy`, `transactions.dfy`: values and errors, transaction
  requests and receipts, and the receipt check at the end of every
  `send_transaction`.
- `nonce.dfy`: the local nonce counter as a class. Numbers are handed out
  consecutively before signing, so a number is used up even when the send
  later fails.
- `retry.dfy`: retry traces (attempts and sleeps) and the first-success
  index shared by the three retry loops.
- `web3_utils.dfy`, `hft.dfy`, `monitoring.dfy`, `liquidation.dfy`,
  `flashloan.dfy`, `sandwich.dfy`, `bot.dfy`: one module per source file.
  A strategy that keeps state in place is a class: the nonce, the
  statistics, and the pending-opportunity map.
- `price_oracle.dfy`: the cache as a class field. `get_price` is specified
  by a function of the cache before the call.
- `price_feed_aggregator.dfy`, `oracle_config.dfy`, `price_feed.dfy`,
  `big_endian.dfy`: calldata built step by step by methods. Each has a
  functional encoding, a parser with a round-trip proof, and the decoders.
- `deploy_helpers.dfy`: the address regular expression, its parse and
  format round trip, the lower-cased names, and the two file updates on a
  class holding the files.

## Model

| member | source | states |
|---|---|---|
| Primitives.SaturatingSub | src/strategies/liquidation.rs:187 | the result never exceeds `a`; it is 0 once `b` reaches `a`, and otherwise it adds back to `a` |
| Transactions.CheckReceipt | src/strategies/sandwich.rs:171-180 | a send succeeds exactly when the request was mined with a non-zero status, and then returns its receipt; signing, sending and a missing receipt each give their own error; a zero or absent status is "transaction failed" |
| Nonce.ConsecutiveIsStrictlyIncreasing | src/strategies/sandwich.rs:166-169 | the nonces handed out are pairwise distinct and strictly increasing |
| Nonce.NonceAllocator.constructor | src/strategies/sandwich.rs:52-61 | the counter starts at the account's on-chain transaction count, with nothing issued |
| Nonce.NonceAllocator.Allocate | src/strategies/hft.rs:187-190 | hands out the current value and moves past it by exactly one; the value is above every earlier one and the issued list stays consecutive |
| Nonce.SendTransaction | src/strategies/monitoring.rs:188-204 | the request is stamped with the pre-increment nonce, and the counter advances by one whatever the receipt says; the result is the receipt check |
| Retry.SpacedShape | src/strategies/hft.rs:141-156 | in the between-attempts policy, attempts 0, 1, … alternate with sleeps; there is no sleep before the first attempt or after the last |
| Retry.SleepAfterEachThenAttempt | src/strategies/web3_utils.rs:236-243 | a success after `n` failures produces the same trace under both sleep policies |
| Retry.SleepAfterEachIsSpacedThenSleep | src/strategies/web3_utils.rs:239-243 | after `n > 0` failures, sleep-after-every-failure differs from sleep-between-attempts by exactly one trailing sleep |
| Retry.FirstOk | src/strategies/web3_utils.rs:236-238 | the index found is a success below the bound with only failures before it; no index means every attempt below the bound failed |
| Retry.CountOk | src/strategies/hft.rs:162-165 | the count of attempts that got past building is at most the bound, and equals it exactly when every attempt did |
| Web3Utils.BufferedGas | src/strategies/web3_utils.rs:92 | the buffered gas is the estimate plus a fifth of it, rounded down: never below the estimate and at most 20% above it |
| Web3Utils.EstimateGas | src/strategies/web3_utils.rs:82-93 | a provider error propagates; otherwise the result is at least the provider's estimate |
| Web3Utils.BuildTransactionRequest | src/strategies/web3_utils.rs:106-119 | `from`, `to`, `value` and `data` are as given, and every other field is the default |
| Web3Utils.RetryOperation | src/strategies/web3_utils.rs:226-248 | at most `max_retries` calls; returns the first success, or "max retries exceeded" (without any call when the bound is 0); sleeps after every failure, the last one included |
| Hft.ValidatedOrdersAreProfitable | src/strategies/hft.rs:285-289 | under a configuration `validate` accepts, every order `analyze_pair` proposes expects a profit above a positive minimum |
| Hft.AnalyzePair | src/strategies/hft.rs:113-136 | read errors propagate; liquidity below the floor gives no order; an order is proposed iff the profit is strictly above the minimum, and it carries the pair, side, amount, price, time, gas price and profit |
| Hft.CreateOrderTx | src/strategies/hft.rs:167-184 | with its reads successful, it fails iff the gas price is above the cap; the request sends the order amount to the pair's exchange with gas limit 300000 |
| Hft.Recorded | src/strategies/hft.rs:206-226 | one more trade, and exactly one of successful or failed grows by one, so total = successful + failed is kept; profit and gas grow only on success |
| Hft.ExecutionStats.constructor | src/strategies/hft.rs:69-77 | all counters start at zero, and the counters are balanced |
| Hft.ExecutionStats.UpdateStats | src/strategies/hft.rs:206-226 | the statistics become `Recorded` of the old ones, and total = successful + failed still holds |
| Hft.HftStrategy.constructor | src/strategies/hft.rs:80-99 | the nonce starts at the on-chain count and the statistics at zero |
| Hft.HftStrategy.TryExecuteOrder | src/strategies/hft.rs:162-165 | the attempt's result is the build followed by the send; a nonce is used only when the request was built |
| Hft.HftStrategy.RetryOrder | src/strategies/hft.rs:141-156 | stops at the first successful attempt, or fails with "max retries exceeded" after `max_retries` attempts; sleeps only between attempts; nonces used = built requests |
| Hft.HftStrategy.ExecuteOrder | src/strategies/hft.rs:138-160 | as `RetryOrder`; in addition, the statistics record the order exactly once: as a success with its receipt, or as a failure with the default receipt |
| Monitoring.UntargetedConfigBuildsNothing | src/strategies/monitoring.rs:264-268 | a configuration without target contracts is rejected by `validate`, and a strategy built from it loads no contract, so every gas estimate and request for an event fails |
| Monitoring.ContractAddresses | src/strategies/monitoring.rs:62-74 | the contract table holds exactly the configured addresses |
| Monitoring.FilterFor | src/strategies/monitoring.rs:105-112 | the range runs from the previous block, saturating at 0, to the latest block, so it never underflows and from ≤ to |
| Monitoring.FetchContractEvents | src/strategies/monitoring.rs:99-127 | read errors propagate; otherwise there is one event per log, in order; its block number is the log's own, or the latest block when the log has none |
| Monitoring.EstimateGas | src/strategies/monitoring.rs:206-219 | an unknown contract gives "contract not found"; otherwise the buffered estimate, between the estimate and 6/5 of it |
| Monitoring.CreateMonitorTx | src/strategies/monitoring.rs:169-186 | with its reads successful, it fails iff the gas price is above the cap; the request calls the event's contract with no value and a gas limit at least the estimate |
| Monitoring.ActionNonces | src/strategies/monitoring.rs:143-161 | one monitor action uses at most `max_retries` nonces |
| Monitoring.MonitoringStrategy.constructor | src/strategies/monitoring.rs:51-84 | every configured contract is loaded, and the nonce starts at the on-chain count |
| Monitoring.MonitoringStrategy.TryExecuteMonitorAction | src/strategies/monitoring.rs:163-167 | the attempt's result is the build followed by the send; a nonce is used only when the request was built |
| Monitoring.MonitoringStrategy.ExecuteMonitorAction | src/strategies/monitoring.rs:143-161 | at most `max_retries` attempts; stops at the first success, else fails with "max retries exceeded"; sleeps only between attempts |
| Monitoring.MonitoringStrategy.Execute | src/strategies/monitoring.rs:238-262 | a failed scan is the only error; otherwise every event gets its action in order, and failed actions are only logged |
| Liquidation.ValidateGuardsScan | src/strategies/liquidation.rs:295-299 | a configuration without protocols is rejected by `validate` and scans nothing; under one it accepts, every attempted liquidation promises a profit above a positive minimum |
| Liquidation.HealthFactor | src/strategies/liquidation.rs:151-169 | the health factor is infinite exactly when the debt is worth nothing |
| Liquidation.Liquidatable | src/strategies/liquidation.rs:254 | only a finite health factor can be at or below the threshold |
| Liquidation.ZeroDebtIsNeverLiquidatable | src/strategies/liquidation.rs:163-165 | a position with zero debt never passes the liquidation gate |
| Liquidation.LiquidationProfit | src/strategies/liquidation.rs:185-187 | the profit is the bonus minus 200000 × max gas price, saturating: never negative, and 0 whenever the gas cost reaches the bonus |
| Liquidation.PositionOf | src/strategies/liquidation.rs:107-135 | a fetched position keeps its borrower and amounts, and its liquidatable amount is its whole debt |
| Liquidation.PositionsFrom | src/strategies/liquidation.rs:105-138 | one position per row, in order, each liquidatable for its whole debt |
| Liquidation.PositionsFromFailureSticks | src/strategies/liquidation.rs:107-118 | a failed read ends the fetch; later rows change nothing |
| Liquidation.FetchProtocolPositions | src/strategies/liquidation.rs:95-139 | the loop returns exactly the specified fetch, and every position is liquidatable for its whole debt |
| Liquidation.CalculateLiquidationProfit | src/strategies/liquidation.rs:171-190 | succeeds iff both prices and the bonus are read; the profit is the saturating one on the bonus of debt × debt price |
| Liquidation.ExecuteLiquidation | src/strategies/liquidation.rs:207-229 | the request goes to the liquidation contract with value 0, gas 300000 and gas price = max gas price; any mined receipt is success, whatever its status |
| Liquidation.ScanPositions | src/strategies/liquidation.rs:252-289 | every liquidation attempted for a protocol is liquidatable, has profit strictly above the minimum, and targets that protocol; each position's profit reads its prices afresh, and a failed read ends the scan |
| Liquidation.ScanProtocols | src/strategies/liquidation.rs:247-290 | every liquidation attempted in the scan passed both gates and targets a configured protocol; the profit of position `j` of protocol `i` uses the profit-time reads for (`i`, `j`), which may fail or differ from the fetch-time prices |
| Liquidation.ScanFailureSticks | src/strategies/liquidation.rs:249 | a failed fetch ends the scan; later protocols change nothing |
| Liquidation.ScanPositionsFailureSticks | src/strategies/liquidation.rs:256 | a failed profit calculation ends the scan; later positions change nothing |
| Liquidation.AttemptPositions | src/strategies/liquidation.rs:252-289 | the inner loop attempts exactly the specified positions and sends each one as `execute_liquidation` does |
| Liquidation.Execute | src/strategies/liquidation.rs:245-293 | the loop's result and attempts are exactly the specified scan, with the prices re-read for each profit; every attempt passed both gates; a failed liquidation is only logged |
| FlashLoan.ValidateGuardsSearch | src/strategies/flashloan.rs:152-157 | without pools or tokens, `validate` rejects and the search finds nothing; under a configuration it accepts, the search finds something iff the minimum is below the placeholder profit |
| FlashLoan.CalculateProfit | src/strategies/flashloan.rs:124-128 | the placeholder always answers 100 |
| FlashLoan.AnalyzeFlashLoanOpportunity | src/strategies/flashloan.rs:54-72 | an opportunity exists iff the profit is strictly above the minimum; it copies the pool and token, borrows 1000 and carries the profit |
| FlashLoan.RowWithPlaceholder | src/strategies/flashloan.rs:124-128 | with the placeholder, a pool gives one opportunity per token, in order, when the minimum is below 100, and none otherwise |
| FlashLoan.GridLength | src/strategies/flashloan.rs:42-52 | with a minimum below the placeholder, there is one opportunity for every (pool, token) pair |
| FlashLoan.GridElement | src/strategies/flashloan.rs:42-52 | pool `i` with token `j` is found at `i × tokens + j`: the order is pool-major |
| FlashLoan.GridWithPlaceholder | src/strategies/flashloan.rs:124-128 | given pools and tokens, something is found iff the minimum is below 100 |
| FlashLoan.GridEmpty | src/strategies/flashloan.rs:62 | a minimum of 100 or more finds nothing |
| FlashLoan.GridProfits | src/strategies/flashloan.rs:62-71 | everything found has profit strictly above the minimum |
| FlashLoan.RowProfits | src/strategies/flashloan.rs:62-71 | everything found for one pool has profit strictly above the minimum |
| FlashLoan.ScanTokens | src/strategies/flashloan.rs:45-49 | the inner loop appends the pool's opportunities in token order |
| FlashLoan.FindOpportunities | src/strategies/flashloan.rs:42-52 | the nested loop finds exactly the pool-major search, and all of it clears the profit gate |
| FlashLoan.ExecuteFlashLoan | src/strategies/flashloan.rs:74-116 | a request is signed iff calldata, gas price and chain nonce were read; it goes to the pool with value 0, gas 200000 and the chain's count as nonce; it succeeds iff the receipt check does |
| FlashLoan.Execute | src/strategies/flashloan.rs:141-150 | every opportunity found is executed once, in order; failures are only logged and the run still succeeds |
| Bot.InitializeStrategies | src/main.rs:42-86 | the enabled strategies, each once, in the order arbitrage, liquidation, flash loan, so at most three |
| Bot.CreateExecutionContext | src/main.rs:133-144 | a gas-price error propagates; a missing block number or base fee becomes 0; the other fields are copied |
| Bot.IsProfitableMonotone | src/main.rs:146-151 | profitable means strictly above gas price × 500000 + threshold; it stays so for a higher profit or a lower gas price; exactly cost + threshold is not enough |
| Bot.StrategyPassSound | src/main.rs:96-104 | within a block, every spawn passed `validate` and the profit gate, and spawns follow strategy order |
| Bot.StrategyPassFailureSticks | src/main.rs:97-98 | an error at one strategy is the answer for the whole block |
| Bot.StrategyPassComplete | src/main.rs:96-104 | within a block without error, every strategy that passes both checks is spawned |
| Bot.DispatchFailureSticks | src/main.rs:93-94 | an error at one block ends the loop |
| Bot.DispatchSound | src/main.rs:93-105 | every spawn passed both checks at the gas price of its block, and spawns come block by block, in strategy order |
| Bot.DispatchComplete | src/main.rs:93-105 | when the loop ends without error, every strategy passing both checks at a block was spawned for it |
| Bot.SpawnedStrategiesAreValid | src/main.rs:96-98 | when the liquidation and flash-loan strategies answer `validate` from their own configuration, one is spawned only if that configuration is enabled, has targets and a positive minimum profit |
| Bot.ValidProfitableStrategySpawned | src/main.rs:96-104 | conversely, when the loop ends without error, a liquidation or flash-loan strategy whose configuration is valid is spawned at every block where its estimate passes the profit gate |
| Bot.Run | src/main.rs:88-131 | the nested loop produces exactly the specified dispatch; a stream error spawns nothing |
| PriceOracle.IsCacheValid | src/Oracle/price_oracle.rs:64-69 | an entry is valid iff the clock reads at most `cache_duration` seconds after it (inclusive); a clock error invalidates it |
| PriceOracle.FetchChainlinkPrice | src/Oracle/price_oracle.rs:49-62 | a missing feed, a failed read or a clock error is an error; the price is served iff the round is at most 3600 s old, so exactly 3600 is accepted and older is "stale" |
| PriceOracle.GetPriceSpec | src/Oracle/price_oracle.rs:33-47 | a successful lookup leaves its price cached under the token; a failed one leaves the cache unchanged |
| PriceOracle.HitSkipsFetch | src/Oracle/price_oracle.rs:35-38 | a valid cached entry is answered as it is, whatever the feeds would say |
| PriceOracle.MissFetchesAndStores | src/Oracle/price_oracle.rs:41-44 | on a miss, the fetched price is stored with the store time, replacing the old entry; a failed fetch or clock changes nothing |
| PriceOracle.OnlyTokenEntryChanges | src/Oracle/price_oracle.rs:44 | only the requested token's entry can change |
| PriceOracle.StaleRoundRejected | src/Oracle/price_oracle.rs:57-59 | a round older than 3600 s is rejected and leaves the cache unchanged; exactly 3600 s is served |
| PriceOracle.RepeatedGetHits | src/Oracle/price_oracle.rs:33-47 | after a success, a second lookup inside the window answers the same price and leaves the cache as it is |
| PriceOracle.PriceOracle.constructor | src/Oracle/price_oracle.rs:20-31 | the oracle starts with an empty cache |
| PriceOracle.PriceOracle.GetPrice | src/Oracle/price_oracle.rs:33-47 | the answer and the new cache are those of `GetPriceSpec` on the old cache |
| PriceFeedAggregator.Encoding | src/Oracle/src/price_feed_aggregator.rs:70-94 | add and remove calls are 44 bytes long, and a get call is 24 |
| PriceFeedAggregator.ParseEncoding | src/Oracle/src/price_feed_aggregator.rs:70-94 | every encoding reads back as the call that produced it |
| PriceFeedAggregator.EncodingInjective | src/Oracle/src/price_feed_aggregator.rs:70-94 | different calls never share an encoding |
| PriceFeedAggregator.SelectorTellsOperation | src/Oracle/src/price_feed_aggregator.rs:73-91 | encodings of different operations differ in their first four bytes |
| PriceFeedAggregator.EncodeAddTokenPriceFeed | src/Oracle/src/price_feed_aggregator.rs:70-77 | the bytes built are selector 00 00 00 00, then the token, then the feed |
| PriceFeedAggregator.EncodeRemoveTokenPriceFeed | src/Oracle/src/price_feed_aggregator.rs:79-86 | the bytes built are selector 00 00 00 01, then the token, then the feed |
| PriceFeedAggregator.EncodeGetTokenPriceFeed | src/Oracle/src/price_feed_aggregator.rs:88-94 | the bytes built are selector 00 00 00 02, then the token |
| PriceFeedAggregator.Chunks | src/Oracle/src/price_feed_aggregator.rs:100-103 | data of length a multiple of 20 splits into length / 20 addresses |
| PriceFeedAggregator.ChunksFlatten | src/Oracle/src/price_feed_aggregator.rs:96-105 | decoding a list of addresses laid end to end gives the list back |
| PriceFeedAggregator.FlattenChunks | src/Oracle/src/price_feed_aggregator.rs:96-105 | the decoded addresses laid end to end are the data again |
| PriceFeedAggregator.ChunkAt | src/Oracle/src/price_feed_aggregator.rs:100-103 | the `k`-th address decoded is bytes `20k .. 20k+20` |
| PriceFeedAggregator.DecodeGetTokenPriceFeed | src/Oracle/src/price_feed_aggregator.rs:96-105 | the loop decodes the first log's data into its consecutive 20-byte addresses, in order |
| OracleConfig.Encoding | src/Oracle/src/oracle_config.rs:53-68 | an update encodes to 68 bytes and a get to 36 |
| OracleConfig.Layout | src/Oracle/src/oracle_config.rs:55-66 | the selectors differ; the key is bytes 4..36 of both encodings and the value is bytes 36..68 of an update |
| OracleConfig.ParseEncoding | src/Oracle/src/oracle_config.rs:53-68 | every encoding reads back as the call that produced it |
| OracleConfig.EncodingInjective | src/Oracle/src/oracle_config.rs:53-68 | different calls never share an encoding |
| OracleConfig.EncodeUpdateConfiguration | src/Oracle/src/oracle_config.rs:53-60 | the bytes built are selector 00 00 00 00, then the key, then the value |
| OracleConfig.EncodeGetConfiguration | src/Oracle/src/oracle_config.rs:62-68 | the bytes built are selector 00 00 00 01, then the key |
| OracleConfig.DecodeGetConfiguration | src/Oracle/src/oracle_config.rs:70-75 | the configuration is the first log's 32 data bytes |
| OracleConfig.UpdatedValueDecodes | src/Oracle/src/oracle_config.rs:70-75 | a log carrying an update's value field decodes to that value |
| PriceFeed.Encoding | src/Oracle/src/price_feed.rs:53-66 | an update is the 4-byte selector and a 32-byte word; a get is the 4-byte selector alone |
| PriceFeed.Layout | src/Oracle/src/price_feed.rs:55-64 | the selectors differ, and the price is exactly the suffix after the selector |
| PriceFeed.ParseEncoding | src/Oracle/src/price_feed.rs:53-66 | every encoding reads back as the call that produced it |
| PriceFeed.EncodingInjective | src/Oracle/src/price_feed.rs:53-66 | different calls never share an encoding |
| PriceFeed.EncodeUpdatePrice | src/Oracle/src/price_feed.rs:53-59 | the bytes built are selector 00 00 00 00, then the price as a 32-byte big-endian word |
| PriceFeed.EncodeGetPrice | src/Oracle/src/price_feed.rs:61-66 | the bytes built are exactly 00 00 00 01 |
| PriceFeed.DecodeGetPrice | src/Oracle/src/price_feed.rs:68-73 | the first log's data, read big-endian, is a value a U256 holds |
| PriceFeed.UpdatedPriceDecodes | src/Oracle/src/price_feed.rs:68-73 | a log carrying the price word of an update decodes to that price |
| PriceFeed.DecodedPriceEncodes | src/Oracle/src/price_feed.rs:68-73 | a 32-byte word decodes to the price whose encoding carries that word |
| BigEndian.ToBigEndian | src/Oracle/src/price_feed.rs:57 | a value below 256^w is written in exactly `w` bytes that read back as the value |
| BigEndian.ToFromBigEndian | src/Oracle/src/price_feed.rs:71 | rewriting decoded bytes at their own width gives the bytes back |
| BigEndian.FromBigEndianInjective | src/Oracle/src/price_feed.rs:71 | two words of the same width with the same value are equal |
| Sandwich.UntargetedConfigAcceptsNothing | src/strategies/sandwich.rs:260-265 | a configuration without target exchanges or tokens is rejected by `validate`; without exchanges no pending transaction is a candidate, and without tokens none that carries input is |
| Sandwich.IsSwapMethod | src/strategies/sandwich.rs:214-220 | true exactly for selectors 38ed1739, 7ff36ab5 and 18cbafe5 |
| Sandwich.IsSandwichCandidate | src/strategies/sandwich.rs:83-120 | false without `to`, for an exchange outside the targets, or above the gas cap (the cap itself is allowed); true iff every check passes; without input the selector, token and liquidity checks are skipped |
| Sandwich.AnalyzeOpportunity | src/strategies/sandwich.rs:122-141 | succeeds iff decoding and simulation do, stamping the opportunity with the clock reading |
| Sandwich.Fresh | src/strategies/sandwich.rs:199 | keeps exactly the entries younger than 120 s (strictly), unchanged |
| Sandwich.CleanedUnderCapacityKeepsAllFresh | src/strategies/sandwich.rs:199-209 | below the capacity, cleaning keeps every fresh entry |
| Sandwich.NewestSurvives | src/strategies/sandwich.rs:201-208 | with room for one entry, the strictly newest fresh entry survives |
| Sandwich.SandwichRun | src/strategies/sandwich.rs:143-163 | the steps are a prefix of front, victim, back; the back leg is sent only after the front leg succeeded and the victim was mined; success iff every step succeeded |
| Sandwich.NoncesUsedIndependentOfStart | src/strategies/sandwich.rs:165-169 | the nonces one run uses do not depend on where the counter stands |
| Sandwich.OldestKey | src/strategies/sandwich.rs:204-205 | picks a key whose timestamp is the minimum, or none for an empty cache |
| Sandwich.SandwichStrategy.constructor | src/strategies/sandwich.rs:47-64 | the nonce starts at the on-chain count, and the cache starts empty |
| Sandwich.SandwichStrategy.CleanOldOpportunities | src/strategies/sandwich.rs:195-212 | survivors are unchanged and younger than 120 s; at most `max_pending_txs` remain and as many as fit; no evicted fresh entry is newer than a survivor |
| Sandwich.SandwichStrategy.RecordOpportunity | src/strategies/sandwich.rs:73-74 | an opportunity replaces any earlier one for the same hash, then the cache is cleaned |
| Sandwich.SandwichStrategy.ExecuteSandwich | src/strategies/sandwich.rs:143-163 | the result and steps are those of `SandwichRun`; the counter advances by the nonces that run uses |
| Sandwich.SandwichStrategy.Execute | src/strategies/sandwich.rs:240-258 | empties the cache; runs each drained opportunity once; failures are only logged; the counter advances by the nonces the runs use |
| DeployHelpers.ParseAddress | scripts/deploy_helpers.js:42 | an address is accepted iff it is `0x` followed by exactly forty hex digits of either case |
| DeployHelpers.FormatAddress | scripts/deploy_helpers.js:42 | every address has a written form the check accepts |
| DeployHelpers.ParseFormatAddress | scripts/deploy_helpers.js:42 | the written form of an address denotes that address again |
| DeployHelpers.FormatParseAddress | scripts/deploy_helpers.js:42 | any accepted spelling denotes the same address as its lower-case spelling |
| DeployHelpers.LowerAsciiIdempotent | scripts/deploy_helpers.js:39 | lower-casing twice is the same as lower-casing once |
| DeployHelpers.ConfigKey | scripts/deploy_helpers.js:50 | the key is the lower-cased name followed by exactly `ContractAddress` |
| DeployHelpers.DerivedNamesIdentifyContract | scripts/deploy_helpers.js:10-50 | two names share a config path, a config key or an ABI path iff they agree once lower-cased |
| DeployHelpers.DeploymentFiles.UpdateConfig | scripts/deploy_helpers.js:35-58 | a rejected address or an unreadable config is logged and no file changes; otherwise only the derived key of the derived config file is set; no error reaches the caller |
| DeployHelpers.DeploymentFiles.UpdateAbi | scripts/deploy_helpers.js:5-32 | a missing instance or interface is logged before any file is touched; otherwise the directory exists and the ABI is written to the derived path |
| DeployHelpers.WrittenAddressIsValid | scripts/deploy_helpers.js:47-53 | the written value is the accepted address, and every other key is unchanged |

## Left out

- Provider reads, contract calls, signing, sending, receipt waiting, log
  queries and the clock are not modelled. They are inputs to the model:
  `Result` values, or functions indexed by attempt, position or address.
- Concurrency is not modelled: the `RwLock`s, the semaphores, `tokio::spawn`,
  and the mempool and block streams. The model is sequential. A spawned
  strategy execution is recorded as a `Spawn` value rather than run. The
  block stream is a finite sequence.
- Floating point is not modelled. The finite health-factor ratio is an
  input function; only the zero-debt case is computed. The 5% liquidation
  bonus, with its round trip through `f64` and a decimal string, is an
  input. `gas_multiplier`, `max_slippage` and `price_impact_limit` are
  never read.
- Integer width is not modelled. U256 and u64 arithmetic is unbounded, so
  the overflow panics of `*`, `+` and `as_u128` are absent.
- u64 subtraction panics on underflow. Each such subtraction is guarded by
  a precondition: cache entries and feed rounds are never later than the
  clock (`NoUnderflow`), and cached opportunities are never later than the
  cleaning time (`NotFuture`).
- Functions whose body is `unimplemented!()` are inputs:
  - `simulate_sandwich`, `decode_swap_tokens`, `decode_swap_amount` and
    `check_liquidity`;
  - `get_current_price`, `get_pair_liquidity`, `calculate_opportunity` and
    `build_order_data`;
  - `encode_flash_loan_call`.
- `create_frontrun_tx` and `create_backrun_tx` are called but never defined
  in the source. They are inputs.
- Sandwich: `monitor_mempool` is modelled by one accepted opportunity,
  `RecordOpportunity`. The stream and the filtering of transactions before
  it are not.
- Sandwich: the map drain in `Strategy::execute` takes the keys in an
  unspecified order. The model proves a property for every such order.
- Sandwich: `send_transaction` treats `pending_tx.await?` as a receipt,
  although it resolves to an optional one. The missing case is modelled as
  the error `ReceiptNotFound`, as `hft.rs` does with `ok_or_else`.
- Sandwich: `input[0..4]` panics when the input is shorter than four bytes.
  `Sandwich.IsSandwichCandidate` requires the input to be at least four
  bytes long.
- Monitoring and flash loan: `send_transaction` treats the awaited optional
  receipt the same way as sandwich does.
- Monitoring: `max_retries` is not a field of `MonitoringConfig`.
  `ExecuteMonitorAction` takes it as a parameter.
- Monitoring: `scan_events` is not modelled, because it iterates a
  `HashMap`, so event order is unspecified. `Monitoring.MonitoringStrategy.Execute`
  takes the scan's result as an input.
- Monitoring: `process_event` only decodes and logs, so it is not
  modelled.
- Monitoring: ABI-file read failures in `new` are not modelled; every
  configured contract is loaded.
- Monitoring: `H256::from_slice` panics unless the topic's UTF-8 bytes
  number exactly 32. `Monitoring.FetchContractEvents` requires that
  (`Utf8Length`), counting bytes rather than characters.
- High-frequency trading: `monitor_prices` is not modelled, because it
  spawns one task per pair and collects their results concurrently.
- High-frequency trading: `Strategy::execute` is not modelled. It runs
  `ExecuteOrder` once per order and only logs the results.
- High-frequency trading: `active_orders` and `get_stats` are not
  modelled. The first is never written and the second is a plain read.
- Liquidation: every protocol's positions and prices are read through the
  first configured protocol's contracts (`target_protocols[0]` in `new`).
  In the model, `fetch(i)` is what those contracts answer during the
  fetch for protocol `i`.
- Liquidation: `execute_liquidation` takes no nonce from the local counter
  and does not inspect the receipt status. The model keeps both.
- Liquidation: an infinite `liquidation_threshold` is not modelled.
  The threshold is a finite `real`.
- Price oracle: the `LendingPool` / `AaveLendingPool` half of
  `src/Oracle/price_oracle.rs` consists only of contract calls, so it is
  not modelled.
- Oracle contracts: a receipt is modelled by the data of its logs.
  `receipt.logs[0]` panics on a receipt without logs; each decoder requires
  at least one log and the data length its conversion accepts.
- Oracle contracts: `U256::to_vec` and `U256::from_slice` are read as
  32-byte big-endian. `PriceFeed.DecodeGetPrice` accepts up to 32 bytes.
- Oracle contracts: the `add`, `remove`, `get`, `update` and
  `get_configuration` methods only wrap an encoder and a decoder in a send
  and a wait. The encoders and decoders are modelled; the wrappers are not.
- Deployment helpers: `toLowerCase` is modelled on ASCII letters only.
- IsSupportedNetwork: defined as the four chain ids, without a contract;
  nothing in the core calls it, so there is no behaviour to relate it to.
- The five strategies' `Validate` predicates are definitions without a
  contract of their own. What they guard is stated by the lemmas beside
  them and, for liquidation and flash loan, by the dispatch lemmas in
  `Bot`.
- Bot: arbitrage's `validate` is not part of this model, so it stays an
  input.
- Deployment helpers: a config file that is missing and one that fails to
  parse are the same case, an absent map entry. A file-write failure is
  not modelled.
- Deployment helpers: the ABI text written is the instance's formatted
  interface, taken as an input string. `JSON.stringify` is not modelled.
