/** The liquidation strategy: the position scan, the zero-debt case of the
    health factor, the saturating profit after the gas allowance, the two
    gates in front of a liquidation and the request it sends. The lending
    contract, the price oracle, the floating-point health ratio and the
    floating-point 5% bonus are inputs. */
module Liquidation {
  import opened Primitives
  import opened Transactions

  /** the gas allowance `calculate_liquidation_profit` subtracts, per unit of gas price */
  const ProfitGasAllowance: nat := 200000
  /** the gas limit of a liquidation request */
  const LiquidationGasLimit: nat := 300000

  datatype LendingProtocol = LendingProtocol(address: Address, name: string, liquidationContract: Address, priceFeed: Address)

  datatype LiquidationConfig = LiquidationConfig(
    enabled: bool,
    minProfit: nat,
    maxGasPrice: nat,
    targetProtocols: seq<LendingProtocol>,
    maxConcurrentLiquidations: nat,
    liquidationThreshold: real,
    maxRetries: nat)

  /** an `f64` health factor: infinite, or a finite ratio */
  datatype Health = Infinite | Finite(ratio: real)

  datatype LendingPosition = LendingPosition(
    borrower: Address,
    collateralToken: Address,
    debtToken: Address,
    collateralAmount: nat,
    debtAmount: nat,
    healthFactor: Health,
    liquidatableAmount: nat)

  datatype LiquidationOpportunity = LiquidationOpportunity(
    protocol: LendingProtocol,
    borrower: Address,
    collateralToken: Address,
    debtToken: Address,
    liquidationAmount: nat,
    healthFactor: Health,
    estimatedProfit: nat)

  /** `Strategy::validate` */
  predicate Validate(cfg: LiquidationConfig)
  {
    cfg.enabled && cfg.targetProtocols != [] && cfg.minProfit > 0
  }

  /** `calculate_health_factor`: infinite when the debt is worth nothing,
      otherwise the collateral-to-debt ratio, which `ratio` gives for the
      two values. */
  function HealthFactor(collateralAmount: nat, debtAmount: nat, collateralPrice: nat, debtPrice: nat,
                        ratio: (nat, nat) -> real)
    : (h: Health)
    ensures h.Infinite? <==> debtAmount == 0 || debtPrice == 0
  {
    var debtValue := debtAmount * debtPrice;
    if debtValue == 0 then Infinite
    else Finite(ratio(collateralAmount * collateralPrice, debtValue))
  }

  /** `health_factor <= liquidation_threshold` for a finite threshold */
  predicate Liquidatable(h: Health, threshold: real)
    ensures Liquidatable(h, threshold) ==> h.Finite?
  {
    match h
    case Infinite => false
    case Finite(r) => r <= threshold
  }

  /** A position whose debt is worth nothing is never liquidated. */
  lemma ZeroDebtIsNeverLiquidatable(collateralAmount: nat, collateralPrice: nat, debtPrice: nat,
                                    ratio: (nat, nat) -> real, threshold: real)
    ensures !Liquidatable(HealthFactor(collateralAmount, 0, collateralPrice, debtPrice, ratio), threshold)
  {
  }

  /** The profit after the gas allowance: never negative, zero whenever the
      allowance reaches the bonus. */
  function LiquidationProfit(bonus: nat, maxGasPrice: nat): (p: nat)
    ensures p <= bonus
    ensures ProfitGasAllowance * maxGasPrice >= bonus ==> p == 0
    ensures ProfitGasAllowance * maxGasPrice < bonus ==> p + ProfitGasAllowance * maxGasPrice == bonus
  {
    SaturatingSub(bonus, ProfitGasAllowance * maxGasPrice)
  }

  /** What the lending contract (the one of the first configured protocol)
      and the price oracle answer during one position fetch. */
  datatype LendingEnv = LendingEnv(
    positions: Result<seq<(Address, nat, nat)>, Error>,     // `getAllUserPositions`
    details: Address -> Result<(Address, Address, nat), Error>,  // `getUserPositionDetails`
    price: Address -> Result<nat, Error>,                   // `get_token_price`
    ratio: (nat, nat) -> real)                              // the `f64` division

  /** one row of `getAllUserPositions` turned into a position */
  function PositionOf(env: LendingEnv, row: (Address, nat, nat)): (r: Result<LendingPosition, Error>)
    ensures r.Ok? ==> r.value.borrower == row.0 && r.value.collateralAmount == row.1
                      && r.value.debtAmount == row.2 && r.value.liquidatableAmount == row.2
  {
    var details := env.details(row.0);
    if details.Err? then Err(details.error)
    else
      var collateralPrice := env.price(details.value.0);
      if collateralPrice.Err? then Err(collateralPrice.error)
      else
        var debtPrice := env.price(details.value.1);
        if debtPrice.Err? then Err(debtPrice.error)
        else
          Ok(LendingPosition(row.0, details.value.0, details.value.1, row.1, row.2,
                             HealthFactor(row.1, row.2, collateralPrice.value, debtPrice.value, env.ratio), row.2))
  }

  /** the positions of `rows`, in order, or the first failure */
  function PositionsFrom(env: LendingEnv, rows: seq<(Address, nat, nat)>): (r: Result<seq<LendingPosition>, Error>)
    ensures r.Ok? ==> |r.value| == |rows|
    ensures r.Ok? ==> forall i :: 0 <= i < |rows| ==>
              && r.value[i].borrower == rows[i].0 && r.value[i].debtAmount == rows[i].2
              && r.value[i].liquidatableAmount == r.value[i].debtAmount
  {
    if rows == [] then Ok([])
    else
      var prev := PositionsFrom(env, rows[..|rows| - 1]);
      if prev.Err? then prev
      else
        var p := PositionOf(env, rows[|rows| - 1]);
        if p.Err? then Err(p.error) else Ok(prev.value + [p.value])
  }

  /** A failure while fetching ends the fetch: later rows change nothing. */
  lemma {:induction false} PositionsFromFailureSticks(env: LendingEnv, rows: seq<(Address, nat, nat)>, j: nat)
    requires j <= |rows|
    requires PositionsFrom(env, rows[..j]).Err?
    ensures PositionsFrom(env, rows) == PositionsFrom(env, rows[..j])
    decreases |rows|
  {
    if j < |rows| {
      assert rows[..|rows| - 1][..j] == rows[..j];
      PositionsFromFailureSticks(env, rows[..|rows| - 1], j);
    } else {
      assert rows[..j] == rows;
    }
  }

  /** the answer of `fetch_protocol_positions` */
  function FetchedPositions(env: LendingEnv): Result<seq<LendingPosition>, Error> {
    if env.positions.Err? then Err(env.positions.error) else PositionsFrom(env, env.positions.value)
  }

  /** `fetch_protocol_positions`: one position per row, in order, each
      liquidatable for its whole debt; any failed read ends the fetch. */
  method FetchProtocolPositions(env: LendingEnv) returns (r: Result<seq<LendingPosition>, Error>)
    ensures r == FetchedPositions(env)
    ensures r.Ok? ==> forall i :: 0 <= i < |r.value| ==> r.value[i].liquidatableAmount == r.value[i].debtAmount
  {
    if env.positions.Err? {
      return Err(env.positions.error);
    }
    var rows := env.positions.value;
    var acc: seq<LendingPosition> := [];
    for j := 0 to |rows|
      invariant PositionsFrom(env, rows[..j]) == Ok(acc)
    {
      assert rows[..j + 1][..j] == rows[..j];
      var p := PositionOf(env, rows[j]);
      if p.Err? {
        PositionsFromFailureSticks(env, rows, j + 1);
        return Err(p.error);
      }
      acc := acc + [p.value];
    }
    assert rows[..|rows|] == rows;
    r := Ok(acc);
  }

  /** `calculate_liquidation_profit`: both prices are read (a failed read
      propagates); `bonus(v)` is the 5% bonus on the liquidation value `v`
      after its round trip through `f64` and a decimal string. */
  function CalculateLiquidationProfit(cfg: LiquidationConfig, position: LendingPosition,
                                      price: Address -> Result<nat, Error>, bonus: nat -> Result<nat, Error>)
    : (r: Result<nat, Error>)
    ensures r.Ok? <==> price(position.collateralToken).Ok? && price(position.debtToken).Ok?
                       && bonus(position.liquidatableAmount * price(position.debtToken).value).Ok?
    ensures r.Ok? ==> r.value == LiquidationProfit(bonus(position.liquidatableAmount * price(position.debtToken).value).value,
                                                   cfg.maxGasPrice)
  {
    var collateralPrice := price(position.collateralToken);
    if collateralPrice.Err? then Err(collateralPrice.error)
    else
      var debtPrice := price(position.debtToken);
      if debtPrice.Err? then Err(debtPrice.error)
      else
        var b := bonus(position.liquidatableAmount * debtPrice.value);
        if b.Err? then Err(b.error) else Ok(LiquidationProfit(b.value, cfg.maxGasPrice))
  }

  /** What `execute_liquidation` built and what came of it. */
  datatype LiquidationSend = LiquidationSend(request: Option<TxRequest>, result: Result<Receipt, Error>)

  /** `execute_liquidation`: call the protocol's liquidation contract with no
      value, the configured maximum gas price and a fixed gas limit. The
      receipt's status is not inspected; a missing receipt is an error. */
  function ExecuteLiquidation(cfg: LiquidationConfig, opportunity: LiquidationOpportunity,
                              calldata: Result<Bytes, Error>, submission: Submission)
    : (s: LiquidationSend)
    ensures s.request.Some? <==> calldata.Ok?
    ensures s.request.Some? ==>
              s.request.value == DefaultRequest.(to := Some(opportunity.protocol.liquidationContract),
                                                 value := Some(0), gasPrice := Some(cfg.maxGasPrice),
                                                 gas := Some(LiquidationGasLimit), data := Some(calldata.value))
    ensures s.result.Ok? <==> calldata.Ok? && submission.Mined?
    ensures s.result.Ok? ==> s.result.value == submission.receipt
    ensures calldata.Ok? && submission.NoReceipt? ==> s.result == Err(ReceiptNotFound)
  {
    if calldata.Err? then LiquidationSend(None, Err(calldata.error))
    else
      var tx := TxRequest(None, Some(opportunity.protocol.liquidationContract), Some(0), Some(cfg.maxGasPrice),
                          Some(LiquidationGasLimit), Some(calldata.value), None);
      LiquidationSend(Some(tx), match submission
        case SignFails => Err(SigningFailed)
        case SendFails => Err(SendFailed)
        case NoReceipt => Err(ReceiptNotFound)
        case Mined(receipt) => Ok(receipt))
  }

  /** The answers the whole scan meets: `fetch(i)` during the fetch for the
      `i`-th protocol; `profitPrice(i)(j)` for the two price reads of the
      profit calculation of its `j`-th position, which come after the
      liquidations of earlier positions and may fail or differ from the
      fetch-time prices; `bonus` for the profit; and per opportunity its
      calldata and what becomes of its signed request. */
  datatype ScanEnv = ScanEnv(
    fetch: nat -> LendingEnv,
    profitPrice: nat -> nat -> Address -> Result<nat, Error>,
    bonus: nat -> Result<nat, Error>,
    calldata: LiquidationOpportunity -> Result<Bytes, Error>,
    submission: LiquidationOpportunity -> Submission)

  /** The result of a scan and the liquidations it attempted, in order. */
  datatype Scan = Scan(result: Result<(), Error>, attempted: seq<LiquidationOpportunity>)

  /** every attempt passed both gates and targets one of `protocols` */
  ghost predicate Gated(cfg: LiquidationConfig, protocols: seq<LendingProtocol>, attempted: seq<LiquidationOpportunity>) {
    forall k :: 0 <= k < |attempted| ==>
      && Liquidatable(attempted[k].healthFactor, cfg.liquidationThreshold)
      && attempted[k].estimatedProfit > cfg.minProfit
      && attempted[k].protocol in protocols
  }

  /** the opportunity for a position that passed both gates */
  function OpportunityOf(protocol: LendingProtocol, p: LendingPosition, profit: nat): LiquidationOpportunity {
    LiquidationOpportunity(protocol, p.borrower, p.collateralToken, p.debtToken, p.liquidatableAmount, p.healthFactor, profit)
  }

  /** the inner loop of `Strategy::execute` over the positions of one
      protocol; `price(j)` answers the profit-time reads for position `j` */
  function ScanPositions(cfg: LiquidationConfig, protocol: LendingProtocol, price: nat -> Address -> Result<nat, Error>,
                         bonus: nat -> Result<nat, Error>, positions: seq<LendingPosition>)
    : (s: Scan)
    ensures Gated(cfg, [protocol], s.attempted)
    ensures |s.attempted| <= |positions|
  {
    if positions == [] then Scan(Ok(()), [])
    else
      var prev := ScanPositions(cfg, protocol, price, bonus, positions[..|positions| - 1]);
      var p := positions[|positions| - 1];
      if prev.result.Err? || !Liquidatable(p.healthFactor, cfg.liquidationThreshold) then prev
      else
        var profit := CalculateLiquidationProfit(cfg, p, price(|positions| - 1), bonus);
        if profit.Err? then Scan(Err(profit.error), prev.attempted)
        else if profit.value > cfg.minProfit then Scan(Ok(()), prev.attempted + [OpportunityOf(protocol, p, profit.value)])
        else prev
  }

  /** `Strategy::execute` over `protocols`, the configured ones in order */
  function ScanProtocols(cfg: LiquidationConfig, env: ScanEnv, protocols: seq<LendingProtocol>): (s: Scan)
    ensures Gated(cfg, protocols, s.attempted)
  {
    if protocols == [] then Scan(Ok(()), [])
    else
      var i := |protocols| - 1;
      var prev := ScanProtocols(cfg, env, protocols[..i]);
      if prev.result.Err? then prev
      else
        var positions := FetchedPositions(env.fetch(i));
        if positions.Err? then Scan(Err(positions.error), prev.attempted)
        else
          var s := ScanPositions(cfg, protocols[i], env.profitPrice(i), env.bonus, positions.value);
          Scan(s.result, prev.attempted + s.attempted)
  }

  /** A failure ends the scan: later protocols change nothing. */
  lemma {:induction false} ScanFailureSticks(cfg: LiquidationConfig, env: ScanEnv, protocols: seq<LendingProtocol>, i: nat)
    requires i <= |protocols|
    requires ScanProtocols(cfg, env, protocols[..i]).result.Err?
    ensures ScanProtocols(cfg, env, protocols) == ScanProtocols(cfg, env, protocols[..i])
    decreases |protocols|
  {
    if i < |protocols| {
      assert protocols[..|protocols| - 1][..i] == protocols[..i];
      ScanFailureSticks(cfg, env, protocols[..|protocols| - 1], i);
    } else {
      assert protocols[..i] == protocols;
    }
  }

  /** One more protocol after a scan that has not failed: its fetch, then its
      positions. */
  lemma ScanStep(cfg: LiquidationConfig, env: ScanEnv, protocols: seq<LendingProtocol>, i: nat,
                 attempted: seq<LiquidationOpportunity>)
    requires i < |protocols|
    requires ScanProtocols(cfg, env, protocols[..i]) == Scan(Ok(()), attempted)
    ensures var positions := FetchedPositions(env.fetch(i));
            && (positions.Err? ==> ScanProtocols(cfg, env, protocols[..i + 1]) == Scan(Err(positions.error), attempted))
            && (positions.Ok? ==>
                  var s := ScanPositions(cfg, protocols[i], env.profitPrice(i), env.bonus, positions.value);
                  ScanProtocols(cfg, env, protocols[..i + 1]) == Scan(s.result, attempted + s.attempted))
  {
    assert protocols[..i + 1][..i] == protocols[..i];
  }

  /** each attempted liquidation sent what `execute_liquidation` sends for it */
  ghost predicate SendsMatch(cfg: LiquidationConfig, env: ScanEnv, attempted: seq<LiquidationOpportunity>,
                             sends: seq<LiquidationSend>) {
    && |sends| == |attempted|
    && forall k :: 0 <= k < |attempted| ==>
         sends[k] == ExecuteLiquidation(cfg, attempted[k], env.calldata(attempted[k]), env.submission(attempted[k]))
  }

  /** Sends recorded for two runs, one after the other. */
  lemma SendsMatchAppend(cfg: LiquidationConfig, env: ScanEnv, a: seq<LiquidationOpportunity>, sa: seq<LiquidationSend>,
                         b: seq<LiquidationOpportunity>, sb: seq<LiquidationSend>)
    requires SendsMatch(cfg, env, a, sa) && SendsMatch(cfg, env, b, sb)
    ensures SendsMatch(cfg, env, a + b, sa + sb)
  {
    forall k | 0 <= k < |a + b|
      ensures (sa + sb)[k] == ExecuteLiquidation(cfg, (a + b)[k], env.calldata((a + b)[k]), env.submission((a + b)[k]))
    {
      if k >= |a| {
        assert (a + b)[k] == b[k - |a|] && (sa + sb)[k] == sb[k - |a|];
      }
    }
  }

  /** A failed profit calculation ends the scan of a protocol's positions. */
  lemma {:induction false} ScanPositionsFailureSticks(cfg: LiquidationConfig, protocol: LendingProtocol,
                                                      price: nat -> Address -> Result<nat, Error>, bonus: nat -> Result<nat, Error>,
                                                      positions: seq<LendingPosition>, j: nat)
    requires j <= |positions|
    requires ScanPositions(cfg, protocol, price, bonus, positions[..j]).result.Err?
    ensures ScanPositions(cfg, protocol, price, bonus, positions) == ScanPositions(cfg, protocol, price, bonus, positions[..j])
    decreases |positions|
  {
    if j < |positions| {
      assert positions[..|positions| - 1][..j] == positions[..j];
      ScanPositionsFailureSticks(cfg, protocol, price, bonus, positions[..|positions| - 1], j);
    } else {
      assert positions[..j] == positions;
    }
  }

  /** One more position after a scan that has not failed: skipped unless
      liquidatable, then its profit, then the gate. */
  lemma ScanPositionsStep(cfg: LiquidationConfig, protocol: LendingProtocol, price: nat -> Address -> Result<nat, Error>,
                          bonus: nat -> Result<nat, Error>, positions: seq<LendingPosition>, j: nat,
                          attempted: seq<LiquidationOpportunity>)
    requires j < |positions|
    requires ScanPositions(cfg, protocol, price, bonus, positions[..j]) == Scan(Ok(()), attempted)
    ensures var p := positions[j];
            var s := ScanPositions(cfg, protocol, price, bonus, positions[..j + 1]);
            var profit := CalculateLiquidationProfit(cfg, p, price(j), bonus);
            && (!Liquidatable(p.healthFactor, cfg.liquidationThreshold) ==> s == Scan(Ok(()), attempted))
            && (Liquidatable(p.healthFactor, cfg.liquidationThreshold) ==>
                  && (profit.Err? ==> s == Scan(Err(profit.error), attempted))
                  && (profit.Ok? && profit.value > cfg.minProfit ==>
                        s == Scan(Ok(()), attempted + [OpportunityOf(protocol, p, profit.value)]))
                  && (profit.Ok? && profit.value <= cfg.minProfit ==> s == Scan(Ok(()), attempted)))
  {
    assert positions[..j + 1][..j] == positions[..j];
  }

  /** The inner loop of `Strategy::execute` for one protocol: attempt every
      position that is liquidatable and profitable enough, in order. */
  method AttemptPositions(cfg: LiquidationConfig, env: ScanEnv, protocol: LendingProtocol,
                          price: nat -> Address -> Result<nat, Error>, positions: seq<LendingPosition>)
    returns (r: Result<(), Error>, attempted: seq<LiquidationOpportunity>, sends: seq<LiquidationSend>)
    ensures Scan(r, attempted) == ScanPositions(cfg, protocol, price, env.bonus, positions)
    ensures SendsMatch(cfg, env, attempted, sends)
  {
    attempted, sends := [], [];
    for j := 0 to |positions|
      invariant ScanPositions(cfg, protocol, price, env.bonus, positions[..j]) == Scan(Ok(()), attempted)
      invariant SendsMatch(cfg, env, attempted, sends)
    {
      ScanPositionsStep(cfg, protocol, price, env.bonus, positions, j, attempted);
      var position := positions[j];
      if Liquidatable(position.healthFactor, cfg.liquidationThreshold) {
        var profit := CalculateLiquidationProfit(cfg, position, price(j), env.bonus);
        if profit.Err? {
          ScanPositionsFailureSticks(cfg, protocol, price, env.bonus, positions, j + 1);
          return Err(profit.error), attempted, sends;
        }
        if profit.value > cfg.minProfit {
          var opportunity := OpportunityOf(protocol, position, profit.value);
          var sent := ExecuteLiquidation(cfg, opportunity, env.calldata(opportunity), env.submission(opportunity));
          attempted, sends := attempted + [opportunity], sends + [sent];
        }
      }
    }
    assert positions[..|positions|] == positions;
    r := Ok(());
  }

  /** `Strategy::execute`: for every protocol in order, fetch its positions
      and attempt each one that is liquidatable and profitable enough; a
      failed fetch or profit calculation ends the scan, a failed liquidation
      is only logged. `sends` holds what each attempted liquidation sent. */
  method Execute(cfg: LiquidationConfig, env: ScanEnv)
    returns (r: Result<(), Error>, attempted: seq<LiquidationOpportunity>, sends: seq<LiquidationSend>)
    ensures Scan(r, attempted) == ScanProtocols(cfg, env, cfg.targetProtocols)
    ensures Gated(cfg, cfg.targetProtocols, attempted)
    ensures SendsMatch(cfg, env, attempted, sends)
  {
    var protocols := cfg.targetProtocols;
    attempted, sends := [], [];
    for i := 0 to |protocols|
      invariant ScanProtocols(cfg, env, protocols[..i]) == Scan(Ok(()), attempted)
      invariant SendsMatch(cfg, env, attempted, sends)
    {
      ScanStep(cfg, env, protocols, i, attempted);
      var fetched := FetchProtocolPositions(env.fetch(i));
      if fetched.Err? {
        ScanFailureSticks(cfg, env, protocols, i + 1);
        return Err(fetched.error), attempted, sends;
      }
      var result, more, moreSends := AttemptPositions(cfg, env, protocols[i], env.profitPrice(i), fetched.value);
      SendsMatchAppend(cfg, env, attempted, sends, more, moreSends);
      attempted, sends := attempted + more, sends + moreSends;
      if result.Err? {
        ScanFailureSticks(cfg, env, protocols, i + 1);
        return Err(result.error), attempted, sends;
      }
      assert result.value == ();
    }
    assert protocols[..|protocols|] == protocols;
    r := Ok(());
  }

  /** What `validate` guards: a configuration without protocols, which
      `validate` rejects, scans nothing at all; under one it accepts, every
      attempted liquidation promises a profit above a positive minimum. */
  lemma ValidateGuardsScan(cfg: LiquidationConfig, env: ScanEnv)
    ensures cfg.targetProtocols == [] ==> !Validate(cfg) && ScanProtocols(cfg, env, cfg.targetProtocols) == Scan(Ok(()), [])
    ensures Validate(cfg) ==>
              var s := ScanProtocols(cfg, env, cfg.targetProtocols);
              forall k :: 0 <= k < |s.attempted| ==> s.attempted[k].estimatedProfit > cfg.minProfit > 0
  {
  }
}
