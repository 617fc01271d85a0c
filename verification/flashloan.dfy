/** The flash-loan strategy: the pool-by-token search with the placeholder
    profit, the strict profit gate, the request it builds and its send,
    which takes the nonce from the chain instead of a local counter.
    Calldata, gas prices, transaction counts and submissions are inputs. */
module FlashLoan {
  import opened Primitives
  import opened Transactions

  /** what `calculate_profit` answers for every pool and token */
  const PlaceholderProfit: nat := 100
  /** the amount every opportunity borrows */
  const LoanAmount: nat := 1000
  /** the gas limit of a flash-loan request */
  const FlashLoanGasLimit: nat := 200000

  datatype FlashLoanConfig = FlashLoanConfig(
    enabled: bool,
    minProfit: nat,
    maxGasPrice: nat,
    targetLendingPools: seq<Address>,
    targetBorrowTokens: seq<Address>)

  datatype FlashLoanOpportunity = FlashLoanOpportunity(lendingPool: Address, borrowToken: Address, amount: nat, estimatedProfit: nat)

  /** `Strategy::validate` */
  predicate Validate(cfg: FlashLoanConfig)
  {
    cfg.enabled && cfg.targetLendingPools != [] && cfg.targetBorrowTokens != [] && cfg.minProfit > 0
  }

  /** `calculate_profit`: a placeholder that never fails */
  function CalculateProfit(pool: Address, token: Address): (r: Result<nat, Error>)
    ensures r == Ok(PlaceholderProfit)
  {
    Ok(100)
  }

  /** `analyze_flash_loan_opportunity` with `profit` the answer of
      `calculate_profit`: an opportunity for the pool and token exactly when
      the profit is strictly above the minimum. */
  function AnalyzeFlashLoanOpportunity(cfg: FlashLoanConfig, pool: Address, token: Address, profit: Result<nat, Error>)
    : (r: Result<Option<FlashLoanOpportunity>, Error>)
    ensures r.Err? <==> profit.Err?
    ensures r.Ok? ==> (r.value.Some? <==> profit.value > cfg.minProfit)
    ensures r.Ok? && r.value.Some? ==> r.value.value == FlashLoanOpportunity(pool, token, LoanAmount, profit.value)
  {
    if profit.Err? then Err(profit.error)
    else if profit.value > cfg.minProfit then Ok(Some(FlashLoanOpportunity(pool, token, 1000, profit.value)))
    else Ok(None)
  }

  /** the opportunity the search finds for one pool and token */
  function Candidate(cfg: FlashLoanConfig, pool: Address, token: Address): seq<FlashLoanOpportunity> {
    var found := AnalyzeFlashLoanOpportunity(cfg, pool, token, CalculateProfit(pool, token));
    if found.Ok? && found.value.Some? then [found.value.value] else []
  }

  /** the opportunities for one pool, in token order */
  function Row(cfg: FlashLoanConfig, pool: Address, tokens: seq<Address>): seq<FlashLoanOpportunity> {
    if tokens == [] then []
    else Row(cfg, pool, tokens[..|tokens| - 1]) + Candidate(cfg, pool, tokens[|tokens| - 1])
  }

  /** the opportunities for every pool and token, pool by pool */
  function Grid(cfg: FlashLoanConfig, pools: seq<Address>, tokens: seq<Address>): seq<FlashLoanOpportunity> {
    if pools == [] then []
    else Grid(cfg, pools[..|pools| - 1], tokens) + Row(cfg, pools[|pools| - 1], tokens)
  }

  /** With the placeholder profit, a pool yields one opportunity per token,
      in token order, when the minimum is below the placeholder, and none
      otherwise. */
  lemma {:induction false} RowWithPlaceholder(cfg: FlashLoanConfig, pool: Address, tokens: seq<Address>)
    ensures cfg.minProfit < PlaceholderProfit ==>
              && |Row(cfg, pool, tokens)| == |tokens|
              && forall j :: 0 <= j < |tokens| ==>
                   Row(cfg, pool, tokens)[j] == FlashLoanOpportunity(pool, tokens[j], LoanAmount, PlaceholderProfit)
    ensures cfg.minProfit >= PlaceholderProfit ==> Row(cfg, pool, tokens) == []
  {
    if tokens != [] {
      RowWithPlaceholder(cfg, pool, tokens[..|tokens| - 1]);
    }
  }

  /** pool `i`, token `j` of an `n` by `width` grid lies inside it */
  lemma RowMajorBound(i: nat, j: nat, n: nat, width: nat)
    requires i < n && j < width
    ensures i * width + j < n * width
  {
    assert (i + 1) * width <= n * width;
  }

  /** one more row of `width` */
  lemma AddRow(n: nat, width: nat)
    ensures (n + 1) * width == n * width + width
  { }

  /** With a minimum below the placeholder profit, the search yields one
      opportunity per (pool, token) pair. */
  lemma {:induction false} GridLength(cfg: FlashLoanConfig, pools: seq<Address>, tokens: seq<Address>)
    requires cfg.minProfit < PlaceholderProfit
    ensures |Grid(cfg, pools, tokens)| == |pools| * |tokens|
  {
    if pools != [] {
      var n := |pools| - 1;
      GridLength(cfg, pools[..n], tokens);
      RowWithPlaceholder(cfg, pools[n], tokens);
      AddRow(n, |tokens|);
    }
  }

  /** ... and the opportunity for pool `i` and token `j` sits at
      `i * |tokens| + j`: pool-major order. */
  lemma {:induction false} GridElement(cfg: FlashLoanConfig, pools: seq<Address>, tokens: seq<Address>, i: nat, j: nat)
    requires cfg.minProfit < PlaceholderProfit
    requires i < |pools| && j < |tokens|
    ensures i * |tokens| + j < |Grid(cfg, pools, tokens)|
    ensures Grid(cfg, pools, tokens)[i * |tokens| + j] == FlashLoanOpportunity(pools[i], tokens[j], LoanAmount, PlaceholderProfit)
    decreases |pools|
  {
    var n := |pools| - 1;
    var init := pools[..n];
    assert Grid(cfg, pools, tokens) == Grid(cfg, init, tokens) + Row(cfg, pools[n], tokens);
    GridLength(cfg, init, tokens);
    RowWithPlaceholder(cfg, pools[n], tokens);
    if i < n {
      RowMajorBound(i, j, n, |tokens|);
      GridElement(cfg, init, tokens, i, j);
    } else {
      assert i * |tokens| == |Grid(cfg, init, tokens)|;
    }
  }

  /** With the placeholder profit, and pools and tokens to search, the
      search finds something exactly when the minimum is below the
      placeholder. */
  lemma GridWithPlaceholder(cfg: FlashLoanConfig, pools: seq<Address>, tokens: seq<Address>)
    requires pools != [] && tokens != []
    ensures Grid(cfg, pools, tokens) != [] <==> cfg.minProfit < PlaceholderProfit
  {
    if cfg.minProfit < PlaceholderProfit {
      GridElement(cfg, pools, tokens, 0, 0);
    } else {
      GridEmpty(cfg, pools, tokens);
    }
  }

  /** A minimum at or above the placeholder leaves the search empty. */
  lemma {:induction false} GridEmpty(cfg: FlashLoanConfig, pools: seq<Address>, tokens: seq<Address>)
    requires cfg.minProfit >= PlaceholderProfit
    ensures Grid(cfg, pools, tokens) == []
  {
    if pools != [] {
      GridEmpty(cfg, pools[..|pools| - 1], tokens);
      RowWithPlaceholder(cfg, pools[|pools| - 1], tokens);
    }
  }

  /** What `validate` guards: without pools or without tokens, which
      `validate` rejects, the search finds nothing; under a configuration it
      accepts, the search finds something exactly when the minimum is below
      the placeholder profit. */
  lemma ValidateGuardsSearch(cfg: FlashLoanConfig)
    ensures cfg.targetLendingPools == [] || cfg.targetBorrowTokens == [] ==>
              !Validate(cfg) && Grid(cfg, cfg.targetLendingPools, cfg.targetBorrowTokens) == []
    ensures Validate(cfg) ==>
              (Grid(cfg, cfg.targetLendingPools, cfg.targetBorrowTokens) != [] <==> cfg.minProfit < PlaceholderProfit)
  {
    var pools, tokens := cfg.targetLendingPools, cfg.targetBorrowTokens;
    if pools != [] && tokens != [] {
      GridWithPlaceholder(cfg, pools, tokens);
    } else if cfg.minProfit < PlaceholderProfit {
      GridLength(cfg, pools, tokens);
    } else {
      GridEmpty(cfg, pools, tokens);
    }
  }

  /** `find_opportunities`: every pool against every token, pool by pool. */
  method FindOpportunities(cfg: FlashLoanConfig) returns (r: Result<seq<FlashLoanOpportunity>, Error>)
    ensures r == Ok(Grid(cfg, cfg.targetLendingPools, cfg.targetBorrowTokens))
    ensures r.Ok? ==> forall k :: 0 <= k < |r.value| ==> r.value[k].estimatedProfit > cfg.minProfit
  {
    var pools, tokens := cfg.targetLendingPools, cfg.targetBorrowTokens;
    var opportunities: seq<FlashLoanOpportunity> := [];
    for i := 0 to |pools|
      invariant opportunities == Grid(cfg, pools[..i], tokens)
    {
      assert pools[..i + 1][..i] == pools[..i];
      opportunities := ScanTokens(cfg, pools[i], tokens, opportunities);
    }
    assert pools[..|pools|] == pools;
    GridProfits(cfg, pools, tokens);
    r := Ok(opportunities);
  }

  /** the inner loop of `find_opportunities`: one pool against every token,
      appending to what earlier pools found */
  method ScanTokens(cfg: FlashLoanConfig, pool: Address, tokens: seq<Address>, before: seq<FlashLoanOpportunity>)
    returns (opportunities: seq<FlashLoanOpportunity>)
    ensures opportunities == before + Row(cfg, pool, tokens)
  {
    opportunities := before;
    for j := 0 to |tokens|
      invariant opportunities == before + Row(cfg, pool, tokens[..j])
    {
      assert tokens[..j + 1][..j] == tokens[..j];
      var found := AnalyzeFlashLoanOpportunity(cfg, pool, tokens[j], CalculateProfit(pool, tokens[j]));
      // `calculate_profit` never fails, so the `?` never propagates
      assert found.Ok?;
      if found.value.Some? {
        opportunities := opportunities + [found.value.value];
      }
    }
    assert tokens[..|tokens|] == tokens;
  }

  /** Everything the search yields clears the profit gate. */
  lemma {:induction false} GridProfits(cfg: FlashLoanConfig, pools: seq<Address>, tokens: seq<Address>)
    ensures forall k :: 0 <= k < |Grid(cfg, pools, tokens)| ==> Grid(cfg, pools, tokens)[k].estimatedProfit > cfg.minProfit
  {
    if pools != [] {
      GridProfits(cfg, pools[..|pools| - 1], tokens);
      RowProfits(cfg, pools[|pools| - 1], tokens);
    }
  }

  lemma {:induction false} RowProfits(cfg: FlashLoanConfig, pool: Address, tokens: seq<Address>)
    ensures forall k :: 0 <= k < |Row(cfg, pool, tokens)| ==> Row(cfg, pool, tokens)[k].estimatedProfit > cfg.minProfit
  {
    if tokens != [] {
      RowProfits(cfg, pool, tokens[..|tokens| - 1]);
    }
  }

  /** What one `execute_flash_loan` signed, if it got that far, and its result. */
  datatype FlashSend = FlashSend(signed: Option<TxRequest>, result: Result<(), Error>)

  /** `execute_flash_loan`: encode the call, read the gas price, take the
      nonce from the chain's transaction count, then sign, send and check
      the receipt. Nothing is kept between two sends. */
  function ExecuteFlashLoan(opportunity: FlashLoanOpportunity, calldata: Result<Bytes, Error>, gasPrice: Result<nat, Error>,
                            chainNonce: Result<nat, Error>, submission: Submission)
    : (s: FlashSend)
    ensures s.signed.Some? <==> calldata.Ok? && gasPrice.Ok? && chainNonce.Ok?
    ensures s.signed.Some? ==>
              s.signed.value == DefaultRequest.(to := Some(opportunity.lendingPool), value := Some(0),
                                                gasPrice := Some(gasPrice.value), gas := Some(FlashLoanGasLimit),
                                                data := Some(calldata.value), nonce := Some(chainNonce.value))
    ensures s.result.Ok? <==> s.signed.Some? && CheckReceipt(submission).Ok?
  {
    if calldata.Err? then FlashSend(None, Err(calldata.error))
    else if gasPrice.Err? then FlashSend(None, Err(gasPrice.error))
    else if chainNonce.Err? then FlashSend(None, Err(chainNonce.error))
    else
      var tx := TxRequest(None, Some(opportunity.lendingPool), Some(0), Some(gasPrice.value), Some(FlashLoanGasLimit),
                          Some(calldata.value), Some(chainNonce.value));
      var receipt := CheckReceipt(submission);
      FlashSend(Some(tx), if receipt.Err? then Err(receipt.error) else Ok(()))
  }

  /** What the `k`-th flash loan of a run meets. */
  datatype FlashEnv = FlashEnv(
    calldata: nat -> Result<Bytes, Error>,
    gasPrice: nat -> Result<nat, Error>,
    chainNonce: nat -> Result<nat, Error>,
    submission: nat -> Submission)

  /** `Strategy::execute`: run every opportunity found, in order; a failed
      flash loan is only logged and the run goes on. */
  method Execute(cfg: FlashLoanConfig, env: FlashEnv)
    returns (r: Result<(), Error>, opportunities: seq<FlashLoanOpportunity>, sends: seq<FlashSend>)
    ensures r == Ok(())
    ensures opportunities == Grid(cfg, cfg.targetLendingPools, cfg.targetBorrowTokens)
    ensures |sends| == |opportunities|
    ensures forall k :: 0 <= k < |sends| ==>
              sends[k] == ExecuteFlashLoan(opportunities[k], env.calldata(k), env.gasPrice(k), env.chainNonce(k), env.submission(k))
  {
    var found := FindOpportunities(cfg);
    opportunities := found.value;
    sends := [];
    for k := 0 to |opportunities|
      invariant |sends| == k
      invariant forall m :: 0 <= m < k ==>
                  sends[m] == ExecuteFlashLoan(opportunities[m], env.calldata(m), env.gasPrice(m), env.chainNonce(m), env.submission(m))
    {
      var sent := ExecuteFlashLoan(opportunities[k], env.calldata(k), env.gasPrice(k), env.chainNonce(k), env.submission(k));
      sends := sends + [sent];
    }
    r := Ok(());
  }
}
