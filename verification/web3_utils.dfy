/** Helpers shared by the strategies: the 20% gas buffer, a plain request
    builder, the supported-network check and the generic retry loop. */
module Web3Utils {
  import opened Primitives
  import opened Transactions
  import opened Retry

  const Mainnet: nat := 1
  const Goerli: nat := 5
  const Polygon: nat := 137
  const Mumbai: nat := 80001

  /** `gas_estimate * 120 / 100`: the estimate plus a fifth of it, rounded
      down, so never below the estimate and at most 20% above it. */
  function BufferedGas(estimate: nat): (g: nat)
    ensures g == estimate + estimate / 5
    ensures estimate <= g && 5 * g <= 6 * estimate
  {
    estimate * 120 / 100
  }

  /** `TransactionUtils::estimate_gas`: the provider's estimate with the
      buffer, or the provider's error. */
  function EstimateGas(providerEstimate: Result<nat, Error>): (r: Result<nat, Error>)
    ensures providerEstimate.Err? <==> r.Err?
    ensures r.Ok? ==> providerEstimate.value <= r.value
  {
    match providerEstimate
    case Ok(e) => Ok(BufferedGas(e))
    case Err(e) => Err(e)
  }

  /** `build_transaction_request`: only `from`, `to`, `value` and `data` are
      set; every other field keeps its default. */
  function BuildTransactionRequest(from: Address, to: Address, value: nat, data: Option<Bytes>): (tx: TxRequest)
    ensures tx.from == Some(from) && tx.to == Some(to) && tx.value == Some(value) && tx.data == data
    ensures tx.(from := None, to := None, value := None, data := None) == DefaultRequest
  {
    DefaultRequest.(from := Some(from), to := Some(to), value := Some(value), data := data)
  }

  /** `ChainUtils::is_supported_network`: mainnet, Goerli, Polygon and Mumbai */
  predicate IsSupportedNetwork(chainId: nat) {
    chainId == Mainnet || chainId == Goerli || chainId == Polygon || chainId == Mumbai
  }

  /** `Web3ErrorHandler::retry_operation`: call the operation up to
      `maxRetries` times and return the first success. `operation(i)` is what
      the `i`-th call resolves to. Every failure is followed by a sleep, the
      last one included. */
  method RetryOperation<T>(operation: nat -> Result<T, Error>, maxRetries: nat)
    returns (r: Result<T, Error>, trace: seq<Step>)
    ensures FirstOk(operation, maxRetries).Some? ==>
              var k := FirstOk(operation, maxRetries).value;
              r == operation(k) && trace == SleepAfterEach(k) + [Attempt(k)]
    ensures FirstOk(operation, maxRetries).None? ==>
              r == Err(MaxRetriesExceeded) && trace == SleepAfterEach(maxRetries)
  {
    var retryCount := 0;
    trace := [];
    while retryCount < maxRetries
      invariant retryCount <= maxRetries
      invariant FirstOk(operation, retryCount).None?
      invariant trace == SleepAfterEach(retryCount)
    {
      var result := operation(retryCount);
      trace := trace + [Attempt(retryCount)];
      if result.Ok? {
        r := result;
        return;
      }
      retryCount := retryCount + 1;
      trace := trace + [Sleep];
    }
    r := Err(MaxRetriesExceeded);
  }
}
