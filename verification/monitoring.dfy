/** The monitoring strategy: the block range and event records of
    `fetch_contract_events`, the gas cap and buffered gas limit of the monitor
    transaction, and the bounded retry loop around it. Block numbers, logs,
    gas prices, contract calls and submissions are inputs. */
module Monitoring {
  import opened Primitives
  import opened Transactions
  import opened Retry
  import Web3Utils
  import Nonce

  datatype MonitoredContract = MonitoredContract(address: Address, name: string, abiPath: string)

  datatype MonitoringConfig = MonitoringConfig(
    enabled: bool,
    targetContracts: seq<MonitoredContract>,
    eventTopics: seq<string>,
    maxConcurrentMonitors: nat,
    blockPollInterval: nat,
    maxGasPrice: nat)

  /** the fields of a `Log` the strategy reads */
  datatype Log = Log(blockNumber: Option<nat>, transactionHash: Option<Hash>)

  /** the filter handed to `get_logs` */
  datatype EventFilter = EventFilter(address: Address, topic0: string, fromBlock: nat, toBlock: nat)

  datatype MonitoringEvent = MonitoringEvent(
    contract: Address,
    eventTopic: string,
    blockNumber: nat,
    transactionHash: Hash,
    log: Log)

  /** `Strategy::validate` */
  predicate Validate(cfg: MonitoringConfig)
  {
    cfg.enabled && cfg.targetContracts != [] && cfg.eventTopics != []
  }

  /** the keys of the `contracts` table built by `MonitoringStrategy::new` */
  function ContractAddresses(targets: seq<MonitoredContract>): (s: set<Address>)
    ensures forall a :: a in s <==> exists i :: 0 <= i < |targets| && targets[i].address == a
  {
    if targets == [] then {}
    else ContractAddresses(targets[..|targets| - 1]) + {targets[|targets| - 1].address}
  }

  /** the filter for one contract and topic when the latest block is `latest`:
      the previous block (saturating at 0) through the latest one */
  function FilterFor(contract: Address, topic: string, latest: nat): (f: EventFilter)
    ensures f.fromBlock <= f.toBlock == latest
    ensures latest > 0 ==> f.fromBlock + 1 == latest
    ensures latest == 0 ==> f.fromBlock == 0
    ensures f.address == contract && f.topic0 == topic
  {
    EventFilter(contract, topic, SaturatingSub(latest, 1), latest)
  }

  /** the event recorded for one log */
  function EventOf(contract: Address, topic: string, latest: nat, log: Log): MonitoringEvent {
    MonitoringEvent(contract, topic, log.blockNumber.GetOr(latest), log.transactionHash.GetOr(ZeroHash()), log)
  }

  /** one event per log, in order, for `contract` and `topic`; an event
      without a block number of its own is dated at `latest` */
  ghost predicate RecordsLogs(events: seq<MonitoringEvent>, contract: Address, topic: string, latest: nat, logs: seq<Log>) {
    && |events| == |logs|
    && forall i :: 0 <= i < |logs| ==>
         && events[i].contract == contract && events[i].eventTopic == topic
         && events[i].log == logs[i]
         && events[i].blockNumber == (if logs[i].blockNumber.Some? then logs[i].blockNumber.value else latest)
         && events[i].transactionHash == logs[i].transactionHash.GetOr(ZeroHash())
  }

  /** the number of bytes a character takes in UTF-8 */
  function Utf8Width(c: char): (w: nat)
    ensures 1 <= w <= 4
    ensures c as int < 0x80 <==> w == 1
  {
    if c as int < 0x80 then 1 else if c as int < 0x800 then 2 else if c as int < 0x1_0000 then 3 else 4
  }

  /** the length of a string's UTF-8 bytes, `as_bytes().len()` */
  function Utf8Length(s: string): (n: nat)
    ensures |s| <= n <= 4 * |s|
  {
    if s == [] then 0 else Utf8Length(s[..|s| - 1]) + Utf8Width(s[|s| - 1])
  }

  /** `fetch_contract_events`: `latest` is what `get_block_number` answers
      and `getLogs` what `get_logs` answers for a filter. The filter's first
      topic is the topic string's UTF-8 bytes, converted to a 32-byte hash
      without a length check, so the topic must take exactly 32 bytes. */
  function FetchContractEvents(
    contract: Address, topic: string,
    latest: Result<nat, Error>, getLogs: EventFilter -> Result<seq<Log>, Error>)
    : (r: Result<seq<MonitoringEvent>, Error>)
    requires Utf8Length(topic) == 32
    ensures r.Ok? <==> latest.Ok? && getLogs(FilterFor(contract, topic, latest.value)).Ok?
    ensures r.Ok? ==> RecordsLogs(r.value, contract, topic, latest.value, getLogs(FilterFor(contract, topic, latest.value)).value)
  {
    if latest.Err? then Err(latest.error)
    else
      var logs := getLogs(FilterFor(contract, topic, latest.value));
      if logs.Err? then Err(logs.error)
      else Ok(seq(|logs.value|, i requires 0 <= i < |logs.value| => EventOf(contract, topic, latest.value, logs.value[i])))
  }

  /** `estimate_gas`: the contract's own estimate with the 20% buffer, for a
      contract the strategy loaded. */
  function EstimateGas(contracts: set<Address>, event: MonitoringEvent, estimate: Result<nat, Error>)
    : (r: Result<nat, Error>)
    ensures event.contract !in contracts ==> r == Err(ContractNotFound)
    ensures r.Ok? <==> event.contract in contracts && estimate.Ok?
    ensures r.Ok? ==> estimate.value <= r.value && 5 * r.value <= 6 * estimate.value
  {
    if event.contract !in contracts then Err(ContractNotFound)
    else if estimate.Err? then Err(estimate.error)
    else Ok(Web3Utils.BufferedGas(estimate.value))
  }

  /** `create_monitor_tx`: refuse a gas price above the cap, then call the
      event's contract with no value, the current gas price and the buffered
      estimate. */
  function CreateMonitorTx(
    cfg: MonitoringConfig, contracts: set<Address>, event: MonitoringEvent,
    gasPrice: Result<nat, Error>, estimate: Result<nat, Error>, calldata: Result<Bytes, Error>)
    : (r: Result<TxRequest, Error>)
    ensures gasPrice.Ok? && gasPrice.value > cfg.maxGasPrice ==> r == Err(GasPriceTooHigh)
    ensures gasPrice.Ok? && estimate.Ok? && calldata.Ok? && event.contract in contracts ==>
              (r.Err? <==> gasPrice.value > cfg.maxGasPrice)
    ensures r.Ok? ==>
              && gasPrice.Ok? && gasPrice.value <= cfg.maxGasPrice
              && event.contract in contracts && estimate.Ok? && calldata.Ok?
              && r.value == DefaultRequest.(to := Some(event.contract), value := Some(0),
                                            gasPrice := Some(gasPrice.value),
                                            gas := Some(Web3Utils.BufferedGas(estimate.value)),
                                            data := Some(calldata.value))
              && r.value.gas.value >= estimate.value
  {
    if gasPrice.Err? then Err(gasPrice.error)
    else if gasPrice.value > cfg.maxGasPrice then Err(GasPriceTooHigh)
    else
      var gas := EstimateGas(contracts, event, estimate);
      if gas.Err? then Err(gas.error)
      else if calldata.Err? then Err(calldata.error)
      else Ok(TxRequest(None, Some(event.contract), Some(0), Some(gasPrice.value), Some(gas.value),
                        Some(calldata.value), None))
  }

  /** What `validate` guards: a strategy built from a configuration without
      target contracts, which `validate` rejects, loads no contract, so no
      event can be acted on: the gas estimate and the request fail. */
  lemma UntargetedConfigBuildsNothing(
    cfg: MonitoringConfig, event: MonitoringEvent,
    gasPrice: Result<nat, Error>, estimate: Result<nat, Error>, calldata: Result<Bytes, Error>)
    requires cfg.targetContracts == []
    ensures !Validate(cfg)
    ensures EstimateGas(ContractAddresses(cfg.targetContracts), event, estimate) == Err(ContractNotFound)
    ensures CreateMonitorTx(cfg, ContractAddresses(cfg.targetContracts), event, gasPrice, estimate, calldata).Err?
  {
  }

  /** What the `i`-th attempt of `execute_monitor_action` sees. */
  datatype MonitorEnv = MonitorEnv(
    gasPrice: nat -> Result<nat, Error>,
    estimate: nat -> Result<nat, Error>,
    calldata: nat -> Result<Bytes, Error>,
    submission: nat -> Submission)

  /** the request each attempt builds */
  function Builds(cfg: MonitoringConfig, contracts: set<Address>, event: MonitoringEvent, env: MonitorEnv)
    : nat -> Result<TxRequest, Error>
  {
    (i: nat) => CreateMonitorTx(cfg, contracts, event, env.gasPrice(i), env.estimate(i), env.calldata(i))
  }

  /** the outcome of each attempt (`try_execute_monitor_action`) */
  function Attempts(cfg: MonitoringConfig, contracts: set<Address>, event: MonitoringEvent, env: MonitorEnv)
    : nat -> Result<Receipt, Error>
  {
    (i: nat) => SendResult(CreateMonitorTx(cfg, contracts, event, env.gasPrice(i), env.estimate(i), env.calldata(i)),
                           env.submission(i))
  }

  /** the nonces one `execute_monitor_action` consumes */
  function ActionNonces(cfg: MonitoringConfig, contracts: set<Address>, event: MonitoringEvent, env: MonitorEnv, maxRetries: nat)
    : (n: nat)
    ensures n <= maxRetries
  {
    var first := FirstOk(Attempts(cfg, contracts, event, env), maxRetries);
    CountOk(Builds(cfg, contracts, event, env), if first.Some? then first.value + 1 else maxRetries)
  }

  /** the nonces consumed by the monitor actions for `events`, in order */
  function EventsNonces(cfg: MonitoringConfig, contracts: set<Address>, events: seq<MonitoringEvent>,
                        envs: nat -> MonitorEnv, maxRetries: nat)
    : nat
  {
    if events == [] then 0
    else
      EventsNonces(cfg, contracts, events[..|events| - 1], envs, maxRetries)
      + ActionNonces(cfg, contracts, events[|events| - 1], envs(|events| - 1), maxRetries)
  }

  class MonitoringStrategy {
    const config: MonitoringConfig
    /** the addresses of the loaded contracts */
    const contracts: set<Address>
    const nonce: Nonce.NonceAllocator

    ghost predicate Valid()
      reads this, nonce
    {
      nonce.Valid()
    }

    /** `MonitoringStrategy::new`, given the account's on-chain transaction
        count; every configured contract is loaded */
    constructor (config: MonitoringConfig, onChainCount: nat)
      ensures Valid() && fresh(nonce)
      ensures this.config == config && contracts == ContractAddresses(config.targetContracts)
      ensures nonce.next == onChainCount
    {
      this.config := config;
      contracts := ContractAddresses(config.targetContracts);
      nonce := new Nonce.NonceAllocator(onChainCount);
    }

    /** `try_execute_monitor_action`: only a built request consumes a nonce */
    method TryExecuteMonitorAction(event: MonitoringEvent, env: MonitorEnv, attempt: nat)
      returns (r: Result<Receipt, Error>)
      requires Valid()
      modifies nonce
      ensures Valid()
      ensures r == Attempts(config, contracts, event, env)(attempt)
      ensures nonce.next == old(nonce.next) + if Builds(config, contracts, event, env)(attempt).Ok? then 1 else 0
    {
      var built := CreateMonitorTx(config, contracts, event, env.gasPrice(attempt), env.estimate(attempt), env.calldata(attempt));
      if built.Ok? {
        var signed;
        r, signed := Nonce.SendTransaction(nonce, built.value, env.submission(attempt));
      } else {
        r := Err(built.error);
      }
    }

    /** `execute_monitor_action` with the retry bound `maxRetries`: at most
        that many attempts, stopping at the first success, sleeping only
        between attempts. */
    method ExecuteMonitorAction(event: MonitoringEvent, maxRetries: nat, env: MonitorEnv)
      returns (r: Result<Receipt, Error>, trace: seq<Step>)
      requires Valid()
      modifies nonce
      ensures Valid()
      ensures nonce.next == old(nonce.next) + ActionNonces(config, contracts, event, env, maxRetries)
      ensures FirstOk(Attempts(config, contracts, event, env), maxRetries).Some? ==>
                var k := FirstOk(Attempts(config, contracts, event, env), maxRetries).value;
                r.Ok? && r == Attempts(config, contracts, event, env)(k) && trace == Spaced(k + 1)
      ensures FirstOk(Attempts(config, contracts, event, env), maxRetries).None? ==>
                r == Err(MaxRetriesExceeded) && trace == Spaced(maxRetries)
    {
      ghost var attempts := Attempts(config, contracts, event, env);
      ghost var builds := Builds(config, contracts, event, env);
      var retries := 0;
      trace := [];
      while retries < maxRetries
        invariant retries <= maxRetries
        invariant Valid()
        invariant FirstOk(attempts, retries).None?
        invariant nonce.next == old(nonce.next) + CountOk(builds, retries)
        invariant retries < maxRetries ==> trace == SleepAfterEach(retries)
        invariant retries == maxRetries ==> trace == Spaced(retries)
      {
        var result := TryExecuteMonitorAction(event, env, retries);
        FirstOkStep(attempts, retries);
        assert CountOk(builds, retries + 1) == CountOk(builds, retries) + if builds(retries).Ok? then 1 else 0;
        SleepAfterEachThenAttempt(retries);
        trace := trace + [Attempt(retries)];
        if result.Ok? {
          FirstOkAt(attempts, retries, maxRetries);
          assert result == attempts(FirstOk(attempts, maxRetries).value);
          r := result;
          return;
        }
        retries := retries + 1;
        if retries < maxRetries {
          trace := trace + [Sleep];
        }
      }
      r := Err(MaxRetriesExceeded);
    }

    /** `Strategy::execute`: a failed scan ends the run; otherwise every event
        gets its monitor action in order, and a failed action is only logged.
        `envs(i)` is what the action for the `i`-th event meets. */
    method Execute(scanned: Result<seq<MonitoringEvent>, Error>, maxRetries: nat, envs: nat -> MonitorEnv)
      returns (r: Result<(), Error>)
      requires Valid()
      modifies nonce
      ensures Valid()
      ensures r.Err? <==> scanned.Err?
      ensures scanned.Err? ==> nonce.next == old(nonce.next)
      ensures scanned.Ok? ==> nonce.next == old(nonce.next) + EventsNonces(config, contracts, scanned.value, envs, maxRetries)
    {
      if scanned.Err? {
        return Err(scanned.error);
      }
      var events := scanned.value;
      for i := 0 to |events|
        invariant Valid()
        invariant nonce.next == old(nonce.next) + EventsNonces(config, contracts, events[..i], envs, maxRetries)
      {
        var receipt, trace := ExecuteMonitorAction(events[i], maxRetries, envs(i));
        assert events[..i + 1][..i] == events[..i];
      }
      assert events[..|events|] == events;
      r := Ok(());
    }
  }
}
