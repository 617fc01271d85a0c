/** The sandwich strategy: the mempool filter, the cache of pending
    opportunities keyed by victim transaction hash (a 120-second lifetime,
    then eviction of the oldest entries down to the capacity), the two-leg
    execution around the victim and the per-block drain of the cache.
    Decoding, simulation, liquidity checks, leg construction, the clock and
    the network are inputs. */
module Sandwich {
  import opened Primitives
  import opened Transactions
  import Nonce

  /** an opportunity older than this many seconds is dropped */
  const OpportunityTtl: nat := 120

  /** `swapExactTokensForTokens`, `swapExactETHForTokens`, `swapExactTokensForETH` */
  const SwapExactTokensForTokens: Bytes := [0x38, 0xed, 0x17, 0x39]
  const SwapExactEthForTokens: Bytes := [0x7f, 0xf3, 0x6a, 0xb5]
  const SwapExactTokensForEth: Bytes := [0x18, 0xcb, 0xaf, 0xe5]

  datatype SandwichConfig = SandwichConfig(
    enabled: bool,
    minProfit: nat,
    maxGasPrice: nat,
    targetDexes: seq<Address>,
    targetTokens: seq<Address>,
    minLiquidity: nat,
    maxPendingTxs: nat)

  /** the fields of a mempool `Transaction` the strategy reads */
  datatype PendingTx = PendingTx(hash: Hash, to: Option<Address>, input: Option<Bytes>, gasPrice: Option<nat>)

  datatype SandwichOpportunity = SandwichOpportunity(
    victim: PendingTx,
    tokenIn: Address,
    tokenOut: Address,
    amountIn: nat,
    estimatedProfit: nat,
    timestamp: nat)

  /** `Strategy::validate` */
  predicate Validate(cfg: SandwichConfig)
  {
    cfg.enabled && cfg.targetDexes != [] && cfg.targetTokens != [] && cfg.minProfit > 0
  }

  /** `is_swap_method`: one of the three swap selectors */
  predicate IsSwapMethod(methodId: Bytes)
    ensures IsSwapMethod(methodId) ==> |methodId| == 4
    ensures IsSwapMethod(methodId) <==>
              methodId in {SwapExactTokensForTokens, SwapExactEthForTokens, SwapExactTokensForEth}
  {
    methodId == SwapExactTokensForTokens || methodId == SwapExactEthForTokens || methodId == SwapExactTokensForEth
  }

  /** `is_sandwich_candidate`. `decodedTokens` is what `decode_swap_tokens`
      answers for the input and `liquid` what `check_liquidity` answers for
      those tokens; both are consulted only when the transaction carries an
      input. The selector is the input's first four bytes, which the source
      slices without a length check. */
  function IsSandwichCandidate(
    cfg: SandwichConfig, tx: PendingTx,
    decodedTokens: Result<(Address, Address), Error>, liquid: Result<bool, Error>)
    : (r: Result<bool, Error>)
    requires tx.input.Some? ==> |tx.input.value| >= 4
    ensures tx.to.None? ==> r == Ok(false)
    ensures tx.to.Some? && tx.to.value !in cfg.targetDexes ==> r == Ok(false)
    ensures r.Ok? && tx.gasPrice.GetOr(0) > cfg.maxGasPrice ==> r == Ok(false)
    ensures r == Ok(true) <==>
              && tx.to.Some? && tx.to.value in cfg.targetDexes
              && tx.gasPrice.GetOr(0) <= cfg.maxGasPrice
              && (tx.input.Some? ==>
                    && IsSwapMethod(tx.input.value[..4])
                    && decodedTokens.Ok?
                    && decodedTokens.value.0 in cfg.targetTokens && decodedTokens.value.1 in cfg.targetTokens
                    && liquid == Ok(true))
    ensures tx.input.None? ==> r.Ok?
  {
    if tx.to.None? then Ok(false)
    else if tx.to.value !in cfg.targetDexes then Ok(false)
    else
      var passed: Result<bool, Error> :=
        if tx.input.None? then Ok(true)
        else if !IsSwapMethod(tx.input.value[..4]) then Ok(false)
        else if decodedTokens.Err? then Err(decodedTokens.error)
        else if decodedTokens.value.0 !in cfg.targetTokens || decodedTokens.value.1 !in cfg.targetTokens then Ok(false)
        else if liquid.Err? then Err(liquid.error)
        else liquid;
      if passed.Err? || !passed.value then passed
      else Ok(tx.gasPrice.GetOr(0) <= cfg.maxGasPrice)
  }

  /** What `validate` guards: a configuration without target exchanges,
      which `validate` rejects, accepts no pending transaction, and one
      without target tokens accepts none that carries input. */
  lemma UntargetedConfigAcceptsNothing(
    cfg: SandwichConfig, tx: PendingTx,
    decodedTokens: Result<(Address, Address), Error>, liquid: Result<bool, Error>)
    requires tx.input.Some? ==> |tx.input.value| >= 4
    requires cfg.targetDexes == [] || cfg.targetTokens == []
    ensures !Validate(cfg)
    ensures cfg.targetDexes == [] ==> IsSandwichCandidate(cfg, tx, decodedTokens, liquid) == Ok(false)
    ensures cfg.targetTokens == [] && tx.input.Some? ==> IsSandwichCandidate(cfg, tx, decodedTokens, liquid) != Ok(true)
  {
  }

  /** `analyze_opportunity`: the decoded tokens and amount and the simulated
      profit, stamped with the clock reading `now`; any failure propagates. */
  function AnalyzeOpportunity(
    tx: PendingTx, tokens: Result<(Address, Address), Error>, amount: Result<nat, Error>,
    profit: Result<nat, Error>, now: nat)
    : (r: Result<SandwichOpportunity, Error>)
    ensures r.Ok? <==> tokens.Ok? && amount.Ok? && profit.Ok?
    ensures r.Ok? ==> r.value == SandwichOpportunity(tx, tokens.value.0, tokens.value.1, amount.value, profit.value, now)
  {
    if tokens.Err? then Err(tokens.error)
    else if amount.Err? then Err(amount.error)
    else if profit.Err? then Err(profit.error)
    else Ok(SandwichOpportunity(tx, tokens.value.0, tokens.value.1, amount.value, profit.value, now))
  }

  /** every cached opportunity was stamped no later than `now` */
  ghost predicate NotFuture(m: map<Hash, SandwichOpportunity>, now: nat) {
    forall h :: h in m ==> m[h].timestamp <= now
  }

  /** the entries of `m` younger than the lifetime, unchanged */
  ghost function Fresh(m: map<Hash, SandwichOpportunity>, now: nat): (r: map<Hash, SandwichOpportunity>)
    requires NotFuture(m, now)
    ensures forall h :: h in r <==> h in m && now - m[h].timestamp < OpportunityTtl
    ensures forall h :: h in r ==> r[h] == m[h]
  {
    map h | h in m && now - m[h].timestamp < OpportunityTtl :: m[h]
  }

  function Min(a: nat, b: nat): nat {
    if a <= b then a else b
  }

  /** What `clean_old_opportunities` leaves of `before`: a sub-map of its
      fresh entries, no larger than the capacity and as large as the capacity
      allows, where no evicted fresh entry is newer than any survivor. */
  ghost predicate Cleaned(before: map<Hash, SandwichOpportunity>, after: map<Hash, SandwichOpportunity>, now: nat, cap: nat)
    requires NotFuture(before, now)
  {
    var young := Fresh(before, now);
    && (forall h :: h in after ==> h in young && after[h] == young[h])
    && |after| == Min(|young|, cap)
    && (forall e, s :: e in young && e !in after && s in after ==> young[e].timestamp <= after[s].timestamp)
  }

  /** A sub-map whose size equals the whole is the whole. */
  lemma {:induction false} SubmapOfSameSize(a: map<Hash, SandwichOpportunity>, b: map<Hash, SandwichOpportunity>)
    requires forall h :: h in a ==> h in b && a[h] == b[h]
    requires |a| == |b|
    ensures a == b
  {
    var missing := b.Keys - a.Keys;
    assert b.Keys == a.Keys + missing && a.Keys !! missing;
    assert |missing| == 0;
  }

  /** Below the capacity only the lifetime evicts: every fresh entry stays. */
  lemma CleanedUnderCapacityKeepsAllFresh(
    before: map<Hash, SandwichOpportunity>, after: map<Hash, SandwichOpportunity>, now: nat, cap: nat)
    requires NotFuture(before, now)
    requires Cleaned(before, after, now, cap)
    requires |Fresh(before, now)| <= cap
    ensures after == Fresh(before, now)
  {
    SubmapOfSameSize(after, Fresh(before, now));
  }

  /** With room for at least one entry, a fresh entry strictly newer than
      every other fresh entry always survives the cleaning. */
  lemma NewestSurvives(
    before: map<Hash, SandwichOpportunity>, after: map<Hash, SandwichOpportunity>, now: nat, cap: nat, newest: Hash)
    requires NotFuture(before, now)
    requires Cleaned(before, after, now, cap)
    requires cap >= 1
    requires newest in Fresh(before, now)
    requires forall h :: h in Fresh(before, now) && h != newest ==> before[h].timestamp < before[newest].timestamp
    ensures newest in after && after[newest] == before[newest]
  {
  }

  /** The three steps `execute_sandwich` can reach, in order. */
  datatype Event = FrontSent(nonce: nat) | VictimMined | BackSent(nonce: nat)

  /** What building, sending and waiting answer for one opportunity. */
  datatype SandwichEnv = SandwichEnv(
    frontTx: Result<TxRequest, Error>,      // `create_frontrun_tx`
    frontSubmission: Submission,
    victimWait: Result<(), Error>,          // `wait_for_transaction(victim, 1)`
    backTx: Result<TxRequest, Error>,       // `create_backrun_tx`
    backSubmission: Submission)

  /** The outcome of `execute_sandwich` when the next nonce is `n`: its
      result, the steps reached and how many nonces it consumed. */
  datatype SandwichOutcome = SandwichOutcome(result: Result<(), Error>, events: seq<Event>, noncesUsed: nat)

  /** `execute_sandwich`: front leg, then the victim, then the back leg; the
      first failure ends the run. */
  function SandwichRun(env: SandwichEnv, n: nat): (o: SandwichOutcome)
    ensures o.noncesUsed == |o.events| - (if VictimMined in o.events then 1 else 0)
    ensures o.events <= [FrontSent(n), VictimMined, BackSent(n + 1)]
    ensures VictimMined in o.events ==> env.frontTx.Ok? && CheckReceipt(env.frontSubmission).Ok?
    ensures BackSent(n + 1) in o.events ==>
              o.events == [FrontSent(n), VictimMined, BackSent(n + 1)]
              && env.frontTx.Ok? && CheckReceipt(env.frontSubmission).Ok? && env.victimWait.Ok? && env.backTx.Ok?
    ensures o.result.Ok? <==>
              env.frontTx.Ok? && CheckReceipt(env.frontSubmission).Ok? && env.victimWait.Ok?
              && env.backTx.Ok? && CheckReceipt(env.backSubmission).Ok?
  {
    if env.frontTx.Err? then SandwichOutcome(Err(env.frontTx.error), [], 0)
    else
      var front := CheckReceipt(env.frontSubmission);
      if front.Err? then SandwichOutcome(Err(front.error), [FrontSent(n)], 1)
      else if env.victimWait.Err? then SandwichOutcome(Err(env.victimWait.error), [FrontSent(n)], 1)
      else if env.backTx.Err? then SandwichOutcome(Err(env.backTx.error), [FrontSent(n), VictimMined], 1)
      else
        var back := CheckReceipt(env.backSubmission);
        SandwichOutcome(if back.Err? then Err(back.error) else Ok(()), [FrontSent(n), VictimMined, BackSent(n + 1)], 2)
  }

  /** nonces consumed by running the opportunities `order`, in order */
  function NoncesUsed(order: seq<Hash>, envs: Hash -> SandwichEnv): nat {
    if order == [] then 0
    else NoncesUsed(order[..|order| - 1], envs) + SandwichRun(envs(order[|order| - 1]), 0).noncesUsed
  }

  /** The nonces a run consumes do not depend on where the counter stands. */
  lemma NoncesUsedIndependentOfStart(env: SandwichEnv, n: nat, m: nat)
    ensures SandwichRun(env, n).noncesUsed == SandwichRun(env, m).noncesUsed
  {
  }

  /** `min_by_key(|(_, opp)| opp.timestamp)` over the cache: a key with the
      smallest timestamp, or none for an empty cache. */
  method OldestKey(m: map<Hash, SandwichOpportunity>) returns (k: Option<Hash>)
    ensures k.None? <==> m.Keys == {}
    ensures k.Some? ==> k.value in m && forall h :: h in m ==> m[k.value].timestamp <= m[h].timestamp
  {
    k := None;
    var rest := m.Keys;
    while rest != {}
      invariant rest <= m.Keys
      invariant k.None? <==> rest == m.Keys
      invariant k.Some? ==> k.value in m && forall h :: h in m && h !in rest ==> m[k.value].timestamp <= m[h].timestamp
      decreases |rest|
    {
      var h :| h in rest;
      if k.None? || m[h].timestamp < m[k.value].timestamp {
        k := Some(h);
      }
      rest := rest - {h};
    }
  }

  class SandwichStrategy {
    const config: SandwichConfig
    const nonce: Nonce.NonceAllocator
    /** `pending_txs` */
    var pending: map<Hash, SandwichOpportunity>

    ghost predicate Valid()
      reads this, nonce
    {
      nonce.Valid()
    }

    /** `SandwichStrategy::new`, given the account's on-chain transaction count */
    constructor (config: SandwichConfig, onChainCount: nat)
      ensures Valid() && fresh(nonce)
      ensures this.config == config && nonce.next == onChainCount && pending == map[]
    {
      this.config := config;
      nonce := new Nonce.NonceAllocator(onChainCount);
      pending := map[];
    }

    /** `clean_old_opportunities` with the clock reading `now`: drop every
        entry at least 120 seconds old, then remove the oldest entry as many
        times as the cache exceeds its capacity. */
    method CleanOldOpportunities(now: nat)
      requires NotFuture(pending, now)
      modifies this
      ensures Cleaned(old(pending), pending, now, config.maxPendingTxs)
      ensures forall h :: h in pending ==> h in old(pending) && pending[h] == old(pending)[h]
      ensures forall h :: h in pending ==> now - pending[h].timestamp < OpportunityTtl
      ensures |pending| <= config.maxPendingTxs
    {
      ghost var young := Fresh(pending, now);
      pending := map h | h in pending && now - pending[h].timestamp < OpportunityTtl :: pending[h];
      assert pending == young;
      if |pending| > config.maxPendingTxs {
        var excess := |pending| - config.maxPendingTxs;
        for i := 0 to excess
          invariant |pending| == |young| - i
          invariant forall h :: h in pending ==> h in young && pending[h] == young[h]
          invariant forall e, s :: e in young && e !in pending && s in pending ==>
                      young[e].timestamp <= pending[s].timestamp
        {
          var oldest := OldestKey(pending);
          if oldest.Some? {
            pending := pending - {oldest.value};
          }
        }
      }
    }

    /** `monitor_mempool` for one accepted opportunity: insert it under its
        transaction hash, replacing any earlier one for that hash, then clean. */
    method RecordOpportunity(hash: Hash, opportunity: SandwichOpportunity, now: nat)
      requires NotFuture(pending, now) && opportunity.timestamp <= now
      modifies this
      ensures NotFuture(old(pending)[hash := opportunity], now)
      ensures Cleaned(old(pending)[hash := opportunity], pending, now, config.maxPendingTxs)
      ensures hash in pending ==> pending[hash] == opportunity
    {
      pending := pending[hash := opportunity];
      CleanOldOpportunities(now);
    }

    /** `execute_sandwich`, with the next nonce at `nonce.next` */
    method ExecuteSandwich(env: SandwichEnv) returns (r: Result<(), Error>, events: seq<Event>)
      requires Valid()
      modifies nonce
      ensures Valid()
      ensures var o := SandwichRun(env, old(nonce.next));
              r == o.result && events == o.events && nonce.next == old(nonce.next) + o.noncesUsed
    {
      events := [];
      if env.frontTx.Err? {
        return Err(env.frontTx.error), events;
      }
      var frontReceipt, frontSigned := Nonce.SendTransaction(nonce, env.frontTx.value, env.frontSubmission);
      events := events + [FrontSent(frontSigned.nonce.value)];
      if frontReceipt.Err? {
        return Err(frontReceipt.error), events;
      }
      if env.victimWait.Err? {
        return Err(env.victimWait.error), events;
      }
      events := events + [VictimMined];
      if env.backTx.Err? {
        return Err(env.backTx.error), events;
      }
      var backReceipt, backSigned := Nonce.SendTransaction(nonce, env.backTx.value, env.backSubmission);
      events := events + [BackSent(backSigned.nonce.value)];
      if backReceipt.Err? {
        return Err(backReceipt.error), events;
      }
      r := Ok(());
    }

    /** `Strategy::execute`: empty the cache, then run every drained
        opportunity once, in the drain order, logging failures and going on.
        `envs(h)` is what the run of the opportunity cached under `h` meets. */
    method Execute(envs: Hash -> SandwichEnv) returns (r: Result<(), Error>, order: seq<Hash>)
      requires Valid()
      modifies this, nonce
      ensures Valid()
      ensures pending == map[]
      ensures r == Ok(())
      ensures |order| == |old(pending)|
      ensures forall h :: h in order <==> h in old(pending)
      ensures forall i, j :: 0 <= i < j < |order| ==> order[i] != order[j]
      ensures nonce.next == old(nonce.next) + NoncesUsed(order, envs)
    {
      var drained := pending;
      pending := map[];
      var rest := drained.Keys;
      order := [];
      while rest != {}
        invariant Valid()
        invariant rest <= drained.Keys
        invariant |order| + |rest| == |drained|
        invariant forall h :: h in order <==> h in drained && h !in rest
        invariant forall i, j :: 0 <= i < j < |order| ==> order[i] != order[j]
        invariant nonce.next == old(nonce.next) + NoncesUsed(order, envs)
        invariant pending == map[]
        decreases |rest|
      {
        var h :| h in rest;
        NoncesUsedIndependentOfStart(envs(h), nonce.next, 0);
        var result, events := ExecuteSandwich(envs(h));
        rest := rest - {h};
        assert (order + [h])[..|order|] == order;
        order := order + [h];
      }
      r := Ok(());
    }
  }
}
