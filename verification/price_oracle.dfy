/** The price oracle: a token-to-(price, timestamp) cache in front of the
    Chainlink feeds, with an inclusive validity window and a rejection of
    rounds older than an hour. The feed reads and the three clock readings
    `get_price` may take are inputs. */
module PriceOracle {
  import opened Primitives

  /** a round older than this many seconds is stale */
  const StalenessLimit: nat := 3600

  /** the two fields of `latest_round_data` the oracle reads */
  datatype RoundData = RoundData(price: nat, updatedAt: nat)

  /** one cache entry: the price and the second it was stored */
  datatype CacheEntry = CacheEntry(price: nat, timestamp: nat)

  /** The clock readings one `get_price` call may take, in the order it takes
      them: in `is_cache_valid`, in the staleness check of
      `fetch_chainlink_price`, and for the new entry's timestamp. `None` is a
      clock before the epoch. */
  datatype Clock = Clock(atCheck: Option<nat>, atFetch: Option<nat>, atStore: Option<nat>)

  /** `is_cache_valid`: the entry is still valid at `now` when at most
      `cacheDuration` seconds have passed; a clock error invalidates it. */
  function IsCacheValid(timestamp: nat, now: Option<nat>, cacheDuration: nat): (b: bool)
    requires now.Some? ==> timestamp <= now.value
    ensures b <==> now.Some? && now.value <= timestamp + cacheDuration
    ensures now.None? ==> !b
  {
    match now
    case None => false
    case Some(t) => t - timestamp <= cacheDuration
  }

  /** `u64` subtraction panics on underflow: the clock is never behind a
      stored entry or a feed round. */
  predicate NoUnderflow(
    cache: map<Address, CacheEntry>, feeds: map<Address, Address>, token: Address,
    clock: Clock, round: Address -> Result<RoundData, Error>)
  {
    && (token in cache && clock.atCheck.Some? ==> cache[token].timestamp <= clock.atCheck.value)
    && (token in feeds && round(feeds[token]).Ok? && clock.atFetch.Some? ==>
          round(feeds[token]).value.updatedAt <= clock.atFetch.value)
  }

  /** `fetch_chainlink_price`: `round` answers `latest_round_data` for a feed
      address. A missing feed, a failed read, a failed clock and a round more
      than an hour old are errors; an age of exactly an hour is accepted. */
  function FetchChainlinkPrice(
    feeds: map<Address, Address>, token: Address, round: Address -> Result<RoundData, Error>, now: Option<nat>)
    : (r: Result<nat, Error>)
    requires token in feeds && round(feeds[token]).Ok? && now.Some? ==>
               round(feeds[token]).value.updatedAt <= now.value
    ensures token !in feeds ==> r == Err(NoPriceFeed)
    ensures token in feeds && round(feeds[token]).Err? ==> r == Err(round(feeds[token]).error)
    ensures token in feeds && round(feeds[token]).Ok? && now.None? ==> r == Err(ClockFailed)
    ensures r.Ok? <==>
              && token in feeds && round(feeds[token]).Ok? && now.Some?
              && now.value <= round(feeds[token]).value.updatedAt + StalenessLimit
    ensures r.Ok? ==> r.value == round(feeds[token]).value.price
    ensures r.Err? && token in feeds && round(feeds[token]).Ok? && now.Some? ==> r == Err(StalePrice)
  {
    if token !in feeds then Err(NoPriceFeed)
    else
      var data := round(feeds[token]);
      if data.Err? then Err(data.error)
      else if now.None? then Err(ClockFailed)
      else if now.value - data.value.updatedAt > 3600 then Err(StalePrice)
      else Ok(data.value.price)
  }

  /** what one `get_price` answers and the cache it leaves */
  datatype Lookup = Lookup(result: Result<nat, Error>, cache: map<Address, CacheEntry>)

  /** the cache holds a valid entry for the token at the first clock reading */
  predicate Hit(cache: map<Address, CacheEntry>, token: Address, now: Option<nat>, cacheDuration: nat)
    requires token in cache && now.Some? ==> cache[token].timestamp <= now.value
  {
    token in cache && IsCacheValid(cache[token].timestamp, now, cacheDuration)
  }

  /** `get_price` as a function of the cache before the call */
  function GetPriceSpec(
    cache: map<Address, CacheEntry>, feeds: map<Address, Address>, cacheDuration: nat,
    token: Address, clock: Clock, round: Address -> Result<RoundData, Error>)
    : (l: Lookup)
    requires NoUnderflow(cache, feeds, token, clock, round)
    ensures l.result.Ok? ==> token in l.cache && l.cache[token].price == l.result.value
    ensures l.result.Err? ==> l.cache == cache
  {
    if Hit(cache, token, clock.atCheck, cacheDuration) then Lookup(Ok(cache[token].price), cache)
    else
      var fetched := FetchChainlinkPrice(feeds, token, round, clock.atFetch);
      if fetched.Err? then Lookup(fetched, cache)
      else if clock.atStore.None? then Lookup(Err(ClockFailed), cache)
      else Lookup(fetched, cache[token := CacheEntry(fetched.value, clock.atStore.value)])
  }

  /** A valid cached entry is answered without consulting the feeds: the
      answer is the cached price whatever the feed would say. */
  lemma HitSkipsFetch(
    cache: map<Address, CacheEntry>, feeds: map<Address, Address>, cacheDuration: nat,
    token: Address, clock: Clock, round: Address -> Result<RoundData, Error>,
    otherFeeds: map<Address, Address>, otherRound: Address -> Result<RoundData, Error>)
    requires NoUnderflow(cache, feeds, token, clock, round)
    requires NoUnderflow(cache, otherFeeds, token, clock, otherRound)
    requires token in cache && clock.atCheck.Some?
    requires clock.atCheck.value <= cache[token].timestamp + cacheDuration
    ensures GetPriceSpec(cache, feeds, cacheDuration, token, clock, round)
            == GetPriceSpec(cache, otherFeeds, cacheDuration, token, clock, otherRound)
            == Lookup(Ok(cache[token].price), cache)
  { }

  /** On a miss the fetched price is stored under the token with the store
      time, replacing any earlier entry; a failed fetch or clock leaves the
      cache as it was. */
  lemma MissFetchesAndStores(
    cache: map<Address, CacheEntry>, feeds: map<Address, Address>, cacheDuration: nat,
    token: Address, clock: Clock, round: Address -> Result<RoundData, Error>)
    requires NoUnderflow(cache, feeds, token, clock, round)
    requires !Hit(cache, token, clock.atCheck, cacheDuration)
    ensures var l := GetPriceSpec(cache, feeds, cacheDuration, token, clock, round);
            var fetched := FetchChainlinkPrice(feeds, token, round, clock.atFetch);
            && (fetched.Err? ==> l == Lookup(fetched, cache))
            && (fetched.Ok? && clock.atStore.None? ==> l == Lookup(Err(ClockFailed), cache))
            && (fetched.Ok? && clock.atStore.Some? ==>
                  l == Lookup(fetched, cache[token := CacheEntry(fetched.value, clock.atStore.value)]))
  { }

  /** `get_price` writes at most the requested token's entry. */
  lemma OnlyTokenEntryChanges(
    cache: map<Address, CacheEntry>, feeds: map<Address, Address>, cacheDuration: nat,
    token: Address, clock: Clock, round: Address -> Result<RoundData, Error>, other: Address)
    requires NoUnderflow(cache, feeds, token, clock, round)
    requires other != token
    ensures var after := GetPriceSpec(cache, feeds, cacheDuration, token, clock, round).cache;
            && (other in after <==> other in cache)
            && (other in cache ==> after[other] == cache[other])
  { }

  /** A stale round is rejected and leaves the cache unchanged; a round
      exactly an hour old is still served. */
  lemma StaleRoundRejected(
    cache: map<Address, CacheEntry>, feeds: map<Address, Address>, cacheDuration: nat,
    token: Address, clock: Clock, round: Address -> Result<RoundData, Error>)
    requires NoUnderflow(cache, feeds, token, clock, round)
    requires !Hit(cache, token, clock.atCheck, cacheDuration)
    requires token in feeds && round(feeds[token]).Ok? && clock.atFetch.Some?
    ensures clock.atFetch.value > round(feeds[token]).value.updatedAt + StalenessLimit ==>
              GetPriceSpec(cache, feeds, cacheDuration, token, clock, round) == Lookup(Err(StalePrice), cache)
    ensures clock.atFetch.value == round(feeds[token]).value.updatedAt + StalenessLimit && clock.atStore.Some? ==>
              GetPriceSpec(cache, feeds, cacheDuration, token, clock, round).result == Ok(round(feeds[token]).value.price)
  { }

  /** After a successful `get_price`, a second call whose first clock reading
      is still within the window of the entry answers the same price without
      fetching. */
  lemma {:induction false} RepeatedGetHits(
    cache: map<Address, CacheEntry>, feeds: map<Address, Address>, cacheDuration: nat,
    token: Address, clock: Clock, round: Address -> Result<RoundData, Error>,
    later: Clock, laterRound: Address -> Result<RoundData, Error>)
    requires NoUnderflow(cache, feeds, token, clock, round)
    requires GetPriceSpec(cache, feeds, cacheDuration, token, clock, round).result.Ok?
    requires var after := GetPriceSpec(cache, feeds, cacheDuration, token, clock, round).cache;
             NoUnderflow(after, feeds, token, later, laterRound)
    requires later.atCheck.Some?
    requires var after := GetPriceSpec(cache, feeds, cacheDuration, token, clock, round).cache;
             token in after && later.atCheck.value <= after[token].timestamp + cacheDuration
    ensures var first := GetPriceSpec(cache, feeds, cacheDuration, token, clock, round);
            GetPriceSpec(first.cache, feeds, cacheDuration, token, later, laterRound) == first
  {
    var first := GetPriceSpec(cache, feeds, cacheDuration, token, clock, round);
    assert first.cache[token].price == first.result.value;
    HitSkipsFetch(first.cache, feeds, cacheDuration, token, later, laterRound, feeds, laterRound);
  }

  /** `PriceOracle`: the feed table and the cache lifetime are fixed at
      construction; the cache is the state `get_price` updates. */
  class PriceOracle {
    const feeds: map<Address, Address>
    const cacheDuration: nat
    var cache: map<Address, CacheEntry>

    /** `PriceOracle::new`: an empty cache */
    constructor(feeds: map<Address, Address>, cacheDuration: nat)
      ensures this.feeds == feeds && this.cacheDuration == cacheDuration
      ensures cache == map[]
    {
      this.feeds := feeds;
      this.cacheDuration := cacheDuration;
      cache := map[];
    }

    /** `get_price`: answer a valid cached entry, otherwise fetch, store the
        fetched price with the store time and answer it. */
    method GetPrice(token: Address, clock: Clock, round: Address -> Result<RoundData, Error>)
      returns (r: Result<nat, Error>)
      modifies this
      requires NoUnderflow(cache, feeds, token, clock, round)
      ensures Lookup(r, cache) == GetPriceSpec(old(cache), feeds, cacheDuration, token, clock, round)
    {
      if token in cache {
        var entry := cache[token];
        if IsCacheValid(entry.timestamp, clock.atCheck, cacheDuration) {
          return Ok(entry.price);
        }
      }
      var fetched := FetchChainlinkPrice(feeds, token, round, clock.atFetch);
      if fetched.Err? {
        return Err(fetched.error);
      }
      if clock.atStore.None? {
        return Err(ClockFailed);
      }
      cache := cache[token := CacheEntry(fetched.value, clock.atStore.value)];
      return Ok(fetched.value);
    }
  }
}
