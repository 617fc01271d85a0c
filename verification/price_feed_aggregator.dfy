/** The calldata of the price-feed aggregator contract: a four-byte selector
    followed by 20-byte addresses, and the decoding of a log's data into
    consecutive 20-byte addresses. A receipt is modelled by the data of its
    logs. */
module PriceFeedAggregator {
  import opened Primitives

  const AddTokenPriceFeedSelector: Bytes := [0x00, 0x00, 0x00, 0x00]
  const RemoveTokenPriceFeedSelector: Bytes := [0x00, 0x00, 0x00, 0x01]
  const GetTokenPriceFeedSelector: Bytes := [0x00, 0x00, 0x00, 0x02]

  /** the three calls the aggregator encodes */
  datatype AggregatorCall =
    | AddTokenPriceFeed(token: Address, priceFeed: Address)
    | RemoveTokenPriceFeed(token: Address, priceFeed: Address)
    | GetTokenPriceFeed(token: Address)

  /** the calldata of a call: its selector, then its addresses in order */
  function Encoding(call: AggregatorCall): (data: Bytes)
    ensures call.GetTokenPriceFeed? ==> |data| == 24
    ensures !call.GetTokenPriceFeed? ==> |data| == 44
  {
    match call
    case AddTokenPriceFeed(token, priceFeed) => AddTokenPriceFeedSelector + token + priceFeed
    case RemoveTokenPriceFeed(token, priceFeed) => RemoveTokenPriceFeedSelector + token + priceFeed
    case GetTokenPriceFeed(token) => GetTokenPriceFeedSelector + token
  }

  /** the reading of calldata the contract side performs */
  function Parse(data: Bytes): (call: Option<AggregatorCall>)
    ensures call.Some? ==> |data| == 24 || |data| == 44
  {
    if |data| == 44 && data[..4] == AddTokenPriceFeedSelector then Some(AddTokenPriceFeed(data[4..24], data[24..44]))
    else if |data| == 44 && data[..4] == RemoveTokenPriceFeedSelector then Some(RemoveTokenPriceFeed(data[4..24], data[24..44]))
    else if |data| == 24 && data[..4] == GetTokenPriceFeedSelector then Some(GetTokenPriceFeed(data[4..24]))
    else None
  }

  /** Every encoding reads back as the call that produced it. */
  lemma ParseEncoding(call: AggregatorCall)
    ensures Parse(Encoding(call)) == Some(call)
  {
    var data := Encoding(call);
    match call
    case AddTokenPriceFeed(token, priceFeed) =>
      assert data[..4] == AddTokenPriceFeedSelector && data[4..24] == token && data[24..44] == priceFeed;
    case RemoveTokenPriceFeed(token, priceFeed) =>
      assert data[..4] == RemoveTokenPriceFeedSelector && data[4..24] == token && data[24..44] == priceFeed;
    case GetTokenPriceFeed(token) =>
      assert data[..4] == GetTokenPriceFeedSelector && data[4..24] == token;
  }

  /** Different calls, of the same or of different operations, never share
      an encoding. */
  lemma EncodingInjective(c1: AggregatorCall, c2: AggregatorCall)
    requires Encoding(c1) == Encoding(c2)
    ensures c1 == c2
  {
    ParseEncoding(c1);
    ParseEncoding(c2);
  }

  /** The selectors of the three operations differ, so the first four bytes
      tell the operations apart. */
  lemma SelectorTellsOperation(c1: AggregatorCall, c2: AggregatorCall)
    requires c1.AddTokenPriceFeed? != c2.AddTokenPriceFeed? || c1.RemoveTokenPriceFeed? != c2.RemoveTokenPriceFeed?
    ensures Encoding(c1)[..4] != Encoding(c2)[..4]
  {
    assert Encoding(c1)[..4][3] == if c1.AddTokenPriceFeed? then 0 else if c1.RemoveTokenPriceFeed? then 1 else 2;
    assert Encoding(c2)[..4][3] == if c2.AddTokenPriceFeed? then 0 else if c2.RemoveTokenPriceFeed? then 1 else 2;
  }

  /** `encode_add_token_price_feed` */
  method EncodeAddTokenPriceFeed(token: Address, priceFeed: Address) returns (data: Bytes)
    ensures data == Encoding(AddTokenPriceFeed(token, priceFeed))
  {
    data := [];
    data := data + [0x00, 0x00, 0x00, 0x00];
    data := data + token;
    data := data + priceFeed;
  }

  /** `encode_remove_token_price_feed` */
  method EncodeRemoveTokenPriceFeed(token: Address, priceFeed: Address) returns (data: Bytes)
    ensures data == Encoding(RemoveTokenPriceFeed(token, priceFeed))
  {
    data := [];
    data := data + [0x00, 0x00, 0x00, 0x01];
    data := data + token;
    data := data + priceFeed;
  }

  /** `encode_get_token_price_feed` */
  method EncodeGetTokenPriceFeed(token: Address) returns (data: Bytes)
    ensures data == Encoding(GetTokenPriceFeed(token))
  {
    data := [];
    data := data + [0x00, 0x00, 0x00, 0x02];
    data := data + token;
  }

  /** addresses laid end to end */
  function Flatten(addrs: seq<Address>): (data: Bytes)
    ensures |data| == 20 * |addrs|
  {
    if addrs == [] then [] else Flatten(addrs[..|addrs| - 1]) + addrs[|addrs| - 1]
  }

  /** consecutive 20-byte slices of the data, in order */
  function Chunks(data: Bytes): (addrs: seq<Address>)
    requires |data| % 20 == 0
    ensures 20 * |addrs| == |data|
  {
    if data == [] then [] else Chunks(data[..|data| - 20]) + [data[|data| - 20..]]
  }

  /** Decoding a list of addresses laid end to end gives the list back. */
  lemma {:induction false} ChunksFlatten(addrs: seq<Address>)
    ensures Chunks(Flatten(addrs)) == addrs
  {
    if addrs != [] {
      var init := addrs[..|addrs| - 1];
      var data := Flatten(addrs);
      assert data[..|data| - 20] == Flatten(init);
      assert data[|data| - 20..] == addrs[|addrs| - 1];
      ChunksFlatten(init);
      assert addrs == init + [addrs[|addrs| - 1]];
    }
  }

  /** Decoding loses no byte: the addresses laid end to end are the data. */
  lemma {:induction false} FlattenChunks(data: Bytes)
    requires |data| % 20 == 0
    ensures Flatten(Chunks(data)) == data
  {
    if data != [] {
      var addrs := Chunks(data);
      assert addrs[..|addrs| - 1] == Chunks(data[..|data| - 20]);
      FlattenChunks(data[..|data| - 20]);
      assert data == data[..|data| - 20] + data[|data| - 20..];
    }
  }

  /** The `k`-th decoded address is the `k`-th 20-byte slice. */
  lemma {:induction false} ChunkAt(data: Bytes, k: nat)
    requires |data| % 20 == 0
    requires 20 * k < |data|
    ensures Chunks(data)[k] == data[20 * k..20 * k + 20]
  {
    var n := |data| - 20;
    var init := data[..n];
    assert Chunks(data) == Chunks(init) + [data[n..]];
    if 20 * k < n {
      ChunkAt(init, k);
      assert data[20 * k..20 * k + 20] == init[20 * k..20 * k + 20];
    }
  }

  /** Decoding 20 more bytes appends one address. */
  lemma ChunksSnoc(data: Bytes, i: nat)
    requires i % 20 == 0 && i + 20 <= |data|
    ensures Chunks(data[..i + 20]) == Chunks(data[..i]) + [data[i..i + 20]]
  {
    var longer := data[..i + 20];
    assert longer[..|longer| - 20] == data[..i];
    assert longer[|longer| - 20..] == data[i..i + 20];
  }

  /** one step of the decoder: the next 20 bytes as one more address; kept
      apart so that the loop's proof does not unfold `Chunks` */
  method NextChunk(data: Bytes, i: nat, decoded: seq<Address>) returns (more: seq<Address>)
    requires i % 20 == 0 && i + 20 <= |data|
    requires decoded == Chunks(data[..i])
    ensures more == Chunks(data[..i + 20])
  {
    ChunksSnoc(data, i);
    more := decoded + [data[i..i + 20]];
  }

  /** `decode_get_token_price_feed`: the first log's data as a list of
      addresses. The source indexes the first log and slices 20 bytes at a
      time, so a receipt without logs or data whose length is not a multiple
      of 20 panics. */
  method DecodeGetTokenPriceFeed(logs: seq<Bytes>) returns (priceFeeds: seq<Address>)
    requires |logs| > 0 && |logs[0]| % 20 == 0
    ensures priceFeeds == Chunks(logs[0])
    ensures 20 * |priceFeeds| == |logs[0]|
  {
    var data := logs[0];
    priceFeeds := [];
    var i := 0;
    while i < |data|
      invariant i <= |data| && i % 20 == 0
      invariant priceFeeds == Chunks(data[..i])
    {
      priceFeeds := NextChunk(data, i, priceFeeds);
      i := i + 20;
    }
    assert data[..i] == data;
  }
}
