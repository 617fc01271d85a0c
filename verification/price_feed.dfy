/** The calldata of the price feed contract: a four-byte selector, then, for
    an update, the price as a 32-byte big-endian word; and the decoding of a
    log's data as a big-endian price. A receipt is modelled by the data of
    its logs. */
module PriceFeed {
  import opened Primitives
  import opened BigEndian

  const UpdatePriceSelector: Bytes := [0x00, 0x00, 0x00, 0x00]
  const GetPriceSelector: Bytes := [0x00, 0x00, 0x00, 0x01]

  /** the width of a `U256` in bytes */
  const WordSize: nat := 32

  /** a value a `U256` can hold */
  predicate IsU256(n: nat) {
    n < Pow256(WordSize)
  }

  /** the two calls the price feed contract is sent */
  datatype PriceFeedCall =
    | UpdatePrice(price: nat)
    | GetPrice

  predicate WellFormed(call: PriceFeedCall) {
    call.UpdatePrice? ==> IsU256(call.price)
  }

  /** the calldata of a call: its selector, then for an update the price */
  function Encoding(call: PriceFeedCall): (data: Bytes)
    requires WellFormed(call)
    ensures call.UpdatePrice? ==> |data| == 4 + WordSize
    ensures call.GetPrice? ==> |data| == 4
  {
    match call
    case UpdatePrice(price) => UpdatePriceSelector + ToBigEndian(price, WordSize)
    case GetPrice => GetPriceSelector
  }

  /** the reading of calldata the contract side performs */
  function Parse(data: Bytes): (call: Option<PriceFeedCall>)
    ensures call.Some? ==> WellFormed(call.value)
  {
    if |data| == 4 + WordSize && data[..4] == UpdatePriceSelector then Some(UpdatePrice(FromBigEndian(data[4..])))
    else if data == GetPriceSelector then Some(GetPrice)
    else None
  }

  /** The price is exactly the suffix behind the selector, and the two
      selectors differ. */
  lemma Layout(price: nat)
    requires IsU256(price)
    ensures Encoding(UpdatePrice(price))[..4] == UpdatePriceSelector != Encoding(GetPrice)
    ensures FromBigEndian(Encoding(UpdatePrice(price))[4..]) == price
  {
    assert Encoding(UpdatePrice(price))[4..] == ToBigEndian(price, WordSize);
    assert UpdatePriceSelector[3] != GetPriceSelector[3];
  }

  /** Every encoding reads back as the call that produced it. */
  lemma ParseEncoding(call: PriceFeedCall)
    requires WellFormed(call)
    ensures Parse(Encoding(call)) == Some(call)
  {
    if call.UpdatePrice? {
      Layout(call.price);
    }
  }

  /** Different calls never share an encoding. */
  lemma EncodingInjective(c1: PriceFeedCall, c2: PriceFeedCall)
    requires WellFormed(c1) && WellFormed(c2)
    requires Encoding(c1) == Encoding(c2)
    ensures c1 == c2
  {
    ParseEncoding(c1);
    ParseEncoding(c2);
  }

  /** `encode_update_price` */
  method EncodeUpdatePrice(price: nat) returns (data: Bytes)
    requires IsU256(price)
    ensures data == Encoding(UpdatePrice(price))
  {
    var word := ToBigEndian(price, WordSize);
    data := [];
    data := data + [0x00, 0x00, 0x00, 0x00];
    assert data == UpdatePriceSelector;
    data := data + word;
  }

  /** `encode_get_price` */
  method EncodeGetPrice() returns (data: Bytes)
    ensures data == Encoding(GetPrice)
  {
    data := [];
    data := data + [0x00, 0x00, 0x00, 0x01];
  }

  /** `decode_get_price`: the first log's data as a big-endian price. The
      source indexes the first log, and the conversion accepts at most 32
      bytes. */
  function DecodeGetPrice(logs: seq<Bytes>): (price: nat)
    requires |logs| > 0 && |logs[0]| <= WordSize
    ensures IsU256(price)
    ensures price < Pow256(|logs[0]|)
  {
    Pow256Monotone(|logs[0]|, WordSize);
    FromBigEndian(logs[0])
  }

  /** A log carrying the price word of an update decodes to that price. */
  lemma UpdatedPriceDecodes(price: nat, logs: seq<Bytes>)
    requires IsU256(price)
    requires |logs| > 0 && logs[0] == Encoding(UpdatePrice(price))[4..]
    ensures DecodeGetPrice(logs) == price
  {
    Layout(price);
  }

  /** A 32-byte word decodes to the price whose encoding carries that word. */
  lemma DecodedPriceEncodes(logs: seq<Bytes>)
    requires |logs| > 0 && |logs[0]| == WordSize
    ensures Encoding(UpdatePrice(DecodeGetPrice(logs)))[4..] == logs[0]
  {
    ToFromBigEndian(logs[0]);
  }
}
