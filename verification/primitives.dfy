/** Value types shared by the whole bot: optional values, fallible results,
    bytes, 20-byte addresses, 32-byte hashes and the error conditions the
    strategies report. */
module Primitives {

  datatype Option<+T> = None | Some(value: T) {
    /** `unwrap_or` / `unwrap_or_default` with the default written out */
    function GetOr(default: T): T {
      match this
      case Some(v) => v
      case None => default
    }
  }

  /** `anyhow::Result`: a value, or the error that a `?` propagates */
  datatype Result<+T, +E> = Ok(value: T) | Err(error: E)

  /** Every error condition the modelled code can return. */
  datatype Error =
    | GasPriceTooHigh          // "Gas price too high"
    | MaxRetriesExceeded       // "Max retries exceeded ..."
    | TransactionFailed        // a receipt whose status is 0 (or absent)
    | ReceiptNotFound          // a pending transaction that resolved to no receipt
    | SigningFailed            // `tx.sign(&wallet)?`
    | SendFailed               // `send_raw_transaction(..)?`
    | ProviderFailed           // any other `?` on a provider or contract read
    | ContractNotFound         // "Contract not found"
    | NoPriceFeed              // "No price feed for token"
    | StalePrice               // "Price data is stale"
    | ClockFailed              // `SystemTime::duration_since(UNIX_EPOCH)?`
    | DecodeFailed             // `U256::from_dec_str(..)?` and similar conversions
    | VictimWaitFailed         // `wait_for_transaction(..)?`

  type Byte = b: int | 0 <= b < 256

  type Bytes = seq<Byte>

  /** `Address` (H160) */
  type Address = s: Bytes | |s| == 20 witness seq(20, _ => 0)

  /** `H256` */
  type Hash = s: Bytes | |s| == 32 witness seq(32, _ => 0)

  /** `H256::default()`, the all-zero hash */
  function ZeroHash(): (h: Hash)
    ensures forall i :: 0 <= i < |h| ==> h[i] == 0
  {
    seq(32, _ => 0)
  }

  /** `saturating_sub` on unsigned integers */
  function SaturatingSub(a: nat, b: nat): (r: nat)
    ensures r <= a
    ensures b >= a ==> r == 0
    ensures b < a ==> r + b == a
  {
    if a > b then a - b else 0
  }
}
