/** Transaction requests and receipts as the strategies build and read them,
    and the receipt check that every `send_transaction` performs. Signing,
    broadcasting and waiting are external; their combined outcome is a
    `Submission` given as an input. */
module Transactions {
  import opened Primitives

  /** `TransactionRequest`; a field left `None` is `Default::default()` */
  datatype TxRequest = TxRequest(
    from: Option<Address>,
    to: Option<Address>,
    value: Option<nat>,
    gasPrice: Option<nat>,
    gas: Option<nat>,
    data: Option<Bytes>,
    nonce: Option<nat>)

  const DefaultRequest: TxRequest := TxRequest(None, None, None, None, None, None, None)

  /** `TransactionReceipt`, reduced to the two fields the strategies read */
  datatype Receipt = Receipt(status: Option<nat>, gasUsed: Option<nat>)

  /** `TransactionReceipt::default()` */
  const DefaultReceipt: Receipt := Receipt(None, None)

  /** What happened to a signed request after it left the strategy. */
  datatype Submission =
    | SignFails          // `tx.sign(..)` returned an error
    | SendFails          // `send_raw_transaction(..)` returned an error
    | NoReceipt          // the pending transaction resolved to no receipt
    | Mined(receipt: Receipt)

  /** The tail of every `send_transaction`: propagate the signing and sending
      errors, then reject a receipt whose status is 0, where an absent status
      reads as 0 (`status.unwrap_or_default() == 0`). */
  function CheckReceipt(s: Submission): (r: Result<Receipt, Error>)
    ensures r.Ok? <==> s.Mined? && s.receipt.status.Some? && s.receipt.status.value != 0
    ensures r.Ok? ==> r.value == s.receipt
    ensures s.SignFails? ==> r == Err(SigningFailed)
    ensures s.SendFails? ==> r == Err(SendFailed)
    ensures s.NoReceipt? ==> r == Err(ReceiptNotFound)
    ensures s.Mined? && s.receipt.status.GetOr(0) == 0 ==> r == Err(TransactionFailed)
  {
    match s
    case SignFails => Err(SigningFailed)
    case SendFails => Err(SendFailed)
    case NoReceipt => Err(ReceiptNotFound)
    case Mined(receipt) =>
      if receipt.status.GetOr(0) == 0 then Err(TransactionFailed) else Ok(receipt)
  }

  /** One attempt that first builds a request and then sends it: an error
      while building stops the attempt before anything is sent. */
  function SendResult(built: Result<TxRequest, Error>, s: Submission): Result<Receipt, Error> {
    if built.Err? then Err(built.error) else CheckReceipt(s)
  }
}
