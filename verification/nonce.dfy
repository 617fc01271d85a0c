/** The local nonce counter that the sandwich, high-frequency and monitoring
    strategies keep behind a write lock, and the `send_transaction` step that
    stamps each request with the next number before signing it. The lock is
    modelled as exclusive ownership of the counter object. */
module Nonce {
  import opened Primitives
  import opened Transactions

  /** `values` starts at `first` and climbs by one: no repeats, no gaps. */
  ghost predicate Consecutive(values: seq<nat>, first: nat) {
    forall i :: 0 <= i < |values| ==> values[i] == first + i
  }

  /** Consecutive numbers are pairwise distinct and strictly increasing. */
  lemma ConsecutiveIsStrictlyIncreasing(values: seq<nat>, first: nat)
    requires Consecutive(values, first)
    ensures forall i, j :: 0 <= i < j < |values| ==> values[i] < values[j]
  {
  }

  class NonceAllocator {
    /** the value the next allocation hands out */
    var next: nat
    /** the on-chain transaction count read when the strategy was created */
    ghost const initial: nat
    /** every number handed out so far, in order */
    ghost var issued: seq<nat>

    ghost predicate Valid()
      reads this
    {
      next == initial + |issued| && Consecutive(issued, initial)
    }

    /** `nonce: Arc::new(RwLock::new(get_transaction_count(..)))` */
    constructor (onChainCount: nat)
      ensures Valid()
      ensures initial == onChainCount && next == onChainCount && issued == []
    {
      next := onChainCount;
      initial := onChainCount;
      issued := [];
    }

    /** `tx.nonce = Some(*nonce); *nonce += 1`: hand out the current value and
        move past it. */
    method Allocate() returns (n: nat)
      requires Valid()
      modifies this
      ensures Valid()
      ensures n == old(next) && next == old(next) + 1
      ensures issued == old(issued) + [n]
      ensures forall m :: m in old(issued) ==> m < n
    {
      n := next;
      next := next + 1;
      issued := issued + [n];
    }
  }

  /** `send_transaction` of the sandwich, high-frequency and monitoring
      strategies: the number is allocated before signing, so it is consumed
      whatever happens to the request afterwards. */
  method SendTransaction(nonce: NonceAllocator, tx: TxRequest, submission: Submission)
    returns (r: Result<Receipt, Error>, signed: TxRequest)
    requires nonce.Valid()
    modifies nonce
    ensures nonce.Valid()
    ensures nonce.next == old(nonce.next) + 1
    ensures nonce.issued == old(nonce.issued) + [old(nonce.next)]
    ensures signed == tx.(nonce := Some(old(nonce.next)))
    ensures r == CheckReceipt(submission)
  {
    var n := nonce.Allocate();
    signed := tx.(nonce := Some(n));
    r := CheckReceipt(submission);
  }
}
