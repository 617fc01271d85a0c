/** Fixed-width big-endian byte strings: how a `U256` price travels in
    calldata and in a log's data. */
module BigEndian {
  import opened Primitives

  /** 256 to the power `n`: the number of values `n` bytes can hold */
  function Pow256(n: nat): (p: nat)
    ensures p >= 1
  {
    if n == 0 then 1 else 256 * Pow256(n - 1)
  }

  /** more bytes hold more values */
  lemma {:induction false} Pow256Monotone(a: nat, b: nat)
    requires a <= b
    ensures Pow256(a) <= Pow256(b)
    decreases b
  {
    if a < b {
      Pow256Monotone(a, b - 1);
    }
  }

  /** the value of a big-endian byte string, most significant byte first */
  function FromBigEndian(bs: Bytes): (n: nat)
    ensures n < Pow256(|bs|)
  {
    if bs == [] then 0
    else
      var init := bs[..|bs| - 1];
      var rest := FromBigEndian(init);
      Below256(rest, bs[|bs| - 1], Pow256(|init|));
      rest * 256 + bs[|bs| - 1]
  }

  /** `w` bytes holding `n`, most significant byte first */
  function ToBigEndian(n: nat, w: nat): (bs: Bytes)
    requires n < Pow256(w)
    ensures |bs| == w
    ensures FromBigEndian(bs) == n
  {
    if w == 0 then []
    else
      var high := n / 256;
      DivBelow(n, Pow256(w - 1));
      var init := ToBigEndian(high, w - 1);
      var bs := init + [n % 256];
      assert bs[..|bs| - 1] == init;
      bs
  }

  /** a shift by one byte stays below the next power */
  lemma Below256(rest: nat, b: Byte, p: nat)
    requires rest < p
    ensures rest * 256 + b < 256 * p
  {
    assert rest + 1 <= p;
    assert (rest + 1) * 256 <= p * 256;
  }

  /** dropping the low byte divides the bound by 256 */
  lemma DivBelow(n: nat, p: nat)
    requires n < 256 * p
    ensures n / 256 < p
  { }

  /** Re-encoding a decoded string at its own width gives the string back. */
  lemma {:induction false} ToFromBigEndian(bs: Bytes)
    ensures ToBigEndian(FromBigEndian(bs), |bs|) == bs
  {
    if bs != [] {
      var init := bs[..|bs| - 1];
      var last := bs[|bs| - 1];
      var rest := FromBigEndian(init);
      assert FromBigEndian(bs) == rest * 256 + last;
      ToBigEndianSnoc(rest, last, |init|);
      ToFromBigEndian(init);
      assert bs == init + [last];
    }
  }

  /** Appending a low byte to a value appends it to the encoding. */
  lemma ToBigEndianSnoc(rest: nat, b: Byte, w: nat)
    requires rest < Pow256(w)
    ensures rest * 256 + b < Pow256(w + 1)
    ensures ToBigEndian(rest * 256 + b, w + 1) == ToBigEndian(rest, w) + [b]
  {
    Below256(rest, b, Pow256(w));
    SplitLowByte(rest, b);
  }

  /** the low byte and the higher bytes of a shifted value come apart again */
  lemma SplitLowByte(rest: nat, b: Byte)
    ensures (rest * 256 + b) / 256 == rest
    ensures (rest * 256 + b) % 256 == b
  { }

  /** Two strings of the same width with the same value are equal. */
  lemma FromBigEndianInjective(a: Bytes, b: Bytes)
    requires |a| == |b|
    requires FromBigEndian(a) == FromBigEndian(b)
    ensures a == b
  {
    ToFromBigEndian(a);
    ToFromBigEndian(b);
  }
}
