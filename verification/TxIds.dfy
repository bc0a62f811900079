/** Transaction ids: "tx-" and the 64-bit counter in sixteen hexadecimal digits. */
module TxIds {
  import opened Encodings

  function TxId(n: nat): (tx: string)
  {
    "tx-" + Hex(n, 16)
  }

  /** The counter value a transaction id was made from. */
  function Number(tx: string): nat
  {
    if |tx| < 3 then 0 else Value(tx[3..], 16)
  }

  /** The decoder inverts the encoder on every 64-bit value. */
  lemma TxIdRoundTrip(n: nat)
    requires n < TWO_TO_64
    ensures Number(TxId(n)) == n
  {
    SixteenHexDigitsHold64Bits();
    HexRoundTrip(n, 16);
    assert TxId(n)[3..] == Hex(n, 16);
  }

  /** The id with its terminating zero fits the 32-byte buffer it is printed into: it is "tx-" and
      sixteen lower-case hexadecimal digits. */
  lemma TxIdFitsBuffer(n: nat)
    ensures |TxId(n)| + 1 <= 32
    ensures |TxId(n)| == 19 && TxId(n)[..3] == "tx-"
    ensures forall i | 3 <= i < 19 :: '0' <= TxId(n)[i] <= '9' || 'a' <= TxId(n)[i] <= 'f'
  {
    HexIsDigits(n, 16);
    assert TxId(n)[3..] == Hex(n, 16);
    forall i | 3 <= i < 19 ensures '0' <= TxId(n)[i] <= '9' || 'a' <= TxId(n)[i] <= 'f' {
      assert TxId(n)[i] == Hex(n, 16)[i - 3] && Hex(n, 16)[i - 3] in Hex(n, 16);
    }
  }

  /** Two counter values give the same id exactly when they agree modulo 2^64, which is
      how the counter wraps: the first 2^64 ids are distinct. */
  lemma TxIdsAliasIff(m: nat, n: nat)
    ensures TxId(m % TWO_TO_64) == TxId(n % TWO_TO_64) <==> m % TWO_TO_64 == n % TWO_TO_64
  {
    TxIdRoundTrip(m % TWO_TO_64);
    TxIdRoundTrip(n % TWO_TO_64);
  }
}
