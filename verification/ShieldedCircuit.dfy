/** The shape constraints of the shielded-ledger circuit, over byte strings. */
module ShieldedCircuit {
  import opened Words
  import opened Wire
  import opened Preimage
  import opened Verifier

  const MARKET_AT := 23
  const WINDOW_AT := 55
  const PRICE_AT := 63
  const VOLUME_AT := 71
  const FILLS_LENGTH_AT := 79
  const FILLS_AT := 81
  const PREIMAGE_LENGTH := 113

  predicate AllZero(b: Bytes) { forall i :: 0 <= i < |b| ==> b[i] == 0 }

  /** What the circuit asserts about its private preimage and public digest. */
  ghost predicate Satisfied(sha: Hash, pre: Bytes, digest: Bytes)
    requires |pre| == PREIMAGE_LENGTH
  {
    && pre[..MARKET_AT] == SHIELDED_TAG
    && pre[FILLS_LENGTH_AT..FILLS_AT] == [0, 32]
    && !AllZero(pre[MARKET_AT..WINDOW_AT])
    && !AllZero(pre[WINDOW_AT..PRICE_AT])
    && !AllZero(pre[PRICE_AT..VOLUME_AT])
    && !AllZero(pre[VOLUME_AT..FILLS_LENGTH_AT])
    && !AllZero(pre[FILLS_AT..])
    && sha(pre) == digest
  }

  method LiteralBytes(got: Bytes, want: Bytes) returns (ok: bool)
    ensures ok == (got == want)
  {
    if |got| != |want| {
      return false;
    }
    for i := 0 to |want|
      invariant got[..i] == want[..i]
    {
      if got[i] != want[i] {
        return false;
      }
    }
    return true;
  }

  /** The circuit sums the bytes in the field; the sum cannot wrap to zero on so few bytes. */
  method ByteSliceNonZero(b: Bytes) returns (ok: bool)
    requires |b| <= 32
    ensures ok == !AllZero(b)
  {
    var sum: nat := 0;
    for i := 0 to |b|
      invariant sum <= 255 * i
      invariant sum == 0 <==> forall j :: 0 <= j < i ==> b[j] == 0
    {
      sum := (sum + b[i]) % FIELD;
    }
    return sum != 0;
  }

  method Define(sha: Hash, pre: Bytes, digest: Digest) returns (ok: bool)
    requires |pre| == PREIMAGE_LENGTH
    ensures ok == Satisfied(sha, pre, digest)
  {
    var tag := LiteralBytes(pre[..MARKET_AT], SHIELDED_TAG);
    var length := LiteralBytes(pre[FILLS_LENGTH_AT..FILLS_AT], [0, 32]);
    var market := ByteSliceNonZero(pre[MARKET_AT..WINDOW_AT]);
    var window := ByteSliceNonZero(pre[WINDOW_AT..PRICE_AT]);
    var price := ByteSliceNonZero(pre[PRICE_AT..VOLUME_AT]);
    var volume := ByteSliceNonZero(pre[VOLUME_AT..FILLS_LENGTH_AT]);
    var fills := ByteSliceNonZero(pre[FILLS_AT..]);
    var sum := LiteralBytes(digest, sha(pre));
    return tag && length && market && window && price && volume && fills && sum;
  }

  /** Five non-zero fields and a 32-byte fills hash. */
  ghost predicate NonZeroFields(x: Clear) {
    !AllZero(x.market) && x.window != 0 && x.price != 0 && x.volume != 0 && |x.fills| == 32 && !AllZero(x.fills)
  }

  lemma {:induction false} ZeroNumber(b: Bytes)
    ensures Number(b) == 0 <==> AllZero(b)
  {
    if b != [] {
      ZeroNumber(b[..|b| - 1]);
      assert forall i :: 0 <= i < |b| - 1 ==> b[..|b| - 1][i] == b[i];
    }
  }

  /** The inputs a 113-byte string spells, whatever its tag. */
  function Spelled(pre: Bytes): Clear
    requires |pre| == PREIMAGE_LENGTH
  {
    Clear(pre[MARKET_AT..WINDOW_AT], AsU64(pre[WINDOW_AT..PRICE_AT]), AsU64(pre[PRICE_AT..VOLUME_AT]),
          AsU64(pre[VOLUME_AT..FILLS_LENGTH_AT]), pre[FILLS_AT..])
  }

  lemma LengthBytes()
    ensures U16(32) == [0, 32]
  {
    assert BigEndian(32, 2) == BigEndian(0, 1) + [32];
    assert BigEndian(0, 1) == BigEndian(0, 0) + [0];
  }

  /** A string with the tag and the length bytes is the builder's output on what it spells. */
  lemma SpelledPreimage(pre: Bytes)
    requires |pre| == PREIMAGE_LENGTH && pre[..MARKET_AT] == SHIELDED_TAG && pre[FILLS_LENGTH_AT..FILLS_AT] == [0, 32]
    ensures pre == ShieldedPreimage(Spelled(pre))
  {
    U64OfBytes(pre[WINDOW_AT..PRICE_AT]);
    U64OfBytes(pre[PRICE_AT..VOLUME_AT]);
    U64OfBytes(pre[VOLUME_AT..FILLS_LENGTH_AT]);
    LengthBytes();
    Slices(pre);
  }

  lemma Slices(pre: Bytes)
    requires |pre| == PREIMAGE_LENGTH
    ensures pre == pre[..MARKET_AT] + (pre[MARKET_AT..WINDOW_AT] + (pre[WINDOW_AT..PRICE_AT] + (pre[PRICE_AT..VOLUME_AT]
                   + (pre[VOLUME_AT..FILLS_LENGTH_AT] + (pre[FILLS_LENGTH_AT..FILLS_AT] + pre[FILLS_AT..])))))
  {
    Join(pre, FILLS_LENGTH_AT, FILLS_AT);
    Join(pre, VOLUME_AT, FILLS_LENGTH_AT);
    Join(pre, PRICE_AT, VOLUME_AT);
    Join(pre, WINDOW_AT, PRICE_AT);
    Join(pre, MARKET_AT, WINDOW_AT);
    Join(pre, 0, MARKET_AT);
    assert pre == pre[0..] && pre[..MARKET_AT] == pre[0..MARKET_AT];
  }

  lemma SpelledOfPreimage(x: Clear)
    requires |x.fills| == 32
    ensures var pre := ShieldedPreimage(x);
            && |pre| == PREIMAGE_LENGTH && Spelled(pre) == x
            && pre[..MARKET_AT] == SHIELDED_TAG && pre[FILLS_LENGTH_AT..FILLS_AT] == [0, 32]
  {
    var pre := ShieldedPreimage(x);
    LengthBytes();
    assert pre[..MARKET_AT] == SHIELDED_TAG && pre[FILLS_LENGTH_AT..FILLS_AT] == U16(32);
    SpelledPreimage(pre);
    SplitConcat(SHIELDED_TAG, Fields(x), SHIELDED_TAG, Fields(Spelled(pre)));
    FieldsInjective(x, Spelled(pre));
  }

  /** The constraints hold exactly for the builder's outputs on non-zero fields, with the right digest. */
  lemma SatisfiedIff(sha: Hash, pre: Bytes, digest: Bytes)
    requires |pre| == PREIMAGE_LENGTH
    ensures Satisfied(sha, pre, digest)
            <==> exists x: Clear :: NonZeroFields(x) && pre == ShieldedPreimage(x) && sha(pre) == digest
  {
    var x := Spelled(pre);
    ZeroNumber(pre[WINDOW_AT..PRICE_AT]);
    ZeroNumber(pre[PRICE_AT..VOLUME_AT]);
    ZeroNumber(pre[VOLUME_AT..FILLS_LENGTH_AT]);
    if Satisfied(sha, pre, digest) {
      SpelledPreimage(pre);
      assert NonZeroFields(x);
    }
    if y: Clear :| NonZeroFields(y) && pre == ShieldedPreimage(y) && sha(pre) == digest {
      SpelledOfPreimage(y);
    }
  }
}
