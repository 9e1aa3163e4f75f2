/** The domain-separated preimages a batch proof commits to, and the circuits that pick between them. */
module Preimage {
  import opened Words
  import opened Wire

  type Hash = Bytes -> Digest

  const CLEAR_TAG: Bytes := Ascii("VEIL_CLEAR_V1")
  const SHIELDED_TAG: Bytes := Ascii("VEIL_SHIELDED_LEDGER_V1")
  const CLEARHASH_V1: Bytes := Ascii("clearhash-v1")
  const SHIELDED_V1: Bytes := Ascii("shielded-ledger-v1")

  /** What clearing a batch window settles. */
  datatype Clear = Clear(market: Id, window: u64, price: u64, volume: u64, fills: Bytes)

  function Fields(x: Clear): Bytes {
    x.market + (U64(x.window) + (U64(x.price) + (U64(x.volume) + (U16(|x.fills| % 0x1_0000) + x.fills))))
  }

  function ClearPreimage(x: Clear): Bytes { CLEAR_TAG + Fields(x) }
  function ShieldedPreimage(x: Clear): Bytes { SHIELDED_TAG + Fields(x) }

  /** A missing circuit id stands for the clear-hash circuit. */
  function NormalizeCircuit(id: Bytes): Bytes {
    var t := TrimSpace(id);
    if t == [] then CLEARHASH_V1 else t
  }

  predicate SupportedCircuit(id: Bytes) { id == CLEARHASH_V1 || id == SHIELDED_V1 }

  /** The preimage that clearing expects for a proof made with the given circuit. */
  function ExpectedPreimage(id: Bytes, x: Clear): Result<Bytes> {
    var t := TrimSpace(id);
    if t == [] || t == CLEARHASH_V1 then Ok(ClearPreimage(x))
    else if t == SHIELDED_V1 then Ok(ShieldedPreimage(x))
    else Err(UnsupportedProofCircuit)
  }

  function ExpectedHash(sha: Hash, id: Bytes, x: Clear): Result<Digest> {
    var preimage :- ExpectedPreimage(id, x);
    Ok(sha(preimage))
  }

  /** Five inputs, one byte string: nothing is lost. */
  lemma FieldsInjective(x: Clear, y: Clear)
    requires Fields(x) == Fields(y)
    ensures x == y
  {
    var x4, y4 := U16(|x.fills| % 0x1_0000) + x.fills, U16(|y.fills| % 0x1_0000) + y.fills;
    var x3, y3 := U64(x.volume) + x4, U64(y.volume) + y4;
    var x2, y2 := U64(x.price) + x3, U64(y.price) + y3;
    var x1, y1 := U64(x.window) + x2, U64(y.window) + y2;
    SplitConcat(x.market, x1, y.market, y1);
    SplitConcat(U64(x.window), x2, U64(y.window), y2);
    SplitConcat(U64(x.price), x3, U64(y.price), y3);
    SplitConcat(U64(x.volume), x4, U64(y.volume), y4);
    SplitConcat(U16(|x.fills| % 0x1_0000), x.fills, U16(|y.fills| % 0x1_0000), y.fills);
    U64Injective(x.window, y.window);
    U64Injective(x.price, y.price);
    U64Injective(x.volume, y.volume);
  }

  /** The two domains never meet. */
  lemma DomainsDisjoint(x: Clear, y: Clear)
    ensures ClearPreimage(x) != ShieldedPreimage(y)
  {
    assert ClearPreimage(x)[5] == CLEAR_TAG[5] == 'C' as int;
    assert ShieldedPreimage(y)[5] == SHIELDED_TAG[5] == 'S' as int;
  }

  /** Equal expected preimages come from equal inputs and the same circuit. */
  lemma ExpectedPreimageInjective(i: Bytes, x: Clear, j: Bytes, y: Clear)
    requires ExpectedPreimage(i, x).Ok? && ExpectedPreimage(i, x) == ExpectedPreimage(j, y)
    ensures x == y && NormalizeCircuit(i) == NormalizeCircuit(j)
  {
    DomainsDisjoint(x, y);
    DomainsDisjoint(y, x);
    if ExpectedPreimage(i, x) == Ok(ClearPreimage(x)) {
      SplitConcat(CLEAR_TAG, Fields(x), CLEAR_TAG, Fields(y));
    } else {
      SplitConcat(SHIELDED_TAG, Fields(x), SHIELDED_TAG, Fields(y));
    }
    FieldsInjective(x, y);
  }

  /** Clearing and the verifier agree on which circuits exist and which preimage each one has. */
  lemma ClearingAndVerifierAgree(id: Bytes, x: Clear)
    ensures ExpectedPreimage(id, x).Ok? <==> SupportedCircuit(NormalizeCircuit(id))
    ensures NormalizeCircuit(id) == CLEARHASH_V1 ==> ExpectedPreimage(id, x) == Ok(ClearPreimage(x))
    ensures NormalizeCircuit(id) == SHIELDED_V1 ==> ExpectedPreimage(id, x) == Ok(ShieldedPreimage(x))
    ensures CLEARHASH_V1 != SHIELDED_V1
  {
    assert |CLEARHASH_V1| != |SHIELDED_V1|;
  }
}
