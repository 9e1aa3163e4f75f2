/** The state machine on bytes: every run is a history of legal writes, and its bytes read back as the state. */
module StateBytes {
  import opened Words
  import opened Wire
  import opened Balances
  import opened Preimage
  import opened Clearing
  import opened Chain
  import opened Genesis
  import opened StorageKeys
  import opened ByteStore
  import opened LedgerProofs
  import opened BoardProofs
  import opened StateKeys

  // ----- Every stored value is legal -----

  ghost predicate Sound(sha: Hash, s: State) { LedgerOk(s) && BoardOk(sha, s.board) }

  lemma BankEntryLegal(s: State, k: Key)
    requires LedgerOk(s) && BankKey(k) && Lookup(s, k).Some?
    ensures KindOfEntry(Lookup(s, k).value) == KindOfKey(k) && Writable(Lookup(s, k).value)
  {
  }

  lemma EconEntryLegal(s: State, k: Key)
    requires LedgerOk(s) && EconKey(k)
    ensures Lookup(s, k).Some? && KindOfEntry(Lookup(s, k).value) == KindOfKey(k) && Writable(Lookup(s, k).value)
  {
  }

  lemma BoardEntryLegal(sha: Hash, s: State, k: Key)
    requires BoardOk(sha, s.board) && BoardKey(k) && Lookup(s, k).Some?
    ensures KindOfEntry(Lookup(s, k).value) == KindOfKey(k) && Writable(Lookup(s, k).value)
  {
    if k.WindowKey? {
      var slot := Slot(k.market, k.window);
      if slot in s.board.proofs.records {
        assert EntryOk(sha, s.board.proofs.records[slot], s.board.proofs.blobs[slot], s.board.proofs.glyphs[slot]);
      }
    }
  }

  /** Every value of a sound state is accepted by its Put and read back by its Get. */
  lemma EntryLegal(sha: Hash, s: State, k: Key)
    requires Sound(sha, s) && Lookup(s, k).Some?
    ensures Legal(Insert(k, Lookup(s, k).value))
  {
    if BankKey(k) {
      BankEntryLegal(s, k);
    } else if EconKey(k) {
      EconEntryLegal(s, k);
    } else {
      BoardEntryLegal(sha, s, k);
    }
  }

  // ----- Histories of writes -----

  function WriteOf(s: State, k: Key): Write {
    if Lookup(s, k).Some? then Insert(k, Lookup(s, k).value) else Remove(k)
  }

  /** The writes that leave the given keys as they are in s. */
  function WritesOf(s: State, keys: seq<Key>): seq<Write> {
    if keys == [] then [] else WritesOf(s, keys[..|keys| - 1]) + [WriteOf(s, keys[|keys| - 1])]
  }

  ghost predicate AllLegal(ws: seq<Write>) { forall i :: 0 <= i < |ws| ==> Legal(ws[i]) }

  /** What a history of writes leaves under a key. */
  function TypedAt(ws: seq<Write>, k: Key): Option<Entry> {
    if Canon(k) in Typed(ws) then Some(Typed(ws)[Canon(k)]) else None
  }

  lemma TypedSnoc(ws: seq<Write>, w: Write, k: Key)
    ensures TypedAt(ws + [w], k)
            == if Canon(w.key) != Canon(k) then TypedAt(ws, k) else if w.Insert? then Some(w.entry) else None
  {
    assert (ws + [w])[..|ws|] == ws;
  }

  /** After a history, the writes for some keys replace exactly what is under those keys. */
  lemma {:induction false} TypedAfter(ws: seq<Write>, s: State, keys: seq<Key>, k: Key)
    requires forall key :: key in keys ==> Canon(key) == key
    ensures TypedAt(ws + WritesOf(s, keys), k) == if Canon(k) in keys then Lookup(s, k) else TypedAt(ws, k)
    decreases |keys|
  {
    if keys == [] {
      assert ws + WritesOf(s, keys) == ws;
    } else {
      var front, last := keys[..|keys| - 1], keys[|keys| - 1];
      assert keys == front + [last];
      TypedAfter(ws, s, front, k);
      assert ws + WritesOf(s, keys) == (ws + WritesOf(s, front)) + [WriteOf(s, last)];
      TypedSnoc(ws + WritesOf(s, front), WriteOf(s, last), k);
      LookupCanon(s, k);
    }
  }

  lemma {:induction false} WritesLegal(sha: Hash, s: State, keys: seq<Key>)
    requires Sound(sha, s)
    ensures AllLegal(WritesOf(s, keys))
    decreases |keys|
  {
    if keys != [] {
      var last := keys[|keys| - 1];
      WritesLegal(sha, s, keys[..|keys| - 1]);
      if Lookup(s, last).Some? { EntryLegal(sha, s, last); }
    }
  }

  /** A legal history of writes whose outcome is the state, key by key. */
  ghost predicate Represents(ws: seq<Write>, s: State) {
    AllLegal(ws) && forall k :: TypedAt(ws, k) == Lookup(s, k)
  }

  lemma WriteKeysCanonical(actor: Address, a: Action)
    ensures forall key :: key in WriteKeys(actor, a) ==> Canon(key) == key
  {
  }

  /** The writes of a transaction: those of the declared keys when it commits, none when it is rolled back. */
  function TxWrites(sha: Hash, s: State, tx: Tx): seq<Write> {
    if Execute(sha, s, tx).Ok? then WritesOf(Execute(sha, s, tx).value, WriteKeys(tx.actor, tx.action)) else []
  }

  function RunWrites(sha: Hash, s: State, txs: seq<Tx>): seq<Write>
    decreases |txs|
  {
    if txs == [] then [] else TxWrites(sha, s, txs[0]) + RunWrites(sha, Apply(sha, s, txs[0]), txs[1..])
  }

  /** Every action is a legal sequence of writes to its declared keys. */
  lemma StepRepresented(sha: Hash, ws: seq<Write>, s: State, tx: Tx, t: State)
    requires Represents(ws, s) && Execute(sha, s, tx) == Ok(t) && Sound(sha, t)
    ensures Represents(ws + WritesOf(t, WriteKeys(tx.actor, tx.action)), t)
  {
    var keys := WriteKeys(tx.actor, tx.action);
    WriteKeysCanonical(tx.actor, tx.action);
    WritesLegal(sha, t, keys);
    forall k
      ensures TypedAt(ws + WritesOf(t, keys), k) == Lookup(t, k)
    {
      TypedAfter(ws, t, keys, k);
      if Canon(k) !in keys { StepFrame(sha, s, tx, t, k); }
    }
  }

  lemma StepSound(sha: Hash, s: State, tx: Tx, t: State)
    requires Sound(sha, s) && Execute(sha, s, tx) == Ok(t)
    ensures Sound(sha, t)
  {
    StepKeepsLedger(sha, s, tx);
    BoardFrame(sha, s, tx, t);
    StepKeepsBoard(sha, s.board, tx, t.board);
  }

  lemma TxRepresented(sha: Hash, ws: seq<Write>, s: State, tx: Tx)
    requires Sound(sha, s) && Represents(ws, s)
    ensures Sound(sha, Apply(sha, s, tx)) && Represents(ws + TxWrites(sha, s, tx), Apply(sha, s, tx))
  {
    var t := Apply(sha, s, tx);
    if Execute(sha, s, tx).Ok? {
      StepSound(sha, s, tx, t);
      StepRepresented(sha, ws, s, tx, t);
    } else {
      assert ws + TxWrites(sha, s, tx) == ws;
    }
  }

  lemma Reassociate(u: seq<Write>, v: seq<Write>, w: seq<Write>)
    ensures u + (v + w) == (u + v) + w
  {
  }

  lemma {:induction false} RunRepresented(sha: Hash, ws: seq<Write>, s: State, txs: seq<Tx>)
    requires Sound(sha, s) && Represents(ws, s)
    ensures Represents(ws + RunWrites(sha, s, txs), Run(sha, s, txs))
    decreases |txs|
  {
    if txs == [] {
      assert ws + RunWrites(sha, s, txs) == ws;
    } else {
      var t, now := Apply(sha, s, txs[0]), TxWrites(sha, s, txs[0]);
      var later := RunWrites(sha, t, txs[1..]);
      TxRepresented(sha, ws, s, txs[0]);
      RunRepresented(sha, ws + now, t, txs[1..]);
      assert RunWrites(sha, s, txs) == now + later;
      Reassociate(ws, now, later);
    }
  }

  /** Reading bytes under any key gives what the represented state holds there. */
  lemma BytesReadBack(first: u8, ws: seq<Write>, s: State, k: Key)
    requires first + 20 < 256 && Represents(ws, s)
    ensures Read(first, Raw(first, ws), k) == if Lookup(s, k).Some? then Some(Ok(Lookup(s, k).value)) else None
  {
    BytesRefineTyped(first, ws, k);
    assert TypedAt(ws, k) == Lookup(s, k);
  }

  // ----- The bytes themselves -----

  /** The bytes under a key are the encoded entry that the history leaves there. */
  lemma {:induction false} RawHolds(first: u8, ws: seq<Write>, k: Key)
    requires first + 20 < 256 && AllLegal(ws)
    ensures KeyBytes(first, k) in Raw(first, ws) <==> Canon(k) in Typed(ws)
    ensures Canon(k) in Typed(ws) ==> Encode(Typed(ws)[Canon(k)]) == Ok(Raw(first, ws)[KeyBytes(first, k)])
    decreases |ws|
  {
    if ws != [] {
      var w := ws[|ws| - 1];
      RawHolds(first, ws[..|ws| - 1], k);
      assert Legal(w);
      KeyBytesInjective(first, k, w.key);
    }
  }

  /** What is stored under some bytes, if anything. */
  function Under(m: map<Bytes, Bytes>, k: Bytes): Option<Bytes> { if k in m then Some(m[k]) else None }

  lemma StoredUnder(first: u8, ws: seq<Write>, s: State, k: Key)
    requires first + 20 < 256 && Represents(ws, s)
    ensures var b := Under(Raw(first, ws), KeyBytes(first, k));
            if Lookup(s, k).None? then b == None else b.Some? && Encode(Lookup(s, k).value) == Ok(b.value)
  {
    RawHolds(first, ws, k);
    assert TypedAt(ws, k) == Lookup(s, k);
  }

  // ----- Genesis -----

  const SINGLETONS: seq<Key> :=
    [SingletonKey(TreasuryConfigKey), SingletonKey(TreasuryStateKey), SingletonKey(FeeRouterConfigKey),
     SingletonKey(FeeRouterStateKey), SingletonKey(VaiConfigKey), SingletonKey(VaiStateKey),
     SingletonKey(RiskConfigKey), SingletonKey(ReserveStateKey), SingletonKey(ProofConfigKey)]

  /** The keys genesis writes: the singletons and the allocated balances. */
  function GenesisKeys(allocs: seq<Allocation>): seq<Key> {
    if allocs == [] then SINGLETONS else GenesisKeys(allocs[..|allocs| - 1]) + [VeilOf(allocs[|allocs| - 1].address)]
  }

  /** An account has a balance exactly when genesis writes one for it. */
  lemma {:induction false} GenesisAccounts(allocs: seq<Allocation>, k: Key)
    requires CreditAll(map[], allocs).Ok?
    ensures k in GenesisKeys(allocs)
            <==> k in SINGLETONS || (k.AccountKey? && k.kind == VeilBalance && k.who in CreditAll(map[], allocs).value)
  {
    if allocs != [] { GenesisAccounts(allocs[..|allocs| - 1], k); }
  }

  lemma SingletonListed(k: Key)
    requires k.SingletonKey?
    ensures k in SINGLETONS
  {
    match k.which
    case TreasuryConfigKey => assert SINGLETONS[0] == k;
    case TreasuryStateKey => assert SINGLETONS[1] == k;
    case FeeRouterConfigKey => assert SINGLETONS[2] == k;
    case FeeRouterStateKey => assert SINGLETONS[3] == k;
    case VaiConfigKey => assert SINGLETONS[4] == k;
    case VaiStateKey => assert SINGLETONS[5] == k;
    case RiskConfigKey => assert SINGLETONS[6] == k;
    case ReserveStateKey => assert SINGLETONS[7] == k;
    case ProofConfigKey => assert SINGLETONS[8] == k;
  }

  /** Genesis writes every key that holds something. */
  lemma GenesisLookup(allocs: seq<Allocation>, t: Tokenomics, k: Key)
    requires GenesisState(allocs, t).Ok? && Canon(k) !in GenesisKeys(allocs)
    ensures Lookup(GenesisState(allocs, t).value, k) == None
  {
    GenesisAccounts(allocs, Canon(k));
    if k.SingletonKey? { SingletonListed(k); }
  }

  lemma GenesisRepresented(sha: Hash, allocs: seq<Allocation>, t: Tokenomics)
    requires GenesisState(allocs, t).Ok? && Sound(sha, GenesisState(allocs, t).value)
    ensures var g := GenesisState(allocs, t).value; Represents(WritesOf(g, GenesisKeys(allocs)), g)
  {
    var g, keys := GenesisState(allocs, t).value, GenesisKeys(allocs);
    WritesLegal(sha, g, keys);
    forall key | key in keys
      ensures Canon(key) == key
    {
      GenesisAccounts(allocs, key);
    }
    forall k
      ensures TypedAt(WritesOf(g, keys), k) == Lookup(g, k)
    {
      TypedAfter([], g, keys, k);
      assert [] + WritesOf(g, keys) == WritesOf(g, keys);
      if Canon(k) !in keys { GenesisLookup(allocs, t, k); }
    }
  }

  // ----- The bytes determine the state -----

  /** Two states that agree under every key are equal. */
  lemma LookupDetermines(s: State, t: State)
    requires forall k :: Lookup(s, k) == Lookup(t, k)
    ensures s == t
  {
    BankDetermined(s, t);
    EconDetermined(s, t);
    BoardDetermined(s, t);
  }

  lemma BankDetermined(s: State, t: State)
    requires forall k :: Lookup(s, k) == Lookup(t, k)
    ensures s.bank == t.bank
  {
    forall who: Address
      ensures AmountAt(s.bank.veil, who) == AmountAt(t.bank.veil, who)
      ensures AmountAt(s.bank.vai, who) == AmountAt(t.bank.vai, who)
      ensures AmountAt(s.bank.lp, who) == AmountAt(t.bank.lp, who)
    {
      assert Lookup(s, VeilOf(who)) == Lookup(t, VeilOf(who));
      assert Lookup(s, VaiOf(who)) == Lookup(t, VaiOf(who));
      assert Lookup(s, LpBalanceKey(0, 1, who)) == Lookup(t, LpBalanceKey(0, 1, who));
    }
    SameAccounts(s.bank.veil, t.bank.veil);
    SameAccounts(s.bank.vai, t.bank.vai);
    SameAccounts(s.bank.lp, t.bank.lp);
    assert Lookup(s, PoolKey(0, 1)) == Lookup(t, PoolKey(0, 1));
  }

  lemma SameAccounts(m: Accounts, n: Accounts)
    requires forall who: Address :: AmountAt(m, who) == AmountAt(n, who)
    ensures m == n
  {
    forall who: Address
      ensures who in m <==> who in n
      ensures who in m ==> m[who] == n[who]
    {
      assert AmountAt(m, who) == AmountAt(n, who);
    }
    assert m.Keys == n.Keys;
  }

  lemma EconDetermined(s: State, t: State)
    requires forall k :: Lookup(s, k) == Lookup(t, k)
    ensures s.econ == t.econ
  {
    forall k | EconKey(k)
      ensures EconLookup(s.econ, k) == EconLookup(t.econ, k)
    {
      assert Lookup(s, k) == Lookup(t, k);
    }
    assert EconLookup(s.econ, SingletonKey(TreasuryConfigKey)) == EconLookup(t.econ, SingletonKey(TreasuryConfigKey));
    assert EconLookup(s.econ, SingletonKey(TreasuryStateKey)) == EconLookup(t.econ, SingletonKey(TreasuryStateKey));
    assert EconLookup(s.econ, SingletonKey(FeeRouterConfigKey)) == EconLookup(t.econ, SingletonKey(FeeRouterConfigKey));
    assert EconLookup(s.econ, SingletonKey(FeeRouterStateKey)) == EconLookup(t.econ, SingletonKey(FeeRouterStateKey));
    assert EconLookup(s.econ, SingletonKey(VaiConfigKey)) == EconLookup(t.econ, SingletonKey(VaiConfigKey));
    assert EconLookup(s.econ, SingletonKey(VaiStateKey)) == EconLookup(t.econ, SingletonKey(VaiStateKey));
    assert EconLookup(s.econ, SingletonKey(RiskConfigKey)) == EconLookup(t.econ, SingletonKey(RiskConfigKey));
    assert EconLookup(s.econ, SingletonKey(ReserveStateKey)) == EconLookup(t.econ, SingletonKey(ReserveStateKey));
  }

  lemma BoardDetermined(s: State, t: State)
    requires forall k :: Lookup(s, k) == Lookup(t, k)
    ensures s.board == t.board
  {
    var b, c := s.board, t.board;
    assert Lookup(s, SingletonKey(ProofConfigKey)) == Lookup(t, SingletonKey(ProofConfigKey));
    assert b.markets == c.markets by {
      forall id: Id
        ensures id in b.markets <==> id in c.markets
        ensures id in b.markets ==> b.markets[id] == c.markets[id]
      {
        assert Lookup(s, MarketKey(id)) == Lookup(t, MarketKey(id));
      }
    }
    assert b.orders == c.orders by {
      forall k: OrderSlot
        ensures RawAt(b.orders, k) == RawAt(c.orders, k)
      {
        var key := CommitmentKey(k.market, k.window, k.trader);
        assert Lookup(s, key) == Lookup(t, key);
      }
      SameRaw(b.orders, c.orders);
    }
    assert b.oracle == c.oracle by {
      forall k: OracleSlot
        ensures RawAt(b.oracle, k) == RawAt(c.oracle, k)
      {
        assert Lookup(s, OracleKey(k.market, k.index)) == Lookup(t, OracleKey(k.market, k.index));
      }
      SameRaw(b.oracle, c.oracle);
    }
    ProofsDetermined(s, t);
    BatchesDetermined(s, t);
  }

  lemma SameRaw<K>(m: map<K, Bytes>, n: map<K, Bytes>)
    requires forall k: K :: RawAt(m, k) == RawAt(n, k)
    ensures m == n
  {
    forall k: K
      ensures k in m <==> k in n
      ensures k in m ==> m[k] == n[k]
    {
      assert RawAt(m, k) == RawAt(n, k);
    }
    assert m.Keys == n.Keys;
  }

  lemma ProofsDetermined(s: State, t: State)
    requires forall k :: Lookup(s, k) == Lookup(t, k)
    ensures s.board.proofs == t.board.proofs
  {
    var p, q := s.board.proofs, t.board.proofs;
    forall k: Slot
      ensures (k in p.records <==> k in q.records) && (k in p.records ==> p.records[k] == q.records[k])
      ensures (k in p.blobs <==> k in q.blobs) && (k in p.blobs ==> p.blobs[k] == q.blobs[k])
      ensures (k in p.glyphs <==> k in q.glyphs) && (k in p.glyphs ==> p.glyphs[k] == q.glyphs[k])
    {
      var proof := WindowKey(BatchProofOf, k.market, k.window);
      var vellum := WindowKey(VellumProofOf, k.market, k.window);
      var glyph := WindowKey(GlyphOf, k.market, k.window);
      assert Lookup(s, proof) == Lookup(t, proof);
      assert Lookup(s, vellum) == Lookup(t, vellum);
      assert Lookup(s, glyph) == Lookup(t, glyph);
    }
    forall who: Address
      ensures (who in p.sworn <==> who in q.sworn) && (who in p.sworn ==> p.sworn[who] == q.sworn[who])
    {
      assert Lookup(s, AccountKey(BloodswornOf, who)) == Lookup(t, AccountKey(BloodswornOf, who));
    }
    assert p.records == q.records && p.blobs == q.blobs && p.glyphs == q.glyphs && p.sworn == q.sworn;
  }

  lemma BatchesDetermined(s: State, t: State)
    requires forall k :: Lookup(s, k) == Lookup(t, k)
    ensures s.board.batches == t.board.batches
  {
    var m, n := s.board.batches, t.board.batches;
    forall k: Slot
      ensures (k in m <==> k in n) && (k in m ==> m[k] == n[k])
    {
      var key := WindowKey(BatchResultOf, k.market, k.window);
      assert Lookup(s, key) == Lookup(t, key);
      if k in m && k in n { ResultDetermined(m[k], n[k]); }
    }
    assert m == n;
  }

  /** A batch result is recovered from its bytes. */
  lemma ResultDetermined(x: BatchResult, y: BatchResult)
    requires ResultBytes(x) == ResultBytes(y)
    ensures x == y
  {
    SplitConcat(U64(x.price), U64(x.volume) + x.fillsHash, U64(y.price), U64(y.volume) + y.fillsHash);
    SplitConcat(U64(x.volume), x.fillsHash, U64(y.volume), y.fillsHash);
    U64Injective(x.price, y.price);
    U64Injective(x.volume, y.volume);
  }

  /** Histories with the same bytes represent the same state. */
  lemma BytesDetermine(first: u8, v: seq<Write>, s: State, w: seq<Write>, t: State)
    requires first + 20 < 256 && Represents(v, s) && Represents(w, t) && Raw(first, v) == Raw(first, w)
    ensures s == t
  {
    forall k
      ensures Lookup(s, k) == Lookup(t, k)
    {
      BytesReadBack(first, v, s, k);
      BytesReadBack(first, w, t, k);
    }
    LookupDetermines(s, t);
  }
}
