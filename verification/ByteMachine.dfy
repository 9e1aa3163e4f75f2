/** The state machine as it runs on bytes: Get the declared keys, compute, Put or Remove the written ones. */
module ByteMachine {
  import opened Words
  import opened Wire
  import opened Balances
  import opened Economy
  import opened Preimage
  import opened Clearing
  import opened Chain
  import opened StorageKeys
  import opened ByteStore
  import opened StateKeys
  import opened StateBytes
  import opened StateReads
  import Amm

  type Store = map<Bytes, Bytes>
  type Found = map<Key, Entry>

  // ----- From decoded entries to a state -----

  /** The decoded entries under some keys. */
  function Fetch(first: u8, m: Store, keys: seq<Key>): Found
    requires first + 20 < 256
  {
    map k | k in keys && KeyBytes(first, k) in m && Decode(KindOfKey(k), m[KeyBytes(first, k)]).Ok? ::
      Decode(KindOfKey(k), m[KeyBytes(first, k)]).value
  }

  /** The accounts, markets, windows and slots that some keys can be about. */
  datatype Scope = Scope(
    people: set<Address>, markets: set<Id>, windows: set<Slot>, orders: set<OrderSlot>, shares: set<OracleSlot>)

  function ScopeOf(actor: Address, a: Action): Scope {
    match a
    case Transfer(to, _, _) => Scope({actor, to}, {}, {}, {}, {})
    case MintVai(to, _) => Scope({to}, {}, {}, {}, {})
    case CreateMarket(id, _, _, _, _) => Scope({actor}, {id}, {}, {}, {})
    case ResolveMarket(id, _, _) => Scope({}, {id}, {}, {}, {})
    case Dispute(id, _, _) => Scope({actor}, {id}, {}, {}, {OracleSlot(id, DISPUTE_INDEX)})
    case CommitOrder(w, _, _) => Scope({}, {w.market}, {}, {OrderSlot(w.market, w.window, actor)}, {})
    case RevealBatch(w, index, _) => Scope({}, {w.market}, {}, {}, {OracleSlot(w.market, index)})
    case ClearBatch(x) => Scope({}, {x.market}, {Slot(x.market, x.window)}, {}, {})
    case SubmitBatchProof(p) => Scope({actor}, {p.slot.market}, {p.slot}, {}, {})
    case _ => Scope({actor}, {}, {}, {}, {})
  }

  /** A key is about something in scope. */
  predicate InScope(x: Scope, k: Key) {
    match k
    case SingletonKey(_) => true
    case PoolKey(_, _) => true
    case AccountKey(_, who) => who in x.people
    case LpBalanceKey(_, _, who) => who in x.people
    case MarketKey(id) => id in x.markets
    case WindowKey(_, id, window) => Slot(id, window) in x.windows
    case CommitmentKey(id, window, who) => OrderSlot(id, window, who) in x.orders
    case OracleKey(id, index) => OracleSlot(id, index) in x.shares
  }

  lemma DeclaredInScope(actor: Address, a: Action, k: Key)
    requires k in DeclaredKeys(actor, a)
    ensures Canon(k) == k && InScope(ScopeOf(actor, a), k)
  {
  }

  function Amounts(x: Scope, f: Found, kind: PerAccount): Accounts {
    map who | who in x.people && AccountKey(kind, who) in f && f[AccountKey(kind, who)].AmountEntry? ::
      f[AccountKey(kind, who)].amount
  }

  function LpAmounts(x: Scope, f: Found): Accounts {
    map who | who in x.people && LpOf(who) in f && f[LpOf(who)].AmountEntry? :: f[LpOf(who)].amount
  }

  function LoadBank(x: Scope, f: Found): Amm.Bank {
    Amm.Bank(Amounts(x, f, VeilBalance), Amounts(x, f, VaiBalance), LpAmounts(x, f),
             if POOL in f && f[POOL].PoolEntry? then Some(f[POOL].pool) else None)
  }

  /** The entry of a singleton; an undeclared one is not there. */
  function EntryOf(f: Found, which: Single): Entry {
    if SingletonKey(which) in f then f[SingletonKey(which)] else RawEntry([])
  }

  /** An action sees arbitrary values, here zeros, under the singletons it has not declared. */
  function LoadEcon(f: Found, who: Address): Econ {
    var tc, ts := EntryOf(f, TreasuryConfigKey), EntryOf(f, TreasuryStateKey);
    var fc, fs := EntryOf(f, FeeRouterConfigKey), EntryOf(f, FeeRouterStateKey);
    var vc, vs := EntryOf(f, VaiConfigKey), EntryOf(f, VaiStateKey);
    var rc, rs := EntryOf(f, RiskConfigKey), EntryOf(f, ReserveStateKey);
    Econ(
      if tc.TreasuryConfigEntry? then tc.treasuryConfig else TreasuryConfig(who, who, 0, 0),
      if ts.TreasuryEntry? then ts.treasury else Treasury(0, 0, 0, 0),
      if fc.FeeConfigEntry? then fc.feeConfig else FeeConfig(0, 0, 0),
      if fs.FeesEntry? then fs.fees else Fees(0, 0, 0),
      if vc.VaiConfigEntry? then vc.vaiConfig else VaiConfig(who, 0, 0, 0),
      if vs.VaiEntry? then vs.vai else Vai(0, 0, 0),
      if rc.RiskEntry? then rc.risk else Risk(0, 0, 0, 0, 0, 0, 0),
      if rs.ReserveEntry? then rs.reserve else Reserve(0, 0))
  }

  function WindowOf(item: PerWindow, w: Slot): Key { WindowKey(item, w.market, w.window) }

  function LoadProofs(x: Scope, f: Found): Proofs {
    Proofs(
      map w | w in x.windows && WindowOf(BatchProofOf, w) in f && f[WindowOf(BatchProofOf, w)].RecordEntry? ::
        f[WindowOf(BatchProofOf, w)].record,
      map w | w in x.windows && WindowOf(VellumProofOf, w) in f && f[WindowOf(VellumProofOf, w)].VellumEntry? ::
        f[WindowOf(VellumProofOf, w)].proof,
      map who | who in x.people && AccountKey(BloodswornOf, who) in f && f[AccountKey(BloodswornOf, who)].SwornEntry? ::
        f[AccountKey(BloodswornOf, who)].sworn,
      map w | w in x.windows && WindowOf(GlyphOf, w) in f && f[WindowOf(GlyphOf, w)].GlyphEntry? ::
        f[WindowOf(GlyphOf, w)].glyph)
  }

  /** A batch result from its raw bytes; no action reads one. */
  function ResultFrom(b: Bytes): BatchResult {
    if |b| < 16 then BatchResult(0, 0, []) else BatchResult(AsU64(b[..8]), AsU64(b[8..16]), b[16..])
  }

  function LoadBatches(x: Scope, f: Found): map<Slot, BatchResult> {
    map w | w in x.windows && WindowOf(BatchResultOf, w) in f && f[WindowOf(BatchResultOf, w)].RawEntry? ::
      ResultFrom(f[WindowOf(BatchResultOf, w)].raw)
  }

  function LoadMarkets(x: Scope, f: Found): map<Id, Market> {
    map id | id in x.markets && MarketKey(id) in f && f[MarketKey(id)].MarketEntry? :: f[MarketKey(id)].listing
  }

  function OrderOf(o: OrderSlot): Key { CommitmentKey(o.market, o.window, o.trader) }

  function LoadOrders(x: Scope, f: Found): map<OrderSlot, Bytes> {
    map o | o in x.orders && OrderOf(o) in f && f[OrderOf(o)].RawEntry? :: f[OrderOf(o)].raw
  }

  function ShareOf(o: OracleSlot): Key { OracleKey(o.market, o.index) }

  function LoadOracle(x: Scope, f: Found): map<OracleSlot, Bytes> {
    map o | o in x.shares && ShareOf(o) in f && f[ShareOf(o)].RawEntry? :: f[ShareOf(o)].raw
  }

  function LoadConfig(f: Found, who: Address): ProofConfig {
    var c := EntryOf(f, ProofConfigKey);
    if c.ProofConfigEntry? then c.config else ProofConfig(false, 0, 0, 0, who)
  }

  function LoadBoard(x: Scope, f: Found, who: Address): Board {
    Board(LoadConfig(f, who), LoadMarkets(x, f), LoadOrders(x, f), LoadOracle(x, f), LoadBatches(x, f),
          LoadProofs(x, f))
  }

  /** The part of the state that the fetched entries make up. */
  function Load(x: Scope, f: Found, who: Address): State {
    State(LoadBank(x, f), LoadEcon(f, who), LoadBoard(x, f, who))
  }

  /** The fetched entry under a key is what the state holds there. */
  predicate FetchedAt(s: State, f: Found, k: Key) {
    Lookup(s, k) == if k in f then Some(f[k]) else None
  }

  lemma LoadBankAt(s: State, x: Scope, f: Found, k: Key)
    requires BankKey(k) && Canon(k) == k && InScope(x, k) && FetchedAt(s, f, k)
    ensures BankLookup(LoadBank(x, f), k) == Lookup(s, k)
  {
    assert k.LpBalanceKey? && VeilVai(k.asset0, k.asset1) ==> k == LpOf(k.who);
  }

  lemma LoadEconAt(s: State, f: Found, who: Address, k: Key)
    requires EconKey(k) && FetchedAt(s, f, k)
    ensures EconLookup(LoadEcon(f, who), k) == Lookup(s, k)
  {
  }

  lemma ResultRecovered(r: BatchResult)
    ensures ResultFrom(ResultBytes(r)) == r
  {
    var b := ResultBytes(r);
    assert b[..8] == U64(r.price) && b[8..16] == U64(r.volume) && b[16..] == r.fillsHash;
    WordRoundTrips(0, 0, r.price, 0);
    WordRoundTrips(0, 0, r.volume, 0);
  }

  lemma LoadBatchAt(m: map<Slot, BatchResult>, x: Scope, f: Found, w: Slot)
    requires w in x.windows && (w in m <==> WindowOf(BatchResultOf, w) in f)
    requires w in m ==> f[WindowOf(BatchResultOf, w)] == RawEntry(ResultBytes(m[w]))
    ensures (w in LoadBatches(x, f) <==> w in m) && (w in m ==> LoadBatches(x, f)[w] == m[w])
  {
    if w in m { ResultRecovered(m[w]); }
  }

  lemma LoadRecordAt(m: map<Slot, Record>, x: Scope, f: Found, w: Slot)
    requires w in x.windows && (w in m <==> WindowOf(BatchProofOf, w) in f)
    requires w in m ==> f[WindowOf(BatchProofOf, w)] == RecordEntry(m[w])
    ensures var n := LoadProofs(x, f).records; (w in n <==> w in m) && (w in m ==> n[w] == m[w])
  {
  }

  lemma LoadBlobAt(m: map<Slot, Bytes>, x: Scope, f: Found, w: Slot)
    requires w in x.windows && (w in m <==> WindowOf(VellumProofOf, w) in f)
    requires w in m ==> f[WindowOf(VellumProofOf, w)] == VellumEntry(m[w])
    ensures var n := LoadProofs(x, f).blobs; (w in n <==> w in m) && (w in m ==> n[w] == m[w])
  {
  }

  lemma LoadGlyphAt(m: map<Slot, Glyph>, x: Scope, f: Found, w: Slot)
    requires w in x.windows && (w in m <==> WindowOf(GlyphOf, w) in f)
    requires w in m ==> f[WindowOf(GlyphOf, w)] == GlyphEntry(m[w])
    ensures var n := LoadProofs(x, f).glyphs; (w in n <==> w in m) && (w in m ==> n[w] == m[w])
  {
  }

  lemma LoadWindowAt(s: State, x: Scope, f: Found, who: Address, item: PerWindow, w: Slot)
    requires w in x.windows && FetchedAt(s, f, WindowOf(item, w))
    ensures WindowLookup(LoadBoard(x, f, who), item, w) == WindowLookup(s.board, item, w)
  {
    match item
    case BatchResultOf => LoadBatchAt(s.board.batches, x, f, w);
    case BatchProofOf => LoadRecordAt(s.board.proofs.records, x, f, w);
    case VellumProofOf => LoadBlobAt(s.board.proofs.blobs, x, f, w);
    case GlyphOf => LoadGlyphAt(s.board.proofs.glyphs, x, f, w);
  }

  lemma LoadBoardAt(s: State, x: Scope, f: Found, who: Address, k: Key)
    requires BoardKey(k) && InScope(x, k) && FetchedAt(s, f, k)
    ensures BoardLookup(LoadBoard(x, f, who), k) == Lookup(s, k)
  {
    if k.WindowKey? {
      var w := Slot(k.market, k.window);
      assert k == WindowOf(k.item, w);
      LoadWindowAt(s, x, f, who, k.item, w);
    } else if k.CommitmentKey? {
      assert k == OrderOf(OrderSlot(k.market, k.window, k.who));
    } else if k.OracleKey? {
      assert k == ShareOf(OracleSlot(k.market, k.index));
    }
  }

  lemma LoadAgrees(s: State, x: Scope, f: Found, who: Address, keys: seq<Key>)
    requires forall k :: k in keys ==> Canon(k) == k && InScope(x, k) && FetchedAt(s, f, k)
    ensures Agree(s, Load(x, f, who), keys)
  {
    forall k | k in keys
      ensures Lookup(s, k) == Lookup(Load(x, f, who), k)
    {
      assert FetchedAt(s, f, k);
      if BankKey(k) {
        LoadBankAt(s, x, f, k);
      } else if EconKey(k) {
        LoadEconAt(s, f, who, k);
      } else {
        LoadBoardAt(s, x, f, who, k);
      }
    }
  }

  // ----- Execution on bytes -----

  /** Store an entry, or remove the key. */
  function PutOne(first: u8, m: Store, w: Write): Store
    requires first + 20 < 256
  {
    match w
    case Insert(k, e) => if Encode(e).Ok? then m[KeyBytes(first, k) := Encode(e).value] else m
    case Remove(k) => m - {KeyBytes(first, k)}
  }

  function PutAll(first: u8, m: Store, ws: seq<Write>): Store
    requires first + 20 < 256
  {
    if ws == [] then m else PutOne(first, PutAll(first, m, ws[..|ws| - 1]), ws[|ws| - 1])
  }

  /** What an action sees of the bytes. */
  function Seen(first: u8, m: Store, actor: Address, a: Action): State
    requires first + 20 < 256
  {
    Load(ScopeOf(actor, a), Fetch(first, m, DeclaredKeys(actor, a)), actor)
  }

  /** An action on bytes: decode what is stored under its declared keys, compute, encode what it writes. */
  function ByteExecute(first: u8, sha: Hash, m: Store, tx: Tx): Result<Store>
    requires first + 20 < 256
  {
    var seen := Seen(first, m, tx.actor, tx.action);
    var next :- Execute(sha, seen, tx);
    Ok(PutAll(first, m, WritesOf(next, WriteKeys(tx.actor, tx.action))))
  }

  /** A failed action leaves the bytes as they were. */
  function Committed(r: Result<Store>, m: Store): Store { if r.Ok? then r.value else m }

  function ByteRun(first: u8, sha: Hash, m: Store, txs: seq<Tx>): Store
    requires first + 20 < 256
    decreases |txs|
  {
    if txs == [] then m else ByteRun(first, sha, Committed(ByteExecute(first, sha, m, txs[0]), m), txs[1..])
  }

  lemma RawSnoc(first: u8, v: seq<Write>, w: Write)
    requires first + 20 < 256 && AllLegal(v) && Legal(w)
    ensures AllLegal(v + [w]) && Raw(first, v + [w]) == PutOne(first, Raw(first, v), w)
  {
    assert (v + [w])[..|v|] == v;
  }

  lemma LegalParts(v: seq<Write>, w: Write)
    ensures AllLegal(v + [w]) <==> AllLegal(v) && Legal(w)
  {
    if AllLegal(v + [w]) {
      assert (v + [w])[|v|] == w;
      assert forall i :: 0 <= i < |v| ==> (v + [w])[i] == v[i];
    }
  }

  lemma {:induction false} RawAppend(first: u8, v: seq<Write>, ws: seq<Write>)
    requires first + 20 < 256 && AllLegal(v) && AllLegal(ws)
    ensures AllLegal(v + ws) && Raw(first, v + ws) == PutAll(first, Raw(first, v), ws)
    decreases |ws|
  {
    if ws == [] {
      assert v + ws == v;
    } else {
      var front, last := ws[..|ws| - 1], ws[|ws| - 1];
      assert ws == front + [last];
      LegalParts(front, last);
      RawAppend(first, v, front);
      RawSnoc(first, v + front, last);
      Reassociate(v, front, [last]);
    }
  }

  /** What is fetched from a represented state is what the state holds. */
  lemma FetchedState(first: u8, ws: seq<Write>, s: State, keys: seq<Key>, k: Key)
    requires first + 20 < 256 && Represents(ws, s) && k in keys
    ensures FetchedAt(s, Fetch(first, Raw(first, ws), keys), k)
  {
    BytesReadBack(first, ws, s, k);
  }

  /** States that agree on some keys are written back the same. */
  lemma {:induction false} SameWrites(t: State, v: State, keys: seq<Key>)
    requires forall k :: k in keys ==> Lookup(t, k) == Lookup(v, k)
    ensures WritesOf(t, keys) == WritesOf(v, keys)
    decreases |keys|
  {
    if keys != [] {
      var front, last := keys[..|keys| - 1], keys[|keys| - 1];
      assert last in keys && forall k :: k in front ==> k in keys;
      SameWrites(t, v, front);
    }
  }

  /** The bytes an action sees agree with the state on everything it has declared. */
  lemma SeenAgrees(first: u8, ws: seq<Write>, s: State, actor: Address, a: Action)
    requires first + 20 < 256 && Represents(ws, s)
    ensures Agree(s, Seen(first, Raw(first, ws), actor, a), DeclaredKeys(actor, a))
  {
    var keys := DeclaredKeys(actor, a);
    var f := Fetch(first, Raw(first, ws), keys);
    forall k | k in keys
      ensures Canon(k) == k && InScope(ScopeOf(actor, a), k) && FetchedAt(s, f, k)
    {
      DeclaredInScope(actor, a, k);
      FetchedState(first, ws, s, keys, k);
    }
    LoadAgrees(s, ScopeOf(actor, a), f, actor, keys);
  }

  /**
   The byte machine commutes with the state machine: on the bytes of a sound state an action fails with the same
   error, or leaves the bytes of the next state.
   */
  lemma ByteExecuteCommutes(first: u8, sha: Hash, ws: seq<Write>, s: State, tx: Tx)
    requires first + 20 < 256 && Represents(ws, s) && Sound(sha, s)
    ensures var r, q := Execute(sha, s, tx), ByteExecute(first, sha, Raw(first, ws), tx);
            if r.Err? then q == Err(r.error)
            else AllLegal(ws + TxWrites(sha, s, tx)) && q == Ok(Raw(first, ws + TxWrites(sha, s, tx)))
  {
    var seen := Seen(first, Raw(first, ws), tx.actor, tx.action);
    SeenAgrees(first, ws, s, tx.actor, tx.action);
    StepReads(sha, s, seen, tx);
    var r, q := Execute(sha, s, tx), Execute(sha, seen, tx);
    if r.Ok? {
      forall k | k in WriteKeys(tx.actor, tx.action)
        ensures Lookup(r.value, k) == Lookup(q.value, k)
      {
        WritesAreDeclared(tx.actor, tx.action, k);
      }
      SameWrites(r.value, q.value, WriteKeys(tx.actor, tx.action));
      StepSound(sha, s, tx, r.value);
      WritesLegal(sha, r.value, WriteKeys(tx.actor, tx.action));
      RawAppend(first, ws, TxWrites(sha, s, tx));
    }
  }

  lemma CommittedBytes(first: u8, ws: seq<Write>, now: seq<Write>, r: Result<State>, q: Result<Store>)
    requires first + 20 < 256 && AllLegal(ws) && AllLegal(ws + now)
    requires if r.Err? then q == Err(r.error) && now == [] else q == Ok(Raw(first, ws + now))
    ensures Committed(q, Raw(first, ws)) == Raw(first, ws + now)
  {
    assert ws + [] == ws;
  }

  /** A run on bytes leaves the bytes of the state that the run leaves. */
  lemma {:induction false} ByteRunCommutes(first: u8, sha: Hash, ws: seq<Write>, s: State, txs: seq<Tx>)
    requires first + 20 < 256 && Represents(ws, s) && Sound(sha, s)
    ensures Represents(ws + RunWrites(sha, s, txs), Run(sha, s, txs))
    ensures ByteRun(first, sha, Raw(first, ws), txs) == Raw(first, ws + RunWrites(sha, s, txs))
    decreases |txs|
  {
    RunRepresented(sha, ws, s, txs);
    if txs == [] {
      assert ws + RunWrites(sha, s, txs) == ws;
    } else {
      var now, t, m := TxWrites(sha, s, txs[0]), Apply(sha, s, txs[0]), Raw(first, ws);
      TxRepresented(sha, ws, s, txs[0]);
      ByteExecuteCommutes(first, sha, ws, s, txs[0]);
      CommittedBytes(first, ws, now, Execute(sha, s, txs[0]), ByteExecute(first, sha, m, txs[0]));
      ByteRunCommutes(first, sha, ws + now, t, txs[1..]);
      Reassociate(ws, now, RunWrites(sha, t, txs[1..]));
    }
  }
}
