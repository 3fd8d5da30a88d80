/** Rebuilding the cache of unspent outputs by one scan from the top of the chain down
    (node/transactions/unspent.go, Reindex and FindunspentTransactions). */
module Reindex {
  import opened Structures
  import opened Storage
  import opened Tree
  import opened Ledger
  import opened ChainLedger
  import Blockchain

  /** Some transaction has no input: the scan reads the key of the first input of every
      transaction that is no coinbase, so it ends there in an index out of range. */
  ghost predicate SomeWithoutInputs(es: seq<Entry>) {
    exists e :: e in es && e.tx.vin == []
  }

  type SpentLists = map<Bytes, seq<int>>

  function SpentOf(m: SpentLists, t: Bytes): seq<int> {
    if t in m then m[t] else []
  }

  function Elements(s: seq<int>): set<int> {
    set v | v in s
  }

  /** The state of the scan after the entries `b`, the last ones of the chain. */
  ghost predicate Scanned(utxo: Utxo, spent: SpentLists, b: seq<Entry>) {
    forall t :: ScannedAt(utxo, spent, b, t)
  }

  ghost predicate ScannedAt(utxo: Utxo, spent: SpentLists, b: seq<Entry>, t: Bytes) {
    Coins(utxo, t) == Unspent(b, t) && Elements(SpentOf(spent, t)) == SpentIn(b, t)
  }

  method IsListed(list: seq<int>, outIdx: int) returns (spent: bool)
    ensures spent <==> outIdx in Elements(list)
  {
    for i := 0 to |list|
      invariant outIdx !in list[..i]
    {
      if list[i] == outIdx {
        return true;
      }
    }
    return false;
  }

  /** Appends an output to the record of a transaction, which is created if missing. */
  function Push(u: Utxo, txid: Bytes, o: Output): Utxo {
    u[txid := (if txid in u then u[txid] else []) + [o]]
  }

  lemma PushCoins(u: Utxo, txid: Bytes, o: Output, first: seq<Coin>, then_: seq<Coin>)
    requires Coins(u, txid) == first + then_
    ensures Coins(Push(u, txid, o), txid) == first + (then_ + [CoinOf(o)])
    ensures forall t | t != txid :: Coins(Push(u, txid, o), t) == Coins(u, t)
  {
    var outs := if txid in u then u[txid] else [];
    assert Strip(outs + [o]) == Strip(outs) + [CoinOf(o)];
  }

  lemma KeepStep(cs: seq<Coin>, i: nat, gone: set<int>)
    requires i < |cs|
    ensures Keep(cs[..i + 1], gone) == Keep(cs[..i], gone) + (if cs[i].index in gone then [] else [cs[i]])
  {
    assert cs[..i + 1][..i] == cs[..i];
  }

  /** The loop over the outputs of one transaction. */
  method CollectOutputs(tx: Transaction, blockHash: Hash, sender: Bytes, utxo0: Utxo, spent: SpentLists)
    returns (utxo: Utxo)
    ensures Coins(utxo, tx.id) ==
            Coins(utxo0, tx.id) + Keep(CoinsOf(Entry(tx, blockHash)), Elements(SpentOf(spent, tx.id)))
    ensures forall t | t != tx.id :: Coins(utxo, t) == Coins(utxo0, t)
  {
    ghost var cs, gone := CoinsOf(Entry(tx, blockHash)), Elements(SpentOf(spent, tx.id));
    utxo := utxo0;
    for outIdx := 0 to |tx.vout|
      invariant Coins(utxo, tx.id) == Coins(utxo0, tx.id) + Keep(cs[..outIdx], gone)
      invariant forall t | t != tx.id :: Coins(utxo, t) == Coins(utxo0, t)
    {
      KeepStep(cs, outIdx, gone);
      var isSpent := false;
      if tx.id in spent {
        isSpent := IsListed(spent[tx.id], outIdx);
      }
      if isSpent {
        continue;
      }
      var oute := LoadFromSimple(tx.vout[outIdx], tx.id, outIdx, sender, tx.IsCoinbase(), blockHash);
      PushCoins(utxo, tx.id, oute, Coins(utxo0, tx.id), Keep(cs[..outIdx], gone));
      utxo := Push(utxo, tx.id, oute);
    }
    assert cs[..|cs|] == cs;
  }

  lemma ElementsSnoc(s: seq<int>, v: int)
    ensures Elements(s + [v]) == Elements(s) + {v}
  {
  }

  /** The loop over the inputs of one transaction. */
  method CollectInputs(tx: Transaction, spent0: SpentLists) returns (spent: SpentLists)
    ensures forall t :: Elements(SpentOf(spent, t)) == Elements(SpentOf(spent0, t)) + InputIndices(tx.vin, t)
  {
    spent := spent0;
    for i := 0 to |tx.vin|
      invariant forall t :: Elements(SpentOf(spent, t)) == Elements(SpentOf(spent0, t)) + InputIndices(tx.vin[..i], t)
    {
      var vin := tx.vin[i];
      ghost var before := spent;
      if vin.txid !in spent {
        spent := spent[vin.txid := []];
      }
      spent := spent[vin.txid := spent[vin.txid] + [vin.vout]];
      ElementsSnoc(SpentOf(before, vin.txid), vin.vout);
      assert tx.vin[..i + 1][..i] == tx.vin[..i];
    }
    assert tx.vin[..|tx.vin|] == tx.vin;
  }

  /** In an ordered chain an entry spends nothing of itself or of what lies behind it. */
  lemma SpendsNothingBehind(a: seq<Entry>, e: Entry, b: seq<Entry>, t: Bytes)
    requires Ordered(a + [e] + b) && (t == e.tx.id || t in Ids(b))
    ensures InputIndices(e.tx.Spends(), t) == {} && (t == e.tx.id ==> t !in Ids(b))
  {
    OrderedFresh(a + [e], b);
    OrderedPrefix(a + [e], b);
    assert (a + [e])[..|a|] == a;
    InputIndicesRef(e.tx.Spends(), t);
  }

  lemma InFront(e: Entry, b: seq<Entry>, t: Bytes)
    ensures SpentIn([e] + b, t) == InputIndices(e.tx.Spends(), t) + SpentIn(b, t)
    ensures EntryAt([e] + b, t) ==
            if t in Ids(b) then EntryAt(b, t) else if t == e.tx.id then Some(e) else None
  {
    SpentAppend([e], b, t);
    assert [e][..0] == [];
  }

  /** Putting one more entry in front keeps the scan exact: its own outputs can only be
      spent behind it, and it spends nothing that lies behind it. */
  lemma ScanStep(a: seq<Entry>, e: Entry, b: seq<Entry>, utxo0: Utxo, spent0: SpentLists,
                 utxo: Utxo, spent: SpentLists, t: Bytes)
    requires Ordered(a + [e] + b) && ScannedAt(utxo0, spent0, b, t)
    requires Coins(utxo, t) == if t == e.tx.id
               then Coins(utxo0, t) + Keep(CoinsOf(e), Elements(SpentOf(spent0, t))) else Coins(utxo0, t)
    requires Elements(SpentOf(spent, t)) == Elements(SpentOf(spent0, t)) + InputIndices(e.tx.Spends(), t)
    ensures ScannedAt(utxo, spent, [e] + b, t)
  {
    var gone := InputIndices(e.tx.Spends(), t);
    InFront(e, b, t);
    assert gone + SpentIn(b, t) == SpentIn(b, t) + gone;
    if t == e.tx.id {
      SpendsNothingBehind(a, e, b, t);
      HasEntry(b, t);
      assert gone + SpentIn(b, t) == SpentIn(b, t);
      assert Unspent(b, t) == [] && [] + Keep(CoinsOf(e), SpentIn(b, t)) == Keep(CoinsOf(e), SpentIn(b, t));
    } else if t in Ids(b) {
      SpendsNothingBehind(a, e, b, t);
      assert gone + SpentIn(b, t) == SpentIn(b, t);
    } else {
      HasEntry(b, t);
    }
  }

  method ScanTransaction(ghost a: seq<Entry>, ghost b: seq<Entry>, tx: Transaction, blockHash: Hash,
                         utxo0: Utxo, spent0: SpentLists, keyHash: KeyHash)
    returns (utxo: Utxo, spent: SpentLists, crashed: bool)
    requires Scanned(utxo0, spent0, b) && Ordered(a + [Entry(tx, blockHash)] + b)
    ensures crashed <==> tx.vin == []
    ensures !crashed ==> Scanned(utxo, spent, [Entry(tx, blockHash)] + b)
  {
    var sender := [];
    crashed := false;
    if !tx.IsCoinbase() {
      if |tx.vin| == 0 {
        return utxo0, spent0, true;
      }
      sender := keyHash(tx.vin[0].pubKey);
    }
    utxo := CollectOutputs(tx, blockHash, sender, utxo0, spent0);
    spent := spent0;
    if !tx.IsCoinbase() {
      spent := CollectInputs(tx, spent0);
    }
    forall t
      ensures ScannedAt(utxo, spent, [Entry(tx, blockHash)] + b, t)
    {
      assert ScannedAt(utxo0, spent0, b, t);
      ScanStep(a, Entry(tx, blockHash), b, utxo0, spent0, utxo, spent, t);
    }
  }

  lemma Around<T>(a: seq<T>, es: seq<T>, b: seq<T>, j: nat)
    requires j < |es|
    ensures (a + es[..j]) + [es[j]] + (es[j + 1..] + b) == a + es + b
    ensures [es[j]] + (es[j + 1..] + b) == es[j..] + b
  {
  }

  /** The transactions of one block, from the last to the first. */
  method ScanBlock(ghost a: seq<Entry>, ghost b: seq<Entry>, block: Block,
                   utxo0: Utxo, spent0: SpentLists, keyHash: KeyHash)
    returns (utxo: Utxo, spent: SpentLists, crashed: bool)
    requires Scanned(utxo0, spent0, b) && Ordered(a + BlockEntries(block) + b)
    ensures crashed <==> SomeWithoutInputs(BlockEntries(block))
    ensures !crashed ==> Scanned(utxo, spent, BlockEntries(block) + b)
  {
    utxo, spent, crashed := utxo0, spent0, false;
    ghost var es := BlockEntries(block);
    assert es[|es|..] + b == b;
    for j := |block.transactions| downto 0
      invariant Scanned(utxo, spent, es[j..] + b)
      invariant !SomeWithoutInputs(es[j..])
    {
      var tx := block.transactions[j];
      Around(a, es, b, j);
      assert es[j] == Entry(tx, block.hash) && es[j] in es && es[j..] == [es[j]] + es[j + 1..];
      utxo, spent, crashed := ScanTransaction(a + es[..j], es[j + 1..] + b, tx, block.hash, utxo, spent, keyHash);
      if crashed {
        return;
      }
    }
    assert es[0..] == es;
  }

  /** The entries of a branch with those of one block taken out of the lower part. */
  lemma TakeBlock(s: Store, g: Hash, h: Hash, a: seq<Entry>, b: seq<Entry>, all: seq<Entry>)
    requires WellFormed(s, g) && h in s && PathEntries(s, g, h) + b == all
    requires h == g ==> a == []
    requires h != g ==> s[h].prevBlockHash in s && a == PathEntries(s, g, s[h].prevBlockHash)
    ensures a + BlockEntries(s[h]) + b == all && a + (BlockEntries(s[h]) + b) == all
    ensures SomeWithoutInputs(BlockEntries(s[h])) ==> SomeWithoutInputs(all)
    ensures !SomeWithoutInputs(BlockEntries(s[h])) && !SomeWithoutInputs(b) ==>
              !SomeWithoutInputs(BlockEntries(s[h]) + b)
  {
    assert NodeOk(s, g, h);
    assert PathEntries(s, g, h) == a + BlockEntries(s[h]);
    if SomeWithoutInputs(BlockEntries(s[h])) {
      var e :| e in BlockEntries(s[h]) && e.tx.vin == [];
      assert e in a + BlockEntries(s[h]) + b;
    }
  }

  lemma ScannedTracks(utxo: Utxo, spent: SpentLists, b: seq<Entry>)
    requires Scanned(utxo, spent, b)
    ensures Tracks(utxo, b)
  {
    forall t
      ensures Coins(utxo, t) == Unspent(b, t)
    {
      assert ScannedAt(utxo, spent, b, t);
    }
  }

  /** The scan crashes exactly when some transaction of the primary branch has no input;
      otherwise it finds exactly its unspent outputs, as replaying the branch does. */
  method FindunspentTransactions(db: Database, ghost g: Hash, keyHash: KeyHash)
    returns (utxo: Utxo, crashed: bool)
    requires Blockchain.ChainOk(db, g)
    requires Ordered(PathEntries(db.blocks, g, db.topHash))
    ensures crashed <==> SomeWithoutInputs(PathEntries(db.blocks, g, db.topHash))
    ensures !crashed ==> Tracks(utxo, PathEntries(db.blocks, g, db.topHash))
    ensures !crashed ==> forall t ::
              Coins(utxo, t) == Coins(Replay(map[], PathEntries(db.blocks, g, db.topHash), keyHash), t)
  {
    ghost var s, top := db.blocks, db.topHash;
    var spent: SpentLists := map[];
    utxo := map[];
    assert Scanned(utxo, spent, []);
    var bci := new Blockchain.BlockchainIterator(db.topHash);
    ghost var all, b: seq<Entry> := PathEntries(s, g, top), [];
    assert all + b == all;
    assert NodeOk(s, g, g);
    while true
      invariant bci.currentHash in s && PathEntries(s, g, bci.currentHash) + b == all
      invariant Scanned(utxo, spent, b) && !SomeWithoutInputs(b)
      decreases s[bci.currentHash].height
    {
      ghost var h := bci.currentHash;
      assert NodeOk(s, g, h);
      var blk := bci.Next(db);
      var block := blk.value;
      assert h != g ==> NodeOk(s, g, block.prevBlockHash);
      ghost var a := if h == g then [] else PathEntries(s, g, block.prevBlockHash);
      TakeBlock(s, g, h, a, b, all);
      utxo, spent, crashed := ScanBlock(a, b, block, utxo, spent, keyHash);
      if crashed {
        return;
      }
      b := BlockEntries(block) + b;
      if |block.prevBlockHash| == 0 {
        assert a == [] && [] + b == b == all;
        break;
      }
    }
    ScannedTracks(utxo, spent, b);
    ScanIsReplay(utxo, all, keyHash);
  }

  /** How many outputs the records of some transactions hold. */
  ghost function CountOver(u: Utxo, ks: set<Bytes>): nat
    requires ks <= u.Keys
  {
    if ks == {} then 0 else
      var k :| k in ks;
      CountOver(u, ks - {k}) + |u[k]|
  }

  lemma {:induction false} CountTake(u: Utxo, ks: set<Bytes>, k: Bytes)
    requires ks <= u.Keys && k in ks
    ensures CountOver(u, ks) == CountOver(u, ks - {k}) + |u[k]|
  {
    var x :| x in ks && CountOver(u, ks) == CountOver(u, ks - {x}) + |u[x]|;
    if x != k {
      CountTake(u, ks - {x}, k);
      CountTake(u, ks - {k}, x);
      assert ks - {x} - {k} == ks - {k} - {x};
    }
  }

  method CountUnspentOutputs(db: Database) returns (count: nat)
    ensures count == CountOver(db.unspent, db.unspent.Keys)
  {
    count := 0;
    var keys := db.unspent.Keys;
    while keys != {}
      invariant keys <= db.unspent.Keys
      invariant count + CountOver(db.unspent, keys) == CountOver(db.unspent, db.unspent.Keys)
      decreases keys
    {
      var k :| k in keys;
      CountTake(db.unspent, keys, k);
      count, keys := count + |db.unspent[k]|, keys - {k};
    }
  }

  /** The loop of Reindex that saves the records. */
  method StoreRecords(db: Database, utxo: Utxo)
    requires db.unspent == map[]
    modifies db`unspent
    ensures db.unspent == utxo
  {
    var keys := utxo.Keys;
    while keys != {}
      invariant keys <= utxo.Keys
      invariant forall t | t in utxo && t !in keys :: t in db.unspent && db.unspent[t] == utxo[t]
      invariant forall t | t in db.unspent :: t in utxo && t !in keys
      decreases keys
    {
      var txID :| txID in keys;
      db.unspent := db.unspent[txID := utxo[txID]];
      keys := keys - {txID};
    }
  }

  /** Reindex empties the bucket and stores what the scan found; a crash of the scan leaves
      the bucket empty. */
  method ReindexUnspent(db: Database, ghost g: Hash, keyHash: KeyHash) returns (count: nat, crashed: bool)
    requires Blockchain.ChainOk(db, g)
    requires Ordered(PathEntries(db.blocks, g, db.topHash))
    modifies db`unspent
    ensures crashed <==> SomeWithoutInputs(PathEntries(db.blocks, g, db.topHash))
    ensures crashed ==> db.unspent == map[]
    ensures !crashed ==> Tracks(db.unspent, PathEntries(db.blocks, g, db.topHash))
    ensures !crashed ==> count == CountOver(db.unspent, db.unspent.Keys)
  {
    db.unspent := map[];
    var utxo;
    utxo, crashed := FindunspentTransactions(db, g, keyHash);
    if crashed {
      return 0, true;
    }
    StoreRecords(db, utxo);
    count := CountUnspentOutputs(db);
  }

  /** A cache of exactly the unspent outputs of an ordered chain is what replaying it gives. */
  lemma ScanIsReplay(utxo: Utxo, es: seq<Entry>, keyHash: KeyHash)
    requires Ordered(es) && Tracks(utxo, es)
    ensures forall t :: Coins(utxo, t) == Coins(Replay(map[], es, keyHash), t)
  {
    ReplayIsUnspent(es, keyHash);
  }
}
