/** The cache of unspent outputs (node/transactions/unspent.go). */
module UnspentCache {
  import opened Structures
  import opened Storage
  import opened Tree
  import opened Ledger
  import opened ChainLedger
  import opened TxIndex

  // ----- adding a block

  /** One input of UpdateOnBlockAdd: the output it spends leaves the cache. */
  method SpendInput(db: Database, vin: TXInput)
    modifies db`unspent
    ensures db.unspent == RemoveInput(old(db.unspent), vin)
  {
    if vin.txid !in db.unspent {
      return;
    }
    var outs := db.unspent[vin.txid];
    var updatedOuts := [];
    for i := 0 to |outs|
      invariant updatedOuts == DropIndex(outs[..i], vin.vout)
    {
      assert outs[..i + 1][..i] == outs[..i];
      if outs[i].oIndex != vin.vout {
        updatedOuts := updatedOuts + [outs[i]];
      }
    }
    assert outs[..|outs|] == outs;
    if |updatedOuts| == 0 {
      db.unspent := db.unspent - {vin.txid};
    } else {
      db.unspent := db.unspent[vin.txid := updatedOuts];
    }
  }

  method AddTransaction(db: Database, tx: Transaction, blockHash: Hash, keyHash: KeyHash)
    modifies db`unspent
    ensures db.unspent == AddTx(old(db.unspent), Entry(tx, blockHash), keyHash)
  {
    var sender := [];
    ghost var ins := tx.Spends();
    if !tx.IsCoinbase() {
      for i := 0 to |tx.vin|
        invariant db.unspent == RemoveInputs(old(db.unspent), ins[..i])
        invariant sender == if i == 0 then [] else keyHash(tx.vin[i - 1].pubKey)
      {
        assert ins[..i + 1][..i] == ins[..i];
        sender := keyHash(tx.vin[i].pubKey);
        SpendInput(db, tx.vin[i]);
      }
    }
    assert ins[..|ins|] == ins;
    var newOutputs := [];
    for outInd := 0 to |tx.vout|
      invariant newOutputs == NewOutputs(Entry(tx, blockHash), sender)[..outInd]
    {
      var no := LoadFromSimple(tx.vout[outInd], tx.id, outInd, sender, tx.IsCoinbase(), blockHash);
      newOutputs := newOutputs + [no];
    }
    assert newOutputs == NewOutputs(Entry(tx, blockHash), sender);
    db.unspent := db.unspent[tx.id := newOutputs];
  }

  method UpdateOnBlockAdd(db: Database, block: Block, keyHash: KeyHash)
    modifies db`unspent
    ensures db.unspent == Replay(old(db.unspent), BlockEntries(block), keyHash)
  {
    ghost var es := BlockEntries(block);
    for i := 0 to |block.transactions|
      invariant db.unspent == Replay(old(db.unspent), es[..i], keyHash)
    {
      assert es[..i + 1][..i] == es[..i];
      AddTransaction(db, block.transactions[i], block.hash, keyHash);
    }
    assert es[..|es|] == es;
  }

  // ----- cancelling a block

  /** The block of the branch of `tip` that holds `t`. */
  ghost function Home(s: Store, g: Hash, tip: Hash, t: Bytes): (a: Hash)
    requires WellFormed(s, g) && tip in s && t in Ids(PathEntries(s, g, tip))
    ensures Ancestor(s, g, a, tip) && Holds(s, a, t)
  {
    assert exists a :: Ancestor(s, g, a, tip) && Holds(s, a, t) by {
      var a := FindHolder(s, g, tip, t);
    }
    var a :| Ancestor(s, g, a, tip) && Holds(s, a, t);
    a
  }

  /** Output indices of `t` that stray records make look spent on the branch of `tip`. */
  ghost function Strays(s: Store, g: Hash, m: Hash, sp: SpendLists, tip: Hash, t: Bytes): set<int>
    requires WellFormed(s, g) && m in s && tip in s && t in Ids(PathEntries(s, g, tip))
  {
    StrayIndices(s, g, m, SpendsOf(sp, t), Home(s, g, tip, t), tip)
  }

  /** The record that cancelling writes back for `t`. */
  ghost function Restored(s: Store, g: Hash, m: Hash, sp: SpendLists, tip: Hash, t: Bytes): seq<Coin>
    requires WellFormed(s, g) && m in s && tip in s && t in Ids(PathEntries(s, g, tip))
  {
    var es := PathEntries(s, g, tip);
    Keep(CoinsAt(es, t), SpentIn(es, t) + Strays(s, g, m, sp, tip, t))
  }

  /** How many leading inputs refer to known transactions: the loop stops at the first
      one that does not. */
  function ReachLen(ins: seq<TXInput>, known: set<Bytes>): (n: nat)
    ensures n <= |ins|
  {
    ReachFrom(ins, known, 0)
  }

  function ReachFrom(ins: seq<TXInput>, known: set<Bytes>, i: nat): (n: nat)
    requires i <= |ins|
    ensures i <= n <= |ins|
    decreases |ins| - i
  {
    if i == |ins| || ins[i].txid !in known then i else ReachFrom(ins, known, i + 1)
  }

  lemma {:induction false} ReachFromStops(ins: seq<TXInput>, known: set<Bytes>, i: nat)
    requires i <= |ins|
    ensures var n := ReachFrom(ins, known, i);
            && (forall j | i <= j < n :: ins[j].txid in known)
            && (n < |ins| ==> ins[n].txid !in known)
    decreases |ins| - i
  {
    if i < |ins| && ins[i].txid in known {
      ReachFromStops(ins, known, i + 1);
    }
  }

  ghost function ReachedTx(tx: Transaction, known: set<Bytes>): set<Bytes> {
    InputIds(tx.Spends()[..ReachLen(tx.Spends(), known)])
  }

  /** The transactions whose records cancelling a block rewrites. */
  ghost function Reached(es: seq<Entry>, known: set<Bytes>): set<Bytes> {
    if es == [] then {} else Reached(es[..|es| - 1], known) + ReachedTx(es[|es| - 1].tx, known)
  }

  method IsSpent(spending: seq<Spend>, outInd: int) returns (spent: bool)
    ensures spent <==> outInd in Indices(spending)
  {
    for i := 0 to |spending|
      invariant outInd !in Indices(spending[..i])
    {
      if spending[i].outInd == outInd {
        assert spending[i] in spending;
        return true;
      }
      assert spending[..i + 1] == spending[..i] + [spending[i]];
    }
    assert spending[..|spending|] == spending;
    return false;
  }

  /** The outputs of a transaction that a list of records does not spend. */
  method UnspentOutputs(txi: Transaction, spending: seq<Spend>, sender: Bytes, isBase: bool, blockHash: Hash)
    returns (outs: seq<Output>)
    ensures Strip(outs) == Keep(CoinsOf(Entry(txi, blockHash)), Indices(spending))
  {
    ghost var cs := CoinsOf(Entry(txi, blockHash));
    outs := [];
    for outInd := 0 to |txi.vout|
      invariant Strip(outs) == Keep(cs[..outInd], Indices(spending))
    {
      assert cs[..outInd + 1][..outInd] == cs[..outInd];
      var spent := IsSpent(spending, outInd);
      if !spent {
        var no := LoadFromSimple(txi.vout[outInd], txi.id, outInd, sender, isBase, blockHash);
        assert Strip(outs + [no]) == Strip(outs) + [CoinOf(no)];
        outs := outs + [no];
      }
    }
    assert cs[..|cs|] == cs;
  }

  /** The code reads the key of the first input of a transaction whose record it restores. */
  ghost predicate SenderKnown(es: seq<Entry>, vin: TXInput) {
    match EntryAt(es, vin.txid)
    case Some(e) => |e.tx.vin| > 0
    case None => true
  }

  ghost predicate SendersKnown(es: seq<Entry>, ins: seq<TXInput>) {
    forall i {:trigger SenderKnown(es, ins[i])} | 0 <= i < |ins| :: SenderKnown(es, ins[i])
  }

  ghost predicate AllSendersKnown(es: seq<Entry>, txs: seq<Transaction>) {
    forall j {:trigger SendersKnown(es, txs[j].Spends())} | 0 <= j < |txs| :: SendersKnown(es, txs[j].Spends())
  }

  /** Transactions that resolve know the senders of all they spend. */
  lemma SoundSenders(es: seq<Entry>, txs: seq<Transaction>, be: seq<Entry>)
    requires Sound(es + be) && |be| == |txs| && forall j | 0 <= j < |be| :: be[j].tx == txs[j]
    ensures AllSendersKnown(es, txs)
  {
    OrderedFresh(es, be);
    ResolvedPrefix(es, be);
    forall j | 0 <= j < |txs|
      ensures SendersKnown(es, txs[j].Spends())
    {
      var ins, before := txs[j].Spends(), be[..j];
      ResolvedAt(es, be, j);
      assert be == before + be[j..];
      IdsAppend(before, be[j..]);
      forall i | 0 <= i < |ins|
        ensures SenderKnown(es, ins[i])
      {
        var t := ins[i].txid;
        HasEntry(es, t);
        assert InputResolves(es + before, ins[i]);
        SpentAppend(es, before, t);
        if t in Ids(es) {
          ResolvedHas(es, EntryAt(es, t).value);
        }
      }
    }
  }

  /** The cache after a step of cancelling: the records of `back` are restored, those
      of `gone` removed, all others are as in `u0`. */
  ghost predicate CancelledTo(u0: Utxo, u: Utxo, s: Store, g: Hash, m: Hash, sp: SpendLists, prev: Hash,
                              gone: set<Bytes>, back: set<Bytes>)
    requires WellFormed(s, g) && m in s && prev in s && back <= Ids(PathEntries(s, g, prev))
  {
    forall t {:trigger Coins(u, t)} :: Coins(u, t) ==
      if t in back then Restored(s, g, m, sp, prev, t) else if t in gone then [] else Coins(u0, t)
  }

  /** One input of UpdateOnBlockCancel. */
  method RestoreInput(db: Database, ghost g: Hash, ghost m: Hash, vin: TXInput, prevHash: Hash,
                      isBase: bool, keyHash: KeyHash)
    returns (found: bool, err: bool)
    requires Queryable(db, g, m, prevHash)
    requires SenderKnown(PathEntries(db.blocks, g, prevHash), vin)
    modifies db`unspent
    ensures !err && (found <==> vin.txid in Ids(PathEntries(db.blocks, g, prevHash)))
    ensures !found ==> db.unspent == old(db.unspent)
    ensures found ==> CancelledTo(old(db.unspent), db.unspent, db.blocks, g, m, db.spends, prevHash, {}, {vin.txid})
  {
    var txid := vin.txid;
    assert NodeOk(db.blocks, g, prevHash);
    var txi, spending, blockHash, e := GetTransactionAllInfo(db, g, m, txid, prevHash);
    if e {
      return false, true;
    }
    if txi.None? {
      return false, false;
    }
    HomeOnPath(db.blocks, g, prevHash, blockHash, txid);
    assert blockHash == Home(db.blocks, g, prevHash, txid);
    var sender := keyHash(txi.value.vin[0].pubKey);
    var unspentOuts := UnspentOutputs(txi.value, spending, sender, isBase, blockHash);
    if |unspentOuts| > 0 {
      db.unspent := db.unspent[txid := unspentOuts];
    } else {
      db.unspent := db.unspent - {txid};
    }
    return true, false;
  }

  lemma CancelledMore(u0: Utxo, u: Utxo, u': Utxo, s: Store, g: Hash, m: Hash, sp: SpendLists, prev: Hash,
                      back: set<Bytes>, t: Bytes)
    requires WellFormed(s, g) && m in s && prev in s && back + {t} <= Ids(PathEntries(s, g, prev))
    requires CancelledTo(u0, u, s, g, m, sp, prev, {}, back)
    requires CancelledTo(u, u', s, g, m, sp, prev, {}, {t})
    ensures CancelledTo(u0, u', s, g, m, sp, prev, {}, back + {t})
  {
  }

  lemma CancelledBoth(u0: Utxo, u: Utxo, u': Utxo, s: Store, g: Hash, m: Hash, sp: SpendLists, prev: Hash,
                      gone: set<Bytes>, back: set<Bytes>, gone': set<Bytes>, back': set<Bytes>)
    requires WellFormed(s, g) && m in s && prev in s && back + back' <= Ids(PathEntries(s, g, prev))
    requires gone' !! back
    requires CancelledTo(u0, u, s, g, m, sp, prev, gone, back)
    requires CancelledTo(u, u', s, g, m, sp, prev, gone', back')
    ensures CancelledTo(u0, u', s, g, m, sp, prev, gone + gone', back + back')
  {
  }

  lemma {:induction false} InputIdsKnown(ins: seq<TXInput>, known: set<Bytes>)
    requires forall i | 0 <= i < |ins| :: ins[i].txid in known
    ensures InputIds(ins) <= known
  {
    if ins != [] {
      InputIdsKnown(ins[..|ins| - 1], known);
    }
  }

  lemma InputIdsStep(ins: seq<TXInput>, i: nat)
    requires i < |ins|
    ensures InputIds(ins[..i + 1]) == InputIds(ins[..i]) + {ins[i].txid}
  {
    assert ins[..i + 1][..i] == ins[..i];
  }

  lemma EntriesStep(es: seq<Entry>, i: nat, known: set<Bytes>)
    requires i < |es|
    ensures Ids(es[..i + 1]) == Ids(es[..i]) + {es[i].tx.id}
    ensures Reached(es[..i + 1], known) == Reached(es[..i], known) + ReachedTx(es[i].tx, known)
    ensures es[i].tx.id in Ids(es)
  {
    assert es[..i + 1][..i] == es[..i];
    IdsIn(es, es[i].tx.id);
  }

  lemma {:induction false} ReachedKnown(es: seq<Entry>, known: set<Bytes>)
    ensures Reached(es, known) <= known
  {
    if es != [] {
      ReachedKnown(es[..|es| - 1], known);
      var ins := es[|es| - 1].tx.Spends();
      ReachFromStops(ins, known, 0);
      InputIdsKnown(ins[..ReachLen(ins, known)], known);
    }
  }

  /** The loop over the inputs of a cancelled transaction. */
  method RestoreInputs(db: Database, ghost g: Hash, ghost m: Hash, tx: Transaction, prevHash: Hash,
                       keyHash: KeyHash, ghost known: set<Bytes>)
    returns (err: bool)
    requires Queryable(db, g, m, prevHash)
    requires SendersKnown(PathEntries(db.blocks, g, prevHash), tx.Spends())
    requires known == Ids(PathEntries(db.blocks, g, prevHash)) && !tx.IsCoinbase()
    modifies db`unspent
    ensures !err && ReachedTx(tx, known) <= known
    ensures CancelledTo(old(db.unspent), db.unspent, db.blocks, g, m, db.spends, prevHash,
                        {}, ReachedTx(tx, known))
  {
    ghost var s, sp, u0, ins := db.blocks, db.spends, db.unspent, tx.Spends();
    ghost var back: set<Bytes>, n := {}, ReachLen(ins, known);
    ReachFromStops(ins, known, 0);
    InputIdsKnown(ins[..n], known);
    for i := 0 to |tx.vin|
      invariant i <= n && back == InputIds(ins[..i]) && back <= known
      invariant CancelledTo(u0, db.unspent, s, g, m, sp, prevHash, {}, back)
    {
      ghost var u := db.unspent;
      var vin := tx.vin[i];
      assert vin == ins[i] && SenderKnown(PathEntries(s, g, prevHash), ins[i]);
      var found, e := RestoreInput(db, g, m, vin, prevHash, tx.IsCoinbase(), keyHash);
      if e {
        return true;
      }
      if !found {
        assert i == n;
        break;
      }
      InputIdsStep(ins, i);
      CancelledMore(u0, u, db.unspent, s, g, m, sp, prevHash, back, vin.txid);
      back := back + {vin.txid};
    }
    return false;
  }

  /** One transaction of UpdateOnBlockCancel. */
  method CancelTransaction(db: Database, ghost g: Hash, ghost m: Hash, tx: Transaction, prevHash: Hash,
                           keyHash: KeyHash, ghost known: set<Bytes>)
    returns (err: bool)
    requires Queryable(db, g, m, prevHash)
    requires SendersKnown(PathEntries(db.blocks, g, prevHash), tx.Spends())
    requires known == Ids(PathEntries(db.blocks, g, prevHash)) && tx.id !in known
    modifies db`unspent
    ensures !err && ReachedTx(tx, known) <= known
    ensures CancelledTo(old(db.unspent), db.unspent, db.blocks, g, m, db.spends, prevHash,
                        {tx.id}, ReachedTx(tx, known))
  {
    ghost var u0 := db.unspent;
    db.unspent := db.unspent - {tx.id};
    ghost var u := db.unspent;
    assert CancelledTo(u0, u, db.blocks, g, m, db.spends, prevHash, {tx.id}, {});
    if tx.IsCoinbase() {
      return false;
    }
    err := RestoreInputs(db, g, m, tx, prevHash, keyHash, known);
    CancelledBoth(u0, u, db.unspent, db.blocks, g, m, db.spends, prevHash, {tx.id}, {}, {}, ReachedTx(tx, known));
    assert {tx.id} + {} == {tx.id} && {} + ReachedTx(tx, known) == ReachedTx(tx, known);
  }

  /** The loop of UpdateOnBlockCancel over the transactions. */
  method CancelTransactions(db: Database, ghost g: Hash, ghost m: Hash, block: Block, keyHash: KeyHash,
                            ghost known: set<Bytes>)
    returns (err: bool)
    requires Queryable(db, g, m, block.prevBlockHash)
    requires known == Ids(PathEntries(db.blocks, g, block.prevBlockHash)) && known !! Ids(BlockEntries(block))
    requires AllSendersKnown(PathEntries(db.blocks, g, block.prevBlockHash), block.transactions)
    modifies db`unspent
    ensures !err && Reached(BlockEntries(block), known) <= known
    ensures CancelledTo(old(db.unspent), db.unspent, db.blocks, g, m, db.spends, block.prevBlockHash,
                        Ids(BlockEntries(block)), Reached(BlockEntries(block), known))
  {
    ghost var s, sp, u0, es, prev := db.blocks, db.spends, db.unspent, BlockEntries(block), block.prevBlockHash;
    ghost var gone: set<Bytes>, back: set<Bytes> := {}, {};
    for i := 0 to |block.transactions|
      invariant gone == Ids(es[..i]) && back == Reached(es[..i], known) && back <= known
      invariant CancelledTo(u0, db.unspent, s, g, m, sp, prev, gone, back)
    {
      var tx := block.transactions[i];
      ghost var u := db.unspent;
      EntriesStep(es, i, known);
      assert SendersKnown(PathEntries(s, g, prev), block.transactions[i].Spends());
      var e := CancelTransaction(db, g, m, tx, block.prevBlockHash, keyHash, known);
      if e {
        return true;
      }
      CancelledBoth(u0, u, db.unspent, s, g, m, sp, prev, gone, back, {tx.id}, ReachedTx(tx, known));
      gone, back := gone + {tx.id}, back + ReachedTx(tx, known);
    }
    assert es[..|es|] == es;
    return false;
  }

  /** Cancelling a block.  Whatever the cache holds, afterwards: the transactions of the
      block have no record; a transaction reached by its inputs has the record that the
      index gives under the previous block; every other record is as it was. */
  method UpdateOnBlockCancel(db: Database, ghost g: Hash, ghost m: Hash, block: Block, keyHash: KeyHash)
    returns (err: bool)
    requires Queryable(db, g, m, block.prevBlockHash)
    requires block.hash in db.blocks && db.blocks[block.hash] == block && block.hash != g
    requires Sound(PathEntries(db.blocks, g, block.hash))
    modifies db`unspent
    ensures !err && block.prevBlockHash in db.blocks
    ensures var known := Ids(PathEntries(db.blocks, g, block.prevBlockHash));
            && Reached(BlockEntries(block), known) <= known
            && CancelledTo(old(db.unspent), db.unspent, db.blocks, g, m, db.spends, block.prevBlockHash,
                           Ids(BlockEntries(block)), Reached(BlockEntries(block), known))
  {
    FreshIds(db.blocks, g, block);
    ghost var es := PathEntries(db.blocks, g, block.prevBlockHash);
    SoundSenders(es, block.transactions, BlockEntries(block));
    err := CancelTransactions(db, g, m, block, keyHash, Ids(es));
  }

  lemma FreshIds(s: Store, g: Hash, block: Block)
    requires WellFormed(s, g) && block.hash in s && s[block.hash] == block && block.hash != g
    requires Ordered(PathEntries(s, g, block.hash))
    ensures block.prevBlockHash in s
    ensures PathEntries(s, g, block.hash) == PathEntries(s, g, block.prevBlockHash) + BlockEntries(block)
    ensures Ids(PathEntries(s, g, block.prevBlockHash)) !! Ids(BlockEntries(block))
  {
    assert NodeOk(s, g, block.hash) && NodeOk(s, g, block.prevBlockHash);
    OrderedFresh(PathEntries(s, g, block.prevBlockHash), BlockEntries(block));
  }
}
