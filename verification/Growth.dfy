/** A block that passes the checks continues its branch as a sound chain of transactions. */
module Growth {
  import opened Structures
  import opened Tree
  import opened Ledger
  import opened ChainLedger
  import opened TxIndex
  import opened UnspentCache
  import opened Verification
  import Pending
  import Supply

  /** The ids of a block's transactions are not empty, pairwise different and new on the branch. */
  ghost predicate NewIds(es: seq<Entry>, be: seq<Entry>) {
    Ids(es) !! Ids(be) && DistinctIds(be) && [] !in Ids(be)
  }

  /** An id stands for one transaction.  The id is a plain field that nothing recomputes; the
      model presumes that it is, as in all honest blocks, the hash of the transaction. */
  ghost predicate Identify(es: seq<Entry>) {
    forall d, e {:trigger IdTellsTx(d, e)} | d in es && e in es :: IdTellsTx(d, e)
  }

  predicate IdTellsTx(d: Entry, e: Entry) {
    d.tx.id == e.tx.id ==> d.tx == e.tx
  }

  /** The transactions of a block are pairwise different, and its coinbase and its payments
      without inputs are not on the branch.  The checks ask for none of this. */
  ghost predicate Unrepeated(es: seq<Entry>, txs: seq<Transaction>) {
    && (forall i, j | 0 <= i < j < |txs| :: txs[i] != txs[j])
    && forall e, tx {:trigger MayNotRepeat(e, tx)} | e in es && tx in txs :: MayNotRepeat(e, tx)
  }

  predicate MayNotRepeat(e: Entry, tx: Transaction) {
    tx.IsCoinbase() || tx.vin == [] ==> e.tx != tx
  }

  /** Different ids in a list of transactions. */
  ghost predicate OwnIds(txs: seq<Transaction>) {
    forall i, j | 0 <= i < j < |txs| :: txs[i].id != txs[j].id
  }

  lemma BlockIds(b: Block, t: Bytes)
    ensures t in Ids(BlockEntries(b)) <==> exists i :: 0 <= i < |b.transactions| && b.transactions[i].id == t
  {
    IdsIn(BlockEntries(b), t);
    if i :| 0 <= i < |b.transactions| && b.transactions[i].id == t {
      assert BlockEntries(b)[i].tx.id == t;
    }
    if i :| 0 <= i < |BlockEntries(b)| && BlockEntries(b)[i].tx.id == t {
      assert b.transactions[i].id == t;
    }
  }

  lemma OwnIdsAreNew(es: seq<Entry>, b: Block)
    requires OwnIds(b.transactions) && forall tx | tx in b.transactions :: tx.id != [] && tx.id !in Ids(es)
    ensures NewIds(es, BlockEntries(b))
  {
    forall t | t in Ids(BlockEntries(b))
      ensures t != [] && t !in Ids(es)
    {
      BlockIds(b, t);
    }
  }

  lemma {:induction false} ResolvedRefs(es: seq<Entry>)
    requires Resolved(es)
    ensures Refs(es) <= Ids(es)
  {
    if es != [] {
      var before, ins := es[..|es| - 1], es[|es| - 1].tx.Spends();
      ResolvedRefs(before);
      forall i | 0 <= i < |ins|
        ensures ins[i].txid in Ids(before)
      {
        assert InputResolves(before, ins[i]);
        HasEntry(before, ins[i].txid);
      }
      InputIdsKnown(ins, Ids(before));
    }
  }

  lemma SoundStep(es: seq<Entry>, e: Entry)
    requires Sound(es) && e.tx.id !in Ids(es) && TxResolves(es, e.tx)
    ensures Sound(es + [e])
  {
    assert (es + [e])[..|es|] == es;
    ResolvedRefs(es);
    assert Resolved(es + [e]);
    ResolvedRefs(es + [e]);
    var ins := e.tx.Spends();
    forall i | 0 <= i < |ins|
      ensures ins[i].txid in Ids(es)
    {
      assert InputResolves(es, ins[i]);
      HasEntry(es, ins[i].txid);
    }
    InputIdsKnown(ins, Ids(es));
  }

  lemma {:induction false} FirstWithIdIn(txs: seq<Transaction>, t: Bytes) returns (j: nat)
    requires FirstWithId(txs, t).Some?
    ensures j < |txs| && FirstWithId(txs, t) == Some(txs[j]) && txs[j].id == t
  {
    if txs[0].id == t {
      j := 0;
    } else {
      j := FirstWithIdIn(txs[1..], t);
      j := j + 1;
    }
  }

  lemma {:induction false} SumOutLeast(outs: seq<TXOutput>)
    requires forall i | 0 <= i < |outs| :: outs[i].value >= SMALLEST_UNIT
    ensures outs != [] ==> SumOut(outs) >= SMALLEST_UNIT
  {
    if outs != [] {
      SumOutLeast(outs[..|outs| - 1]);
    }
  }

  /** A transaction without inputs passes exactly when it has no outputs either. */
  lemma EmptyTx(crypto: Crypto, tx: Transaction)
    requires tx.vin == []
    ensures TxOk(crypto, tx, []) <==> tx.vout == []
  {
    if TxOk(crypto, tx, []) {
      SumOutLeast(tx.vout);
    }
  }

  /** Where the source of an input stands in the chain. */
  lemma SourceInChain(es: seq<Entry>, be: seq<Entry>, txs: seq<Transaction>, t: Bytes)
    requires Ordered(es + be) && |be| == |txs| && forall j | 0 <= j < |be| :: be[j].tx == txs[j]
    requires SourceOf(es, txs, t).Some?
    ensures TxAt(es + be, t) == SourceOf(es, txs, t)
  {
    HasEntry(es, t);
    SpentAppend(es, be, t);
    OrderedFresh(es, be);
    if TxAt(es, t).None? {
      var j := FirstWithIdIn(txs, t);
      EntryAtIndex(es, be, j);
      IdsIn(be, t);
      assert be[j].tx.id == t;
    }
  }

  lemma AcceptedResolves(crypto: Crypto, s: Store, g: Hash, m: Hash, sp: SpendLists, tip: Hash,
                         be: seq<Entry>, txs: seq<Transaction>, tx: Transaction)
    requires WellFormed(s, g) && m in s && tip in s
    requires |be| == |txs| && forall j | 0 <= j < |be| :: be[j].tx == txs[j]
    requires Ordered(PathEntries(s, g, tip) + be)
    requires TxAccepted(crypto, s, g, m, sp, tip, txs, tx)
    ensures TxResolves(PathEntries(s, g, tip) + be, tx)
  {
    var es := PathEntries(s, g, tip);
    if !tx.IsCoinbase() {
      var srcs := SourcesOf(es, txs, tx.vin);
      forall i | 0 <= i < |tx.Spends()|
        ensures InputResolves(es + be, tx.Spends()[i])
      {
        SourceInChain(es, be, txs, tx.vin[i].txid);
        assert SourceHas(srcs[i], tx.vin[i]);
      }
      if tx.vin == [] {
        assert srcs == [];
        EmptyTx(crypto, tx);
      }
    }
  }

  lemma AcceptedNext(crypto: Crypto, s: Store, g: Hash, m: Hash, sp: SpendLists, tip: Hash,
                     be: seq<Entry>, txs: seq<Transaction>, e: Entry)
    requires WellFormed(s, g) && m in s && tip in s
    requires |be| == |txs| && forall j | 0 <= j < |be| :: be[j].tx == txs[j]
    requires Sound(PathEntries(s, g, tip) + be) && e.tx.id !in Ids(PathEntries(s, g, tip) + be)
    requires TxAccepted(crypto, s, g, m, sp, tip, txs, e.tx)
    ensures Sound((PathEntries(s, g, tip) + be) + [e])
  {
    AcceptedResolves(crypto, s, g, m, sp, tip, be, txs, e.tx);
    SoundStep(PathEntries(s, g, tip) + be, e);
  }

  lemma PrefixSnoc<T>(a: seq<T>, b: seq<T>, k: nat, n: nat)
    requires k + 1 == n <= |b|
    ensures (a + b[..k]) + [b[k]] == a + b[..n]
  {
  }

  lemma {:induction false} AcceptedPrefix(crypto: Crypto, s: Store, g: Hash, m: Hash, sp: SpendLists,
                                          block: Block, n: nat)
    requires WellFormed(s, g) && m in s && block.prevBlockHash in s && n <= |block.transactions|
    requires Sound(PathEntries(s, g, block.prevBlockHash))
    requires NewIds(PathEntries(s, g, block.prevBlockHash), BlockEntries(block))
    requires TxsAccepted(crypto, s, g, m, sp, block.prevBlockHash, block.transactions, |block.transactions|)
    ensures Sound(PathEntries(s, g, block.prevBlockHash) + BlockEntries(block)[..n])
  {
    var tip := block.prevBlockHash;
    var es, be, txs := PathEntries(s, g, tip), BlockEntries(block), block.transactions;
    if n == 0 {
      assert es + be[..0] == es;
    } else {
      var k := n - 1;
      AcceptedPrefix(crypto, s, g, m, sp, block, k);
      assert TxAccepted(crypto, s, g, m, sp, tip, txs[..k], txs[k]);
      FreshPrefix(es, be, k);
      AcceptedNext(crypto, s, g, m, sp, tip, be[..k], txs[..k], be[k]);
      PrefixSnoc(es, be, k, n);
    }
  }

  lemma FreshPrefix(es: seq<Entry>, be: seq<Entry>, k: nat)
    requires NewIds(es, be) && k < |be|
    ensures be[k].tx.id !in Ids(es + be[..k])
  {
    var t := be[k].tx.id;
    IdsAppend(es, be[..k]);
    IdsIn(be, t);
    IdsIn(be[..k], t);
  }

  /** A block whose transactions are all accepted keeps the branch sound. */
  lemma AcceptedSound(crypto: Crypto, s: Store, g: Hash, m: Hash, sp: SpendLists, block: Block)
    requires WellFormed(s, g) && m in s && block.prevBlockHash in s
    requires Sound(PathEntries(s, g, block.prevBlockHash))
    requires NewIds(PathEntries(s, g, block.prevBlockHash), BlockEntries(block))
    requires BlockAccepted(crypto, s, g, m, sp, block)
    ensures Sound(PathEntries(s, g, block.prevBlockHash) + BlockEntries(block))
  {
    var be := BlockEntries(block);
    AcceptedPrefix(crypto, s, g, m, sp, block, |be|);
    assert be[..|be|] == be;
  }

  // ----- when the ids of an accepted block are new

  lemma {:induction false} SpentOf(es: seq<Entry>, e: Entry, t: Bytes)
    requires e in es
    ensures InputIndices(e.tx.Spends(), t) <= SpentIn(es, t)
  {
    if e != es[|es| - 1] {
      SpentOf(es[..|es| - 1], e, t);
    }
  }

  lemma MinedInput(es: seq<Entry>, e: Entry)
    requires e in es && !e.tx.IsCoinbase() && e.tx.vin != []
    ensures e.tx.vin[0].vout in SpentIn(es, e.tx.vin[0].txid)
  {
    var ins, vin := e.tx.Spends(), e.tx.vin[0];
    SpentOf(es, e, vin.txid);
    Supply.IndicesArePlaces(ins, vin.txid, vin.vout);
    assert Pending.PlaceOf(ins[0]) in Pending.Places(ins);
  }

  lemma SourceListed(es: seq<Entry>, e: Entry)
    requires Sound(es) && e in es && !e.tx.IsCoinbase() && e.tx.vin != []
    ensures e.tx.vin[0].txid in Ids(es)
  {
    var i :| 0 <= i < |es| && es[i] == e;
    assert [] + es == es && [] + es[..i] == es[..i];
    ResolvedAt([], es, i);
    assert InputResolves([] + es[..i], es[i].tx.Spends()[0]);
    HasEntry(es[..i], e.tx.vin[0].txid);
    assert es == es[..i] + es[i..];
    IdsAppend(es[..i], es[i..]);
  }

  /** An accepted payment with an input is not on the branch: its first input would look
      spent. */
  lemma AcceptedIsNew(crypto: Crypto, s: Store, g: Hash, m: Hash, sp: SpendLists, tip: Hash,
                      prevtxs: seq<Transaction>, e: Entry)
    requires WellFormed(s, g) && m in s && tip in s && Sound(PathEntries(s, g, tip))
    requires !e.tx.IsCoinbase() && e.tx.vin != [] && TxAccepted(crypto, s, g, m, sp, tip, prevtxs, e.tx)
    ensures e !in PathEntries(s, g, tip)
  {
    var es := PathEntries(s, g, tip);
    if e in es {
      MinedInput(es, e);
      SourceListed(es, e);
      assert LooksSpent(s, g, m, sp, tip, e.tx.vin[0]);
    }
  }

  lemma NewOnBranch(crypto: Crypto, s: Store, g: Hash, m: Hash, sp: SpendLists, block: Block, j: nat)
    requires WellFormed(s, g) && m in s && block.prevBlockHash in s && j < |block.transactions|
    requires Sound(PathEntries(s, g, block.prevBlockHash))
    requires Identify(PathEntries(s, g, block.prevBlockHash) + BlockEntries(block))
    requires Unrepeated(PathEntries(s, g, block.prevBlockHash), block.transactions)
    requires TxsAccepted(crypto, s, g, m, sp, block.prevBlockHash, block.transactions, |block.transactions|)
    ensures block.transactions[j].id !in Ids(PathEntries(s, g, block.prevBlockHash))
  {
    var es, be, txs := PathEntries(s, g, block.prevBlockHash), BlockEntries(block), block.transactions;
    var tx := txs[j];
    HasEntry(es, tx.id);
    if tx.id in Ids(es) {
      var e := EntryAt(es, tx.id).value;
      assert e in es + be && be[j] in es + be && IdTellsTx(e, be[j]) && MayNotRepeat(e, tx);
      assert TxAccepted(crypto, s, g, m, sp, block.prevBlockHash, txs[..j], txs[j]);
      if !tx.IsCoinbase() && tx.vin != [] {
        AcceptedIsNew(crypto, s, g, m, sp, block.prevBlockHash, txs[..j], e);
      }
    }
  }

  /** When ids identify, an accepted block has new ids exactly when it repeats nothing. */
  lemma NewIdsExact(crypto: Crypto, s: Store, g: Hash, m: Hash, sp: SpendLists, block: Block)
    requires WellFormed(s, g) && m in s && block.prevBlockHash in s
    requires Sound(PathEntries(s, g, block.prevBlockHash))
    requires Identify(PathEntries(s, g, block.prevBlockHash) + BlockEntries(block)) && [] !in Ids(BlockEntries(block))
    requires BlockAccepted(crypto, s, g, m, sp, block)
    ensures NewIds(PathEntries(s, g, block.prevBlockHash), BlockEntries(block))
            <==> Unrepeated(PathEntries(s, g, block.prevBlockHash), block.transactions)
  {
    var es, be, txs := PathEntries(s, g, block.prevBlockHash), BlockEntries(block), block.transactions;
    if NewIds(es, be) {
      NewAreUnrepeated(es, block);
    }
    if Unrepeated(es, txs) {
      forall i, j | 0 <= i < j < |be|
        ensures be[i].tx.id != be[j].tx.id
      {
        assert be[i] in es + be && be[j] in es + be && IdTellsTx(be[i], be[j]) && txs[i] != txs[j];
      }
      forall t | t in Ids(be)
        ensures t !in Ids(es)
      {
        BlockIds(block, t);
        var j :| 0 <= j < |txs| && txs[j].id == t;
        NewOnBranch(crypto, s, g, m, sp, block, j);
      }
    }
  }

  lemma NewAreUnrepeated(es: seq<Entry>, b: Block)
    requires NewIds(es, BlockEntries(b))
    ensures Unrepeated(es, b.transactions)
  {
    var be, txs := BlockEntries(b), b.transactions;
    forall i, j | 0 <= i < j < |txs|
      ensures txs[i] != txs[j]
    {
      assert be[i].tx.id != be[j].tx.id;
    }
    forall e, tx | e in es && tx in txs
      ensures MayNotRepeat(e, tx)
    {
      var i :| 0 <= i < |es| && es[i] == e;
      IdsIn(es, e.tx.id);
      BlockIds(b, tx.id);
    }
  }

  lemma OrderedIdentify(es: seq<Entry>)
    requires Ordered(es)
    ensures Identify(es)
  {
    forall d, e | d in es && e in es
      ensures IdTellsTx(d, e)
    {
      var i :| 0 <= i < |es| && es[i] == d;
      var j :| 0 <= j < |es| && es[j] == e;
      assert [] + es == es;
      EntryAtIndex([], es, i);
      EntryAtIndex([], es, j);
    }
  }

  /** New ids leave nothing to presume. */
  lemma NewAreProper(es: seq<Entry>, b: Block)
    requires Ordered(es) && NewIds(es, BlockEntries(b))
    ensures Identify(es + BlockEntries(b)) && [] !in Ids(BlockEntries(b)) && Unrepeated(es, b.transactions)
  {
    var be := BlockEntries(b);
    NewAreUnrepeated(es, b);
    OrderedIdentify(es);
    forall e | e in es
      ensures e.tx.id in Ids(es)
    {
      var i :| 0 <= i < |es| && es[i] == e;
      IdsIn(es, e.tx.id);
    }
    forall e | e in be
      ensures e.tx.id in Ids(be)
    {
      var i :| 0 <= i < |be| && be[i] == e;
      IdsIn(be, e.tx.id);
    }
    forall d, e | d in es + be && e in es + be
      ensures IdTellsTx(d, e)
    {
      if d in es && e in es {
        assert IdTellsTx(d, e);
      } else if d in be && e in be {
        var i :| 0 <= i < |be| && be[i] == d;
        var j :| 0 <= j < |be| && be[j] == e;
        assert i != j ==> be[i].tx.id != be[j].tx.id;
      }
    }
  }
}
