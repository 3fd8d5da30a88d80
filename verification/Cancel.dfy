/** When cancelling a block undoes adding it. */
module Cancel {
  import opened Structures
  import opened Tree
  import opened Branches
  import opened Ledger
  import opened ChainLedger
  import opened TxIndex
  import opened UnspentCache

  /** What a caller can check before cancelling a stored block: no output unspent under
      the previous block is lost, neither to a stray record of a transaction the inputs
      reach, nor because a same-block input stops the loop before a transaction it spends. */
  ghost predicate CancelClean(s: Store, g: Hash, m: Hash, sp: SpendLists, block: Block)
    requires WellFormed(s, g) && m in s && block.prevBlockHash in s
  {
    forall t {:trigger KeepsCoins(s, g, m, sp, block, t)} | t in Ids(PathEntries(s, g, block.prevBlockHash)) ::
      KeepsCoins(s, g, m, sp, block, t)
  }

  ghost predicate KeepsCoins(s: Store, g: Hash, m: Hash, sp: SpendLists, block: Block, t: Bytes)
    requires WellFormed(s, g) && m in s && block.prevBlockHash in s
    requires t in Ids(PathEntries(s, g, block.prevBlockHash))
  {
    var es, be := PathEntries(s, g, block.prevBlockHash), BlockEntries(block);
    forall c | c in Unspent(es, t) ::
      c.index !in if t in Reached(be, Ids(es)) then Strays(s, g, m, sp, block.prevBlockHash, t)
                  else SpentIn(be, t)
  }

  lemma KeepMore(cs: seq<Coin>, a: set<int>, x: set<int>)
    ensures Keep(cs, a + x) == Keep(cs, a) <==> forall c | c in Keep(cs, a) :: c.index !in x
  {
    KeepSame(cs, a + x, a);
    forall c
      ensures c in Keep(cs, a) <==> c in cs && c.index !in a
    {
      KeepIn(cs, a, c);
    }
  }

  /** One transaction: its record after the cancel is right exactly when no coin is lost. */
  lemma CancelExactAt(s: Store, g: Hash, m: Hash, sp: SpendLists, block: Block, u0: Utxo, u: Utxo, t: Bytes)
    requires WellFormed(s, g) && m in s
    requires block.hash in s && s[block.hash] == block && block.hash != g && block.prevBlockHash in s
    requires Ordered(PathEntries(s, g, block.hash)) && Tracks(u0, PathEntries(s, g, block.hash))
    requires Reached(BlockEntries(block), Ids(PathEntries(s, g, block.prevBlockHash)))
             <= Ids(PathEntries(s, g, block.prevBlockHash))
    requires CancelledTo(u0, u, s, g, m, sp, block.prevBlockHash, Ids(BlockEntries(block)),
                         Reached(BlockEntries(block), Ids(PathEntries(s, g, block.prevBlockHash))))
    ensures Coins(u, t) == Unspent(PathEntries(s, g, block.prevBlockHash), t)
            <==> (t in Ids(PathEntries(s, g, block.prevBlockHash)) ==> KeepsCoins(s, g, m, sp, block, t))
  {
    var es, be := PathEntries(s, g, block.prevBlockHash), BlockEntries(block);
    FreshIds(s, g, block);
    OrderedPrefix(es, be);
    SpentAppend(es, be, t);
    if t !in Ids(es) {
      HasEntry(es, t);
      if t !in Ids(be) {
        HasEntry(be, t);
      }
    } else if t in Reached(be, Ids(es)) {
      KeepMore(CoinsAt(es, t), SpentIn(es, t), Strays(s, g, m, sp, block.prevBlockHash, t));
    } else {
      KeepMore(CoinsAt(es, t), SpentIn(es, t), SpentIn(be, t));
    }
  }

  /** Cancelling a block turns the cache of its branch into the cache of the branch that
      ends at the previous block exactly when the cancel is clean. */
  lemma CancelExact(s: Store, g: Hash, m: Hash, sp: SpendLists, block: Block, u0: Utxo, u: Utxo)
    requires WellFormed(s, g) && m in s
    requires block.hash in s && s[block.hash] == block && block.hash != g && block.prevBlockHash in s
    requires Ordered(PathEntries(s, g, block.hash)) && Tracks(u0, PathEntries(s, g, block.hash))
    requires Reached(BlockEntries(block), Ids(PathEntries(s, g, block.prevBlockHash)))
             <= Ids(PathEntries(s, g, block.prevBlockHash))
    requires CancelledTo(u0, u, s, g, m, sp, block.prevBlockHash, Ids(BlockEntries(block)),
                         Reached(BlockEntries(block), Ids(PathEntries(s, g, block.prevBlockHash))))
    ensures Tracks(u, PathEntries(s, g, block.prevBlockHash)) <==> CancelClean(s, g, m, sp, block)
  {
    var es := PathEntries(s, g, block.prevBlockHash);
    forall t
      ensures Coins(u, t) == Unspent(es, t) <==> (t in Ids(es) ==> KeepsCoins(s, g, m, sp, block, t))
    {
      CancelExactAt(s, g, m, sp, block, u0, u, t);
    }
  }

  // ----- a condition that is easy to see to

  /** Inputs that refer to earlier blocks come before those that refer to the same block. */
  ghost predicate SameBlockInputsLast(block: Block, known: set<Bytes>) {
    forall tx | tx in block.transactions ::
      forall i, j | 0 <= i < j < |tx.Spends()| ::
        tx.Spends()[j].txid in known ==> tx.Spends()[i].txid in known
  }

  /** Every stored block is on the branch of `tip`, on the indexed chain, or higher than
      the block where the two part. */
  ghost predicate NoThirdBranch(s: Store, g: Hash, m: Hash, tip: Hash)
    requires WellFormed(s, g) && m in s && tip in s
  {
    forall c | c in s :: Ancestor(s, g, c, tip) || Ancestor(s, g, c, m) || ForkHeight(s, g, tip, m) < s[c].height
  }

  lemma {:induction false} InputIndicesIn(ins: seq<TXInput>, t: Bytes)
    ensures t in InputIds(ins) <==> exists i :: 0 <= i < |ins| && ins[i].txid == t
  {
    if ins != [] {
      var n := |ins| - 1;
      InputIndicesIn(ins[..n], t);
      if t in InputIds(ins[..n]) {
        var i :| 0 <= i < n && ins[..n][i].txid == t;
        assert ins[i].txid == t;
      }
      if i :| 0 <= i < |ins| && ins[i].txid == t {
        assert i < n ==> ins[..n][i].txid == t;
      }
    }
  }

  lemma InputsReached(tx: Transaction, known: set<Bytes>, t: Bytes)
    requires t in known && t in InputIds(tx.Spends())
    requires forall i, j | 0 <= i < j < |tx.Spends()| ::
               tx.Spends()[j].txid in known ==> tx.Spends()[i].txid in known
    ensures t in ReachedTx(tx, known)
  {
    var ins := tx.Spends();
    var n := ReachLen(ins, known);
    ReachFromStops(ins, known, 0);
    InputIndicesIn(ins, t);
    var i :| 0 <= i < |ins| && ins[i].txid == t;
    assert i < n;
    assert ins[..n][i].txid == t;
    InputIndicesIn(ins[..n], t);
  }

  lemma {:induction false} AllReached(es: seq<Entry>, known: set<Bytes>, t: Bytes)
    requires t in known
    requires forall e | e in es :: forall i, j | 0 <= i < j < |e.tx.Spends()| ::
               e.tx.Spends()[j].txid in known ==> e.tx.Spends()[i].txid in known
    ensures t in Refs(es) ==> t in Reached(es, known)
  {
    if es != [] {
      var e, before := es[|es| - 1], es[..|es| - 1];
      assert e in es && forall x | x in before :: x in es;
      AllReached(before, known, t);
      if t in InputIds(e.tx.Spends()) {
        InputsReached(e.tx, known, t);
      }
    }
  }

  /** With same-block inputs last and no third branch below the fork, cancelling restores. */
  lemma SimplyClean(s: Store, g: Hash, m: Hash, sp: SpendLists, block: Block)
    requires WellFormed(s, g) && m in s && block.prevBlockHash in s
    requires SameBlockInputsLast(block, Ids(PathEntries(s, g, block.prevBlockHash)))
    requires NoThirdBranch(s, g, m, block.prevBlockHash)
    ensures CancelClean(s, g, m, sp, block)
  {
    var prev := block.prevBlockHash;
    var es, be := PathEntries(s, g, prev), BlockEntries(block);
    forall t | t in Ids(es)
      ensures KeepsCoins(s, g, m, sp, block, t)
    {
      if t in Reached(be, Ids(es)) {
        var b := Home(s, g, prev, t);
        forall r | r in SpendsOf(sp, t) && r.blockHash in s
          ensures !Stray(s, g, m, r.blockHash, b, prev)
        {
          if Ancestor(s, g, r.blockHash, m) {
            ChainBlockIsNoStray(s, g, m, r.blockHash, b, prev);
          }
        }
        assert Strays(s, g, m, sp, prev, t) == {};
      } else {
        AllReached(be, Ids(es), t);
        SpentNeedsRef(be, t);
      }
    }
  }
}
