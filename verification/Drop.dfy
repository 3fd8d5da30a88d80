/** Taking the top block out again (DeleteBlock in node/blockchain/manager.go,
    BlockRemoved in node/transactions/index.go). */
module Drop {
  import opened Structures
  import opened Storage
  import opened Tree
  import opened Ledger
  import opened ChainLedger
  import opened TxIndex
  import opened Branches
  import Blockchain

  function WithoutHash(hashes: seq<Hash>, h: Hash): seq<Hash> {
    if hashes == [] then [] else
      var last := hashes[|hashes| - 1];
      WithoutHash(hashes[..|hashes| - 1], h) + (if last != h then [last] else [])
  }

  /** The records of a transaction whose output index is not in `gone`. */
  ghost function WithoutOutputs(sps: seq<Spend>, gone: set<int>): seq<Spend> {
    if sps == [] then [] else
      var last := sps[|sps| - 1];
      WithoutOutputs(sps[..|sps| - 1], gone) + (if last.outInd !in gone then [last] else [])
  }

  /** Stores a list, or deletes the key when the list is empty. */
  function Put<T>(m: map<Bytes, seq<T>>, t: Bytes, list: seq<T>): map<Bytes, seq<T>> {
    if list == [] then m - {t} else m[t := list]
  }

  ghost function DropHashes(m: HashLists, es: seq<Entry>): HashLists {
    if es == [] then m else
      var e, before := es[|es| - 1], DropHashes(m, es[..|es| - 1]);
      Put(before, e.tx.id, WithoutHash(HashesOf(before, e.tx.id), e.block))
  }

  ghost function DropInputs(m: SpendLists, ins: seq<TXInput>): SpendLists {
    if ins == [] then m else
      var vin, before := ins[|ins| - 1], DropInputs(m, ins[..|ins| - 1]);
      if vin.txid !in before then before
      else Put(before, vin.txid, WithoutOutputs(before[vin.txid], {vin.vout}))
  }

  ghost function DropSpends(m: SpendLists, es: seq<Entry>): SpendLists {
    if es == [] then m else DropInputs(DropSpends(m, es[..|es| - 1]), es[|es| - 1].tx.Spends())
  }

  method RemoveHash(hashes: seq<Hash>, h: Hash) returns (newHashes: seq<Hash>)
    ensures newHashes == WithoutHash(hashes, h)
  {
    newHashes := [];
    for i := 0 to |hashes|
      invariant newHashes == WithoutHash(hashes[..i], h)
    {
      assert hashes[..i + 1][..i] == hashes[..i];
      if hashes[i] != h {
        newHashes := newHashes + [hashes[i]];
      }
    }
    assert hashes[..|hashes|] == hashes;
  }

  method RemoveOutputs(outs: seq<Spend>, vout: int) returns (newOutputs: seq<Spend>)
    ensures newOutputs == WithoutOutputs(outs, {vout})
  {
    newOutputs := [];
    for i := 0 to |outs|
      invariant newOutputs == WithoutOutputs(outs[..i], {vout})
    {
      assert outs[..i + 1][..i] == outs[..i];
      if outs[i].outInd != vout {
        newOutputs := newOutputs + [outs[i]];
      }
    }
    assert outs[..|outs|] == outs;
  }

  /** The loop of BlockRemoved over the inputs of one transaction. */
  method RemoveSpends(db: Database, tx: Transaction)
    requires !tx.IsCoinbase()
    modifies db`spends
    ensures db.spends == DropInputs(old(db.spends), tx.vin)
  {
    for i := 0 to |tx.vin|
      invariant db.spends == DropInputs(old(db.spends), tx.vin[..i])
    {
      var vin := tx.vin[i];
      assert tx.vin[..i + 1][..i] == tx.vin[..i];
      if vin.txid !in db.spends {
        continue;
      }
      var outs := RemoveOutputs(db.spends[vin.txid], vin.vout);
      db.spends := Put(db.spends, vin.txid, outs);
    }
    assert tx.vin[..|tx.vin|] == tx.vin;
  }

  method BlockRemoved(db: Database, block: Block)
    modifies db`txBlocks, db`spends
    ensures db.txBlocks == DropHashes(old(db.txBlocks), BlockEntries(block))
    ensures db.spends == DropSpends(old(db.spends), BlockEntries(block))
  {
    ghost var es := BlockEntries(block);
    for i := 0 to |block.transactions|
      invariant db.txBlocks == DropHashes(old(db.txBlocks), es[..i])
      invariant db.spends == DropSpends(old(db.spends), es[..i])
    {
      var tx := block.transactions[i];
      assert es[..i + 1][..i] == es[..i] && es[i] == Entry(tx, block.hash);
      var hashes := RemoveHash(HashesOf(db.txBlocks, tx.id), block.hash);
      db.txBlocks := Put(db.txBlocks, tx.id, hashes);
      if tx.IsCoinbase() {
        assert tx.Spends() == [];
        continue;
      }
      RemoveSpends(db, tx);
    }
    assert es[..|es|] == es;
  }

  // ----- what adding and removing leave

  ghost predicate NoEmpty<T>(m: map<Bytes, seq<T>>) {
    forall t | t in m :: m[t] != []
  }

  lemma SameSpends(a: SpendLists, b: SpendLists)
    requires NoEmpty(a) && NoEmpty(b)
    ensures a == b <==> forall t :: SpendsOf(a, t) == SpendsOf(b, t)
  {
    if forall t :: SpendsOf(a, t) == SpendsOf(b, t) {
      forall t
        ensures t in a <==> t in b
        ensures t in a ==> a[t] == b[t]
      {
        assert SpendsOf(a, t) == SpendsOf(b, t);
      }
    }
  }

  lemma SameHashes(a: HashLists, b: HashLists)
    requires NoEmpty(a) && NoEmpty(b)
    ensures a == b <==> forall t :: HashesOf(a, t) == HashesOf(b, t)
  {
    if forall t :: HashesOf(a, t) == HashesOf(b, t) {
      forall t
        ensures t in a <==> t in b
        ensures t in a ==> a[t] == b[t]
      {
        assert HashesOf(a, t) == HashesOf(b, t);
      }
    }
  }

  lemma {:induction false} WithoutTwice(sps: seq<Spend>, a: set<int>, b: set<int>)
    ensures WithoutOutputs(WithoutOutputs(sps, a), b) == WithoutOutputs(sps, a + b)
  {
    if sps != [] {
      var n := |sps| - 1;
      var k := WithoutOutputs(sps[..n], a);
      WithoutTwice(sps[..n], a, b);
      assert (k + [sps[n]])[..|k|] == k && k + [] == k;
    }
  }

  lemma {:induction false} WithoutIn(sps: seq<Spend>, gone: set<int>, r: Spend)
    ensures r in WithoutOutputs(sps, gone) <==> r in sps && r.outInd !in gone
  {
    if sps != [] {
      WithoutIn(sps[..|sps| - 1], gone, r);
      assert sps == sps[..|sps| - 1] + [sps[|sps| - 1]];
    }
  }

  lemma {:induction false} WithoutNothing(sps: seq<Spend>, gone: set<int>)
    ensures WithoutOutputs(sps, gone) == sps <==> forall r | r in sps :: r.outInd !in gone
  {
    if forall r | r in sps :: r.outInd !in gone {
      if sps != [] {
        assert sps[|sps| - 1] in sps && forall r | r in sps[..|sps| - 1] :: r in sps;
        WithoutNothing(sps[..|sps| - 1], gone);
      }
    } else {
      var r :| r in sps && r.outInd in gone;
      WithoutIn(sps, gone, r);
    }
  }

  lemma {:induction false} WithoutAppend(a: seq<Spend>, b: seq<Spend>, gone: set<int>)
    ensures WithoutOutputs(a + b, gone) == WithoutOutputs(a, gone) + WithoutOutputs(b, gone)
  {
    if b == [] {
      assert a + b == a;
    } else {
      var n := |b| - 1;
      WithoutAppend(a, b[..n], gone);
      assert (a + b)[..|a + b| - 1] == a + b[..n];
    }
  }

  lemma {:induction false} SpendsAfterInputs(m: SpendLists, ins: seq<TXInput>, t: Bytes)
    requires NoEmpty(m)
    ensures NoEmpty(DropInputs(m, ins))
    ensures SpendsOf(DropInputs(m, ins), t) == WithoutOutputs(SpendsOf(m, t), InputIndices(ins, t))
  {
    if ins == [] {
      WithoutNothing(SpendsOf(m, t), {});
    } else {
      var before, vin := ins[..|ins| - 1], ins[|ins| - 1];
      SpendsAfterInputs(m, before, t);
      if vin.txid == t {
        WithoutTwice(SpendsOf(m, t), InputIndices(before, t), {vin.vout});
      } else {
        assert InputIndices(before, t) + {} == InputIndices(before, t);
      }
    }
  }

  /** Removing a block's records drops every record of the same outputs, whichever block
      it belongs to. */
  lemma {:induction false} SpendsAfterDrop(m: SpendLists, es: seq<Entry>, t: Bytes)
    requires NoEmpty(m)
    ensures NoEmpty(DropSpends(m, es))
    ensures SpendsOf(DropSpends(m, es), t) == WithoutOutputs(SpendsOf(m, t), SpentIn(es, t))
  {
    if es == [] {
      WithoutNothing(SpendsOf(m, t), {});
    } else {
      var before, e := es[..|es| - 1], es[|es| - 1];
      SpendsAfterDrop(m, before, t);
      SpendsAfterInputs(DropSpends(m, before), e.tx.Spends(), t);
      WithoutTwice(SpendsOf(m, t), SpentIn(before, t), InputIndices(e.tx.Spends(), t));
    }
  }

  lemma {:induction false} InputsNoEmpty(m: SpendLists, e: Entry, k: nat)
    requires NoEmpty(m) && k <= |e.tx.Spends()|
    ensures NoEmpty(AddInputs(m, e, k))
  {
    if k > 0 {
      InputsNoEmpty(m, e, k - 1);
    }
  }

  /** Adding never leaves an empty list. */
  lemma {:induction false} AddNoEmpty(tb: HashLists, sp: SpendLists, es: seq<Entry>)
    requires NoEmpty(tb) && NoEmpty(sp)
    ensures NoEmpty(AddHashes(tb, es)) && NoEmpty(AddSpends(sp, es))
  {
    if es != [] {
      AddNoEmpty(tb, sp, es[..|es| - 1]);
      InputsNoEmpty(AddSpends(sp, es[..|es| - 1]), es[|es| - 1], |es[|es| - 1].tx.Spends()|);
    }
  }

  lemma RecordsGone(es: seq<Entry>, bh: Hash, t: Bytes)
    requires forall e | e in es :: e.block == bh
    ensures WithoutOutputs(Records(es, t), SpentIn(es, t)) == []
  {
    var k := WithoutOutputs(Records(es, t), SpentIn(es, t));
    RecordsMarks(es, bh, t, bh);
    if k != [] {
      var r := k[0];
      WithoutIn(Records(es, t), SpentIn(es, t), r);
      MarksIn(Records(es, t), bh, r.outInd);
    }
  }

  /** No record of the index is about an output that the block spends. */
  ghost predicate NoOtherSpender(sp: SpendLists, es: seq<Entry>) {
    forall t, r | r in SpendsOf(sp, t) :: r.outInd !in SpentIn(es, t)
  }

  /** Indexing a block and removing it again restores the records of spends exactly when
      no other block recorded a spend of the same outputs. */
  lemma SpendsRestored(sp: SpendLists, b: Block)
    requires NoEmpty(sp)
    ensures DropSpends(AddSpends(sp, BlockEntries(b)), BlockEntries(b)) == sp <==> NoOtherSpender(sp, BlockEntries(b))
  {
    var es := BlockEntries(b);
    var added := AddSpends(sp, es);
    AddNoEmpty(map[], sp, es);
    forall t
      ensures SpendsOf(DropSpends(added, es), t) == WithoutOutputs(SpendsOf(sp, t), SpentIn(es, t))
      ensures SpendsOf(DropSpends(added, es), t) == SpendsOf(sp, t)
              <==> forall r | r in SpendsOf(sp, t) :: r.outInd !in SpentIn(es, t)
    {
      SpendsAfterDrop(added, es, t);
      AddSpendsRecords(sp, es, t);
      WithoutAppend(SpendsOf(sp, t), Records(es, t), SpentIn(es, t));
      RecordsGone(es, b.hash, t);
      WithoutNothing(SpendsOf(sp, t), SpentIn(es, t));
    }
    SpendsAfterDrop(added, es, []);
    SameSpends(DropSpends(added, es), sp);
  }

  // ----- the lists of blocks

  lemma {:induction false} WithoutHashNone(hashes: seq<Hash>, h: Hash)
    requires h !in hashes
    ensures WithoutHash(hashes, h) == hashes
  {
    if hashes != [] {
      WithoutHashNone(hashes[..|hashes| - 1], h);
    }
  }

  /** With distinct transaction ids each list gets the block's hash once and loses it again. */
  lemma {:induction false} HashesAdded(tb: HashLists, es: seq<Entry>, h: Hash, t: Bytes)
    requires forall e | e in es :: e.block == h
    requires DistinctIds(es)
    ensures HashesOf(AddHashes(tb, es), t) == HashesOf(tb, t) + (if t in Ids(es) then [h] else [])
  {
    if es != [] {
      var before, e := es[..|es| - 1], es[|es| - 1];
      assert e in es && forall x | x in before :: x in es;
      HashesAdded(tb, before, h, t);
      IdsIn(before, e.tx.id);
      assert forall i | 0 <= i < |before| :: es[i].tx.id != e.tx.id;
    }
  }

  lemma DropOneHash(m: HashLists, id: Bytes, h: Hash, t: Bytes)
    requires NoEmpty(m)
    ensures var m' := Put(m, id, WithoutHash(HashesOf(m, id), h));
            NoEmpty(m') && HashesOf(m', t) == if t == id then WithoutHash(HashesOf(m, t), h) else HashesOf(m, t)
  {
  }

  lemma {:induction false} HashesDropped(m: HashLists, es: seq<Entry>, h: Hash, t: Bytes)
    requires forall e | e in es :: e.block == h
    requires NoEmpty(m)
    ensures NoEmpty(DropHashes(m, es))
    ensures HashesOf(DropHashes(m, es), t)
            == if t in Ids(es) then WithoutHash(HashesOf(m, t), h) else HashesOf(m, t)
  {
    if es != [] {
      var before, e := es[..|es| - 1], es[|es| - 1];
      assert e in es && forall x | x in before :: x in es;
      HashesDropped(m, before, h, t);
      DropOneHash(DropHashes(m, before), e.tx.id, h, t);
      WithoutHashTwice(HashesOf(m, t), h);
    }
  }

  lemma {:induction false} WithoutHashTwice(hashes: seq<Hash>, h: Hash)
    ensures WithoutHash(WithoutHash(hashes, h), h) == WithoutHash(hashes, h)
    ensures h !in WithoutHash(hashes, h)
  {
    if hashes != [] {
      WithoutHashTwice(hashes[..|hashes| - 1], h);
      WithoutHashNone(WithoutHash(hashes, h), h);
    }
  }

  lemma HashesRestored(tb: HashLists, b: Block)
    requires NoEmpty(tb) && forall t :: b.hash !in HashesOf(tb, t)
    requires DistinctIds(BlockEntries(b))
    ensures DropHashes(AddHashes(tb, BlockEntries(b)), BlockEntries(b)) == tb
  {
    var es := BlockEntries(b);
    var added := AddHashes(tb, es);
    AddNoEmpty(tb, map[], es);
    forall t
      ensures HashesOf(DropHashes(added, es), t) == HashesOf(tb, t)
    {
      HashesDropped(added, es, b.hash, t);
      HashesAdded(tb, es, b.hash, t);
      WithoutHashNone(HashesOf(tb, t), b.hash);
      if t in Ids(es) {
        assert (HashesOf(tb, t) + [b.hash])[..|HashesOf(tb, t)|] == HashesOf(tb, t);
      }
    }
    HashesDropped(added, es, b.hash, []);
    SameHashes(DropHashes(added, es), tb);
  }

  lemma IndexRestored(s: Store, tb: HashLists, sp: SpendLists, b: Block)
    requires IndexMatches(s, tb, sp) && NoEmpty(tb) && NoEmpty(sp) && b.hash !in s
    requires DistinctIds(BlockEntries(b))
    ensures DropHashes(AddHashes(tb, BlockEntries(b)), BlockEntries(b)) == tb
    ensures DropSpends(AddSpends(sp, BlockEntries(b)), BlockEntries(b)) == sp
            <==> NoOtherSpender(sp, BlockEntries(b))
  {
    assert forall t :: b.hash !in HashesOf(tb, t);
    HashesRestored(tb, b);
    SpendsRestored(sp, b);
  }

  /** Appending a block to the top and dropping it again restores the block store, the top,
      the link index and the lists of blocks exactly, and the records of spends exactly when
      no other block recorded a spend of the same outputs. */
  lemma AppendThenDrop(s: Store, g: Hash, c: Links, top: Hash, tb: HashLists, sp: SpendLists, b: Block,
                       s1: Store, c1: Links, top1: Hash, s2: Store, c2: Links, top2: Hash)
    requires Indexed(s, g, c, top) && IndexMatches(s, tb, sp) && NoEmpty(tb) && NoEmpty(sp)
    requires Blockchain.Fits(s, g, b) && b.hash !in s && b.prevBlockHash == top
    requires DistinctIds(BlockEntries(b))
    requires Blockchain.Appended(s, c, top, b, s1, c1, top1) && Blockchain.Deleted(s1, c1, top1, s2, c2, top2)
    ensures s2 == s && c2 == c && top2 == top
    ensures DropHashes(AddHashes(tb, BlockEntries(b)), BlockEntries(b)) == tb
    ensures DropSpends(AddSpends(sp, BlockEntries(b)), BlockEntries(b)) == sp
            <==> NoOtherSpender(sp, BlockEntries(b))
  {
    Blockchain.DropUndoesAppend(s, g, c, top, b, s1, c1, top1, s2, c2, top2);
    IndexRestored(s, tb, sp, b);
  }
}
