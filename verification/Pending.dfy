/** The pool of transactions that wait for a block (node/transactions/pending.go). */
module Pending {
  import opened Structures
  import opened Storage

  type Pool = map<Bytes, Transaction>

  /** The place of an output: transaction and index. */
  type Place = (Bytes, int)

  function PlaceOf(vin: TXInput): Place {
    (vin.txid, vin.vout)
  }

  /** Where an output of the cache comes from. */
  function OutPlace(o: Output): Place {
    (o.txid, o.oIndex)
  }

  ghost function Places(ins: seq<TXInput>): (r: set<Place>) {
    set i | 0 <= i < |ins| :: PlaceOf(ins[i])
  }

  ghost predicate Conflicts(a: Transaction, b: Transaction) {
    exists p :: p in Places(a.vin) && p in Places(b.vin)
  }

  ghost predicate ConflictsWithPool(pool: Pool, tx: Transaction) {
    exists t :: t in pool && Conflicts(tx, pool[t])
  }

  /** No two pooled transactions share an input. */
  ghost predicate NoSharedInputs(pool: Pool) {
    forall a, b | a in pool && b in pool && a != b :: !Conflicts(pool[a], pool[b])
  }

  ghost predicate KeyedById(pool: Pool) {
    forall t | t in pool :: pool[t].id == t
  }

  // ----- what the operations do to the pool

  ghost function PoolAdd(pool: Pool, tx: Transaction): Pool {
    if ConflictsWithPool(pool, tx) || tx.id == [] then pool else pool[tx.id := tx]
  }

  ghost function PoolAddCanceled(pool: Pool, txs: seq<Transaction>): Pool {
    if txs == [] then pool else
      var tx, before := txs[|txs| - 1], PoolAddCanceled(pool, txs[..|txs| - 1]);
      if tx.IsCoinbase() then before else PoolAdd(before, tx)
  }

  ghost function ApprovedIds(txs: seq<Transaction>): set<Bytes> {
    set tx | tx in txs && !tx.IsCoinbase() :: tx.id
  }

  method InputsConflict(txcheck: Transaction, txexi: Transaction) returns (conflicts: bool)
    ensures conflicts <==> Conflicts(txcheck, txexi)
  {
    for i := 0 to |txcheck.vin|
      invariant forall p :: p in Places(txcheck.vin[..i]) ==> p !in Places(txexi.vin)
    {
      var vin := txcheck.vin[i];
      for j := 0 to |txexi.vin|
        invariant PlaceOf(vin) !in Places(txexi.vin[..j])
      {
        var vine := txexi.vin[j];
        if vin.txid == vine.txid && vin.vout == vine.vout {
          assert PlaceOf(vin) in Places(txcheck.vin) && PlaceOf(vin) in Places(txexi.vin);
          return true;
        }
        assert txexi.vin[..j + 1] == txexi.vin[..j] + [vine];
      }
      assert txexi.vin[..|txexi.vin|] == txexi.vin;
      assert txcheck.vin[..i + 1] == txcheck.vin[..i] + [vin];
    }
    assert txcheck.vin[..|txcheck.vin|] == txcheck.vin;
    return false;
  }

  method DetectConflictsForNew(db: Database, txcheck: Transaction) returns (txconflicts: Option<Transaction>)
    ensures txconflicts.Some? <==> ConflictsWithPool(db.pool, txcheck)
    ensures txconflicts.Some? ==> txconflicts.value in db.pool.Values && Conflicts(txcheck, txconflicts.value)
  {
    var keys := db.pool.Keys;
    while keys != {}
      invariant keys <= db.pool.Keys
      invariant forall t | t in db.pool && t !in keys :: !Conflicts(txcheck, db.pool[t])
      decreases keys
    {
      var txID :| txID in keys;
      var conflicts := InputsConflict(txcheck, db.pool[txID]);
      if conflicts {
        return Some(db.pool[txID]);
      }
      keys := keys - {txID};
    }
    return None;
  }

  /** A bucket refuses the empty key. */
  method Add(db: Database, txadd: Transaction) returns (err: bool)
    modifies db`pool
    ensures err <==> ConflictsWithPool(old(db.pool), txadd) || txadd.id == []
    ensures db.pool == PoolAdd(old(db.pool), txadd)
  {
    var conflicts := DetectConflictsForNew(db, txadd);
    if conflicts.Some? {
      return true;
    }
    if |txadd.id| == 0 {
      return true;
    }
    db.pool := db.pool[txadd.id := txadd];
    return false;
  }

  method Delete(db: Database, txid: Bytes) returns (found: bool)
    modifies db`pool
    ensures found <==> txid in old(db.pool)
    ensures db.pool == old(db.pool) - {txid}
  {
    if txid in db.pool {
      db.pool := db.pool - {txid};
      return true;
    }
    return false;
  }

  method DeleteFromBlock(db: Database, block: Block)
    modifies db`pool
    ensures db.pool == old(db.pool) - ApprovedIds(block.transactions)
  {
    for i := 0 to |block.transactions|
      invariant db.pool == old(db.pool) - ApprovedIds(block.transactions[..i])
    {
      var tx := block.transactions[i];
      ApprovedStep(block.transactions, i);
      if !tx.IsCoinbase() {
        var found := Delete(db, tx.id);
      }
    }
    assert block.transactions[..|block.transactions|] == block.transactions;
  }

  lemma ApprovedStep(txs: seq<Transaction>, i: nat)
    requires i < |txs|
    ensures ApprovedIds(txs[..i + 1]) ==
            ApprovedIds(txs[..i]) + (if txs[i].IsCoinbase() then {} else {txs[i].id})
  {
    assert txs[..i + 1] == txs[..i] + [txs[i]];
  }

  method AddFromCanceled(db: Database, txs: seq<Transaction>)
    modifies db`pool
    ensures db.pool == PoolAddCanceled(old(db.pool), txs)
  {
    for i := 0 to |txs|
      invariant db.pool == PoolAddCanceled(old(db.pool), txs[..i])
    {
      assert txs[..i + 1][..i] == txs[..i];
      if !txs[i].IsCoinbase() {
        var err := Add(db, txs[i]);
      }
    }
    assert txs[..|txs|] == txs;
  }

  // ----- what every operation keeps

  lemma AddKeepsPool(pool: Pool, tx: Transaction)
    requires NoSharedInputs(pool) && KeyedById(pool)
    ensures NoSharedInputs(PoolAdd(pool, tx)) && KeyedById(PoolAdd(pool, tx))
  {
    if !ConflictsWithPool(pool, tx) && tx.id != [] {
      var pool' := pool[tx.id := tx];
      forall a, b | a in pool' && b in pool' && a != b
        ensures !Conflicts(pool'[a], pool'[b])
      {
        if a == tx.id {
          assert !Conflicts(tx, pool[b]);
        } else if b == tx.id {
          assert !Conflicts(tx, pool[a]);
        }
      }
    }
  }

  lemma RemoveKeepsPool(pool: Pool, ids: set<Bytes>)
    requires NoSharedInputs(pool) && KeyedById(pool)
    ensures NoSharedInputs(pool - ids) && KeyedById(pool - ids)
  {
  }

  /** Returning the transactions of a cancelled block keeps the pool free of shared inputs. */
  lemma {:induction false} CanceledKeepsPool(pool: Pool, txs: seq<Transaction>)
    requires NoSharedInputs(pool) && KeyedById(pool)
    ensures var pool' := PoolAddCanceled(pool, txs);
            NoSharedInputs(pool') && KeyedById(pool') && pool.Keys <= pool'.Keys <= pool.Keys + ApprovedIds(txs)
  {
    if txs != [] {
      var n := |txs| - 1;
      CanceledKeepsPool(pool, txs[..n]);
      assert txs[..n] + [txs[n]] == txs && txs[..|txs|] == txs;
      ApprovedStep(txs, n);
      AddKeepsPool(PoolAddCanceled(pool, txs[..n]), txs[n]);
    }
  }

  /** What every pool is: no shared inputs, transactions under their own ids, which are not
      empty, and no coinbase. */
  ghost predicate PoolSound(pool: Pool) {
    && NoSharedInputs(pool) && KeyedById(pool) && [] !in pool
    && forall t | t in pool :: !pool[t].IsCoinbase()
  }

  lemma AddKeepsSound(pool: Pool, tx: Transaction)
    requires PoolSound(pool) && !tx.IsCoinbase()
    ensures PoolSound(PoolAdd(pool, tx))
  {
    AddKeepsPool(pool, tx);
  }

  lemma RemoveKeepsSound(pool: Pool, ids: set<Bytes>)
    requires PoolSound(pool)
    ensures PoolSound(pool - ids)
  {
    RemoveKeepsPool(pool, ids);
  }

  lemma {:induction false} CanceledKeepsSound(pool: Pool, txs: seq<Transaction>)
    requires PoolSound(pool)
    ensures PoolSound(PoolAddCanceled(pool, txs))
  {
    if txs != [] {
      CanceledKeepsSound(pool, txs[..|txs| - 1]);
      if !txs[|txs| - 1].IsCoinbase() {
        AddKeepsSound(PoolAddCanceled(pool, txs[..|txs| - 1]), txs[|txs| - 1]);
      }
    }
  }

  /** An id is not empty and stands for one transaction. */
  ghost predicate IdsIdentify(pool: Pool, txs: seq<Transaction>) {
    && (forall tx | tx in txs :: tx.id != [] && (tx.id in pool ==> pool[tx.id] == tx))
    && (forall a, b | a in txs && b in txs && a.id == b.id :: a == b)
  }

  ghost predicate Answered(pool: Pool, tx: Transaction) {
    (tx.id in pool && pool[tx.id] == tx) || ConflictsWithPool(pool, tx)
  }

  ghost predicate Extends(pool: Pool, pool': Pool) {
    forall t | t in pool :: t in pool' && pool'[t] == pool[t]
  }

  lemma AnsweredStays(pool: Pool, pool': Pool, tx: Transaction)
    requires Extends(pool, pool') && Answered(pool, tx)
    ensures Answered(pool', tx)
  {
    if !(tx.id in pool && pool[tx.id] == tx) {
      var t :| t in pool && Conflicts(tx, pool[t]);
      assert t in pool' && Conflicts(tx, pool'[t]);
    }
  }

  lemma AddAnswers(pool: Pool, tx: Transaction)
    requires tx.id != [] && (tx.id in pool ==> pool[tx.id] == tx)
    ensures Extends(pool, PoolAdd(pool, tx)) && Answered(PoolAdd(pool, tx), tx)
  {
  }

  /** When ids identify transactions nothing pooled is lost or replaced, and every returned
      transaction is pooled unless it shares an input with one that is. */
  lemma {:induction false} CanceledAreAnswered(pool: Pool, txs: seq<Transaction>)
    requires IdsIdentify(pool, txs)
    ensures var pool' := PoolAddCanceled(pool, txs);
            && Extends(pool, pool')
            && (forall t | t in pool' && t !in pool :: pool'[t] in txs && pool'[t].id == t)
            && (forall tx | tx in txs && !tx.IsCoinbase() :: Answered(pool', tx))
  {
    if txs != [] {
      var n := |txs| - 1;
      var tx, before := txs[n], PoolAddCanceled(pool, txs[..n]);
      assert txs[..n] + [tx] == txs;
      CanceledAreAnswered(pool, txs[..n]);
      if !tx.IsCoinbase() {
        AddAnswers(before, tx);
        forall x | x in txs && !x.IsCoinbase()
          ensures Answered(PoolAdd(before, tx), x)
        {
          if x in txs[..n] {
            AnsweredStays(before, PoolAdd(before, tx), x);
          }
        }
      }
    }
  }

  // ----- a switch to another branch

  /** The pool after the blocks of the old branch were cancelled, one after the other. */
  ghost function PoolCancel(pool: Pool, blocks: seq<Block>): Pool {
    if blocks == [] then pool else
      PoolAddCanceled(PoolCancel(pool, blocks[..|blocks| - 1]), blocks[|blocks| - 1].transactions)
  }

  lemma PoolCancelStep(pool: Pool, blocks: seq<Block>, i: nat)
    requires i < |blocks|
    ensures PoolCancel(pool, blocks[..i + 1]) == PoolAddCanceled(PoolCancel(pool, blocks[..i]), blocks[i].transactions)
    ensures i + 1 == |blocks| ==> blocks[..i + 1] == blocks
  {
    assert blocks[..i + 1][..i] == blocks[..i];
  }

  /** The pool after the blocks of the new branch were approved. */
  ghost function PoolApprove(pool: Pool, blocks: seq<Block>): Pool {
    if blocks == [] then pool else
      PoolApprove(pool, blocks[..|blocks| - 1]) - ApprovedIds(blocks[|blocks| - 1].transactions)
  }

  ghost function ApprovedBy(blocks: seq<Block>): set<Bytes> {
    if blocks == [] then {} else
      ApprovedBy(blocks[..|blocks| - 1]) + ApprovedIds(blocks[|blocks| - 1].transactions)
  }

  lemma {:induction false} ApproveRemoves(pool: Pool, blocks: seq<Block>)
    ensures PoolApprove(pool, blocks) == pool - ApprovedBy(blocks)
  {
    if blocks != [] {
      ApproveRemoves(pool, blocks[..|blocks| - 1]);
    }
  }

  lemma {:induction false} CancelKeepsPool(pool: Pool, blocks: seq<Block>)
    requires NoSharedInputs(pool) && KeyedById(pool)
    ensures var pool' := PoolCancel(pool, blocks);
            && NoSharedInputs(pool') && KeyedById(pool')
            && pool.Keys <= pool'.Keys <= pool.Keys + ApprovedBy(blocks)
  {
    if blocks != [] {
      var before := blocks[..|blocks| - 1];
      CancelKeepsPool(pool, before);
      CanceledKeepsPool(PoolCancel(pool, before), blocks[|blocks| - 1].transactions);
    }
  }

  /** The whole switch keeps the pool free of shared inputs, and leaves in it no
      transaction of the new branch. */
  lemma SwitchKeepsPool(pool: Pool, old_: seq<Block>, new_: seq<Block>)
    requires NoSharedInputs(pool) && KeyedById(pool)
    ensures var pool' := PoolApprove(PoolCancel(pool, old_), new_);
            && NoSharedInputs(pool') && KeyedById(pool')
            && pool'.Keys <= pool.Keys + ApprovedBy(old_) && pool'.Keys !! ApprovedBy(new_)
  {
    var cancelled := PoolCancel(pool, old_);
    CancelKeepsPool(pool, old_);
    ApproveRemoves(cancelled, new_);
    RemoveKeepsPool(cancelled, ApprovedBy(new_));
  }

  lemma {:induction false} CancelKeepsSound(pool: Pool, blocks: seq<Block>)
    requires PoolSound(pool)
    ensures PoolSound(PoolCancel(pool, blocks))
  {
    if blocks != [] {
      CancelKeepsSound(pool, blocks[..|blocks| - 1]);
      CanceledKeepsSound(PoolCancel(pool, blocks[..|blocks| - 1]), blocks[|blocks| - 1].transactions);
    }
  }

  lemma SwitchKeepsSound(pool: Pool, old_: seq<Block>, new_: seq<Block>)
    requires PoolSound(pool)
    ensures PoolSound(PoolApprove(PoolCancel(pool, old_), new_))
  {
    CancelKeepsSound(pool, old_);
    ApproveRemoves(PoolCancel(pool, old_), new_);
    RemoveKeepsSound(PoolCancel(pool, old_), ApprovedBy(new_));
  }

  // ----- nothing is lost in a switch

  ghost function TxsOf(blocks: seq<Block>): seq<Transaction> {
    if blocks == [] then [] else TxsOf(blocks[..|blocks| - 1]) + blocks[|blocks| - 1].transactions
  }

  lemma {:induction false} CanceledAppend(pool: Pool, a: seq<Transaction>, b: seq<Transaction>)
    ensures PoolAddCanceled(pool, a + b) == PoolAddCanceled(PoolAddCanceled(pool, a), b)
  {
    if b == [] {
      assert a + b == a;
    } else {
      assert (a + b)[..|a + b| - 1] == a + b[..|b| - 1];
      CanceledAppend(pool, a, b[..|b| - 1]);
    }
  }

  lemma {:induction false} CancelIsFlat(pool: Pool, blocks: seq<Block>)
    ensures PoolCancel(pool, blocks) == PoolAddCanceled(pool, TxsOf(blocks))
  {
    if blocks != [] {
      CancelIsFlat(pool, blocks[..|blocks| - 1]);
      CanceledAppend(pool, TxsOf(blocks[..|blocks| - 1]), blocks[|blocks| - 1].transactions);
    }
  }

  /** After a switch every payment of the old branch, unless the new branch holds it, is in
      the pool, or shares an input with a transaction that is in the pool or on the new branch. */
  lemma NothingLost(pool: Pool, old_: seq<Block>, new_: seq<Block>, tx: Transaction)
    requires IdsIdentify(pool, TxsOf(old_)) && tx in TxsOf(old_) && !tx.IsCoinbase()
    ensures var cancelled := PoolCancel(pool, old_);
            var pool' := PoolApprove(cancelled, new_);
            exists t :: t in cancelled && (cancelled[t] == tx || Conflicts(tx, cancelled[t]))
                        && (if t in ApprovedBy(new_) then t !in pool' else t in pool' && pool'[t] == cancelled[t])
  {
    var cancelled := PoolCancel(pool, old_);
    CancelIsFlat(pool, old_);
    CanceledAreAnswered(pool, TxsOf(old_));
    ApproveRemoves(cancelled, new_);
    assert Answered(cancelled, tx);
    if tx.id in cancelled && cancelled[tx.id] == tx {
      assert cancelled[tx.id] == tx;
    } else {
      var t :| t in cancelled && Conflicts(tx, cancelled[t]);
    }
  }
}
