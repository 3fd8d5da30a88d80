/** A transaction that is submitted to the node (ReceivedNewTransaction and
    verifyTransactionQuick in node/transactions/manager.go, CheckInputsArePrepared in
    pending.go, VerifyTransactionsOutputsAreNotSpent in unspent.go): it is checked against
    the cache and the pool only, and then pooled. */
module Submission {
  import opened Structures
  import opened Storage
  import opened Tree
  import opened Ledger
  import opened TxIndex
  import opened Pending
  import opened Verification

  // ----- where an input is looked for

  /** The block named by the first cached output of that index. */
  ghost function BlockOf(outs: seq<Output>, v: int): Option<Hash> {
    if outs == [] then None
    else if outs[0].oIndex == v then Some(outs[0].blockHash)
    else BlockOf(outs[1..], v)
  }

  ghost function CachedIn(u: Utxo, vin: TXInput): Option<Hash> {
    if vin.txid in u then BlockOf(u[vin.txid], vin.vout) else None
  }

  /** The transaction an input spends: from the block the cache names, or, when the cache has
      no such output, from the pool. */
  ghost function QuickSource(s: Store, u: Utxo, pool: Pool, vin: TXInput): Option<Transaction> {
    match CachedIn(u, vin)
    case Some(h) => if h in s then FirstWithId(s[h].transactions, vin.txid) else None
    case None => if vin.txid in pool then Some(pool[vin.txid]) else None
  }

  /** Every input has a source, and no place outside the cache occurs twice. */
  ghost predicate QuickSourced(s: Store, u: Utxo, pool: Pool, ins: seq<TXInput>) {
    && (forall i | 0 <= i < |ins| :: QuickSource(s, u, pool, ins[i]).Some?)
    && (forall i, j | 0 <= i < j < |ins| && CachedIn(u, ins[i]).None? && CachedIn(u, ins[j]).None? ::
          PlaceOf(ins[i]) != PlaceOf(ins[j]))
  }

  ghost function QuickSources(s: Store, u: Utxo, pool: Pool, ins: seq<TXInput>): (r: seq<Transaction>)
    requires QuickSourced(s, u, pool, ins)
    ensures |r| == |ins|
  {
    seq(|ins|, i requires 0 <= i < |ins| => QuickSource(s, u, pool, ins[i]).value)
  }

  /** What the quick check accepts. */
  ghost predicate QuickOk(crypto: Crypto, s: Store, u: Utxo, pool: Pool, tx: Transaction) {
    && QuickSourced(s, u, pool, tx.vin)
    && if tx.IsCoinbase() then CoinbaseOk(tx) else TxOk(crypto, tx, QuickSources(s, u, pool, tx.vin))
  }

  ghost predicate QuickCrashes(s: Store, u: Utxo, pool: Pool, tx: Transaction) {
    && QuickSourced(s, u, pool, tx.vin)
    && if tx.IsCoinbase() then tx.vout == [] else ReadsBeyond(tx.vin, QuickSources(s, u, pool, tx.vin))
  }

  // ----- the methods

  method FindCached(outs: seq<Output>, v: int) returns (blockHash: Option<Hash>)
    ensures blockHash == BlockOf(outs, v)
  {
    assert outs[0..] == outs;
    for i := 0 to |outs|
      invariant BlockOf(outs, v) == BlockOf(outs[i..], v)
    {
      if outs[i].oIndex == v {
        return Some(outs[i].blockHash);
      }
    }
    return None;
  }

  ghost predicate FoundAt(s: Store, u: Utxo, pool: Pool, vin: TXInput, notFound: map<int, TXInput>,
                          inputTX: Sources, i: int) {
    if CachedIn(u, vin).Some? then i in inputTX && i !in notFound && Some(inputTX[i]) == QuickSource(s, u, pool, vin)
    else i in notFound && notFound[i] == vin && i !in inputTX
  }

  ghost predicate FoundUpTo(s: Store, u: Utxo, pool: Pool, ins: seq<TXInput>, n: nat, notFound: map<int, TXInput>,
                            inputTX: Sources)
    requires n <= |ins|
  {
    && (forall i | i in notFound || i in inputTX :: 0 <= i < n)
    && (forall i {:trigger FoundAt(s, u, pool, ins[i], notFound, inputTX, i)} | 0 <= i < n ::
          FoundAt(s, u, pool, ins[i], notFound, inputTX, i))
  }

  lemma FoundStep(s: Store, u: Utxo, pool: Pool, ins: seq<TXInput>, n: nat, notFound: map<int, TXInput>,
                  inputTX: Sources)
    requires n < |ins| && FoundUpTo(s, u, pool, ins, n, notFound, inputTX)
    ensures CachedIn(u, ins[n]).None? ==> FoundUpTo(s, u, pool, ins, n + 1, notFound[n := ins[n]], inputTX)
    ensures CachedIn(u, ins[n]).Some? && QuickSource(s, u, pool, ins[n]).Some? ==>
              FoundUpTo(s, u, pool, ins, n + 1, notFound, inputTX[n := QuickSource(s, u, pool, ins[n]).value])
  {
    assert forall i | 0 <= i < n :: FoundAt(s, u, pool, ins[i], notFound, inputTX, i);
  }

  /** A cached input whose transaction is not in the block that the cache names. */
  ghost predicate Dangling(s: Store, u: Utxo, pool: Pool, vin: TXInput) {
    CachedIn(u, vin).Some? && QuickSource(s, u, pool, vin).None?
  }

  method VerifyTransactionsOutputsAreNotSpent(db: Database, txilist: seq<TXInput>)
    returns (notFoundInputs: map<int, TXInput>, inputTX: Sources, err: bool)
    ensures err <==> exists i :: 0 <= i < |txilist| && Dangling(db.blocks, db.unspent, db.pool, txilist[i])
    ensures !err ==> FoundUpTo(db.blocks, db.unspent, db.pool, txilist, |txilist|, notFoundInputs, inputTX)
  {
    notFoundInputs, inputTX := map[], map[];
    for txiInd := 0 to |txilist|
      invariant FoundUpTo(db.blocks, db.unspent, db.pool, txilist, txiInd, notFoundInputs, inputTX)
      invariant forall i | 0 <= i < txiInd :: !Dangling(db.blocks, db.unspent, db.pool, txilist[i])
    {
      var txi := txilist[txiInd];
      FoundStep(db.blocks, db.unspent, db.pool, txilist, txiInd, notFoundInputs, inputTX);
      var blockHash := None;
      if txi.txid in db.unspent {
        blockHash := FindCached(db.unspent[txi.txid], txi.vout);
      }
      if blockHash.None? {
        notFoundInputs := notFoundInputs[txiInd := txi];
      } else {
        var prevTX := GetTransactionFromBlock(db, txi.txid, blockHash.value);
        if prevTX.None? {
          assert Dangling(db.blocks, db.unspent, db.pool, txilist[txiInd]);
          return map[], map[], true;
        }
        inputTX := inputTX[txiInd := prevTX.value];
      }
    }
    err := false;
  }

  /** CheckInputsArePrepared: what the cache does not have must come from pooled
      transactions, and from different places. */
  method CheckInputsArePrepared(db: Database, inputs: map<int, TXInput>, n: nat, inputTXs: Sources)
    returns (r: Sources, err: bool)
    requires forall i | i in inputs :: 0 <= i < n && i !in inputTXs
    ensures err <==> RepeatsPlace(inputs) || exists i :: i in inputs && inputs[i].txid !in db.pool
    ensures !err ==> forall i :: i in r <==> i in inputTXs || i in inputs
    ensures !err ==> forall i | i in inputTXs :: r[i] == inputTXs[i]
    ensures !err ==> forall i | i in inputs :: r[i] == db.pool[inputs[i].txid]
  {
    var checked: set<Place> := {};
    r := inputTXs;
    for vinInd := 0 to n
      invariant checked == set i | i in inputs && i < vinInd :: PlaceOf(inputs[i])
      invariant forall i, j | i in inputs && j in inputs && i < j < vinInd :: PlaceOf(inputs[i]) != PlaceOf(inputs[j])
      invariant forall i :: i in r <==> i in inputTXs || (i in inputs && i < vinInd)
      invariant forall i | i in inputTXs :: r[i] == inputTXs[i]
      invariant forall i | i in inputs && i < vinInd :: inputs[i].txid in db.pool && r[i] == db.pool[inputs[i].txid]
    {
      if vinInd !in inputs {
        continue;
      }
      var vin := inputs[vinInd];
      if PlaceOf(vin) in checked {
        return r, true;
      }
      if vin.txid !in db.pool {
        return r, true;
      }
      r := r[vinInd := db.pool[vin.txid]];
      checked := checked + {PlaceOf(vin)};
    }
    return r, false;
  }

  /** The two lookups together find the sources, and fail exactly when one is missing or a
      place outside the cache occurs twice. */
  lemma QuickLookup(s: Store, u: Utxo, pool: Pool, ins: seq<TXInput>, notFound: map<int, TXInput>, inputTX: Sources)
    requires FoundUpTo(s, u, pool, ins, |ins|, notFound, inputTX)
    ensures forall i | i in notFound :: 0 <= i < |ins| && i !in inputTX
    ensures QuickSourced(s, u, pool, ins) <==>
            !RepeatsPlace(notFound) && !(exists i :: i in notFound && notFound[i].txid !in pool)
  {
    forall i | 0 <= i < |ins|
      ensures FoundAt(s, u, pool, ins[i], notFound, inputTX, i)
      ensures i in notFound <==> CachedIn(u, ins[i]).None?
      ensures i in notFound ==> notFound[i] == ins[i]
    {
    }
    if QuickSourced(s, u, pool, ins) {
      forall i | i in notFound
        ensures notFound[i].txid in pool
      {
        assert QuickSource(s, u, pool, ins[i]).Some?;
      }
    } else if !RepeatsPlace(notFound) {
      SourcesMissing(s, u, pool, ins, notFound, inputTX);
    }
  }

  lemma SourcesMissing(s: Store, u: Utxo, pool: Pool, ins: seq<TXInput>, notFound: map<int, TXInput>,
                       inputTX: Sources)
    requires FoundUpTo(s, u, pool, ins, |ins|, notFound, inputTX)
    requires !QuickSourced(s, u, pool, ins) && !RepeatsPlace(notFound)
    ensures exists i :: i in notFound && notFound[i].txid !in pool
  {
    forall i, j | 0 <= i < j < |ins| && CachedIn(u, ins[i]).None? && CachedIn(u, ins[j]).None?
      ensures PlaceOf(ins[i]) != PlaceOf(ins[j])
    {
      assert FoundAt(s, u, pool, ins[i], notFound, inputTX, i) && FoundAt(s, u, pool, ins[j], notFound, inputTX, j);
      assert i in notFound && j in notFound;
    }
    var i :| 0 <= i < |ins| && QuickSource(s, u, pool, ins[i]).None?;
    assert FoundAt(s, u, pool, ins[i], notFound, inputTX, i);
  }

  lemma QuickSourceList(s: Store, u: Utxo, pool: Pool, ins: seq<TXInput>, notFound: map<int, TXInput>,
                        inputTX: Sources, r: Sources)
    requires FoundUpTo(s, u, pool, ins, |ins|, notFound, inputTX) && QuickSourced(s, u, pool, ins)
    requires forall i :: i in r <==> i in inputTX || i in notFound
    requires forall i | i in inputTX :: r[i] == inputTX[i]
    requires forall i | i in notFound :: notFound[i].txid in pool && r[i] == pool[notFound[i].txid]
    ensures forall i | 0 <= i < |ins| :: i in r
    ensures SourceList(r, |ins|) == QuickSources(s, u, pool, ins)
  {
    forall i | 0 <= i < |ins|
      ensures i in r && Some(r[i]) == QuickSource(s, u, pool, ins[i])
    {
      assert FoundAt(s, u, pool, ins[i], notFound, inputTX, i);
    }
  }

  method VerifyTransactionQuick(db: Database, crypto: Crypto, tx: Transaction) returns (v: Verdict)
    ensures v.Accepted? <==> QuickOk(crypto, db.blocks, db.unspent, db.pool, tx)
    ensures v.Crashed? <==> QuickCrashes(db.blocks, db.unspent, db.pool, tx)
  {
    var notFoundInputs, inputTXs, e := VerifyTransactionsOutputsAreNotSpent(db, tx.vin);
    if e {
      return Rejected;
    }
    QuickLookup(db.blocks, db.unspent, db.pool, tx.vin, notFoundInputs, inputTXs);
    var all := inputTXs;
    if |notFoundInputs| > 0 {
      all, e := CheckInputsArePrepared(db, notFoundInputs, |tx.vin|, inputTXs);
      if e {
        return Rejected;
      }
    }
    QuickSourceList(db.blocks, db.unspent, db.pool, tx.vin, notFoundInputs, inputTXs, all);
    v := VerifyTx(crypto, tx, all);
  }

  /** The pool after a submission. */
  ghost function PoolSubmit(crypto: Crypto, s: Store, u: Utxo, pool: Pool, tx: Transaction): Pool {
    if QuickOk(crypto, s, u, pool, tx) then PoolAdd(pool, tx) else pool
  }

  method ReceivedNewTransaction(db: Database, crypto: Crypto, tx: Transaction) returns (v: Verdict)
    modifies db`pool
    ensures db.pool == PoolSubmit(crypto, db.blocks, db.unspent, old(db.pool), tx)
    ensures v.Accepted? <==>
              && QuickOk(crypto, db.blocks, db.unspent, old(db.pool), tx)
              && !ConflictsWithPool(old(db.pool), tx) && tx.id != []
    ensures v.Crashed? <==> QuickCrashes(db.blocks, db.unspent, old(db.pool), tx)
    ensures v.Accepted? ==> db.pool == old(db.pool)[tx.id := tx]
    ensures !v.Accepted? ==> db.pool == old(db.pool)
  {
    v := VerifyTransactionQuick(db, crypto, tx);
    if !v.Accepted? {
      return;
    }
    var err := Add(db, tx);
    if err {
      v := Rejected;
    }
  }
}
