/** Making a block (node/consensus/manager.go, proofofwork.go, and
    GetUnapprovedTransactionsForNewBlock in node/transactions/manager.go): the block that a
    node prepares and completes passes the node's own checks. */
module Prepare {
  import opened Structures
  import opened Storage
  import opened Tree
  import opened TxIndex
  import opened Pending
  import opened Supply
  import opened Verification
  import opened ConflictDetection
  import opened Sorting

  // ----- choosing from the pool

  /** Different transactions of the pool. */
  ghost predicate FromPool(pool: Pool, txs: seq<Transaction>) {
    (forall tx | tx in txs :: tx.id in pool && pool[tx.id] == tx) && NoRepeats(txs)
  }

  function Time(tx: Transaction): real {
    tx.time as real
  }

  /** Oldest first. */
  ghost predicate ByTime(txs: seq<Transaction>) {
    Ascending(txs, Time)
  }

  /** The transaction spends an output of the other. */
  ghost predicate ChildOf(child: Transaction, parent: Transaction) {
    exists i :: 0 <= i < |child.vin| && child.vin[i].txid == parent.id
  }

  /** Whoever spends an output of a pooled transaction is younger than that. */
  ghost predicate ChildrenLater(pool: Pool) {
    forall a, b {:trigger ChildOf(pool[a], pool[b])} | a in pool && b in pool && ChildOf(pool[a], pool[b]) ::
      pool[b].time < pool[a].time
  }

  /** The order is there for the checks that follow: each transaction is checked after the
      pooled ones that it spends. */
  lemma ParentsFirst(pool: Pool, txs: seq<Transaction>, i: nat, j: nat)
    requires FromPool(pool, txs) && ByTime(txs) && ChildrenLater(pool)
    requires i < |txs| && j < |txs| && ChildOf(txs[j], txs[i])
    ensures i < j
  {
    assert txs[i] in txs && txs[j] in txs;
    assert ChildOf(pool[txs[j].id], pool[txs[i].id]);
    assert Time(txs[i]) < Time(txs[j]);
  }

  method GetTransactions(db: Database, number: nat) returns (txset: seq<Transaction>)
    requires KeyedById(db.pool)
    ensures FromPool(db.pool, txset) && ByTime(txset)
    ensures forall i, j | 0 <= i < j < |txset| :: txset[i].time <= txset[j].time
    ensures ChildrenLater(db.pool) ==>
              forall i, j | 0 <= i < |txset| && 0 <= j < |txset| && ChildOf(txset[j], txset[i]) :: i < j
    ensures number >= 1 ==> |txset| == if number < |db.pool| then number else |db.pool|
  {
    txset := [];
    var keys := db.pool.Keys;
    while keys != {}
      invariant keys <= db.pool.Keys && |txset| + |keys| == |db.pool|
      invariant FromPool(db.pool, txset) && forall i | 0 <= i < |txset| :: txset[i].id !in keys
      invariant number >= 1 ==> |txset| < number
      decreases keys
    {
      var k :| k in keys;
      txset, keys := txset + [db.pool[k]], keys - {k};
      if |txset| >= number {
        break;
      }
    }
    ghost var picked := txset;
    txset := SortBy(txset, Time);
    SameElements(txset, picked);
    InOrder(txset);
    if ChildrenLater(db.pool) {
      forall i, j | 0 <= i < |txset| && 0 <= j < |txset| && ChildOf(txset[j], txset[i])
        ensures i < j
      {
        ParentsFirst(db.pool, txset, i, j);
      }
    }
  }

  lemma InOrder(txs: seq<Transaction>)
    requires ByTime(txs)
    ensures forall i, j | 0 <= i < j < |txs| :: txs[i].time <= txs[j].time
  {
    forall i, j | 0 <= i < j < |txs|
      ensures txs[i].time <= txs[j].time
    {
      assert Time(txs[i]) <= Time(txs[j]);
    }
  }

  /** CancelTransaction for each of a list. */
  method CancelAll(db: Database, txs: seq<Transaction>)
    modifies db`pool
    ensures db.pool == old(db.pool) - set tx | tx in txs :: tx.id
  {
    for i := 0 to |txs|
      invariant db.pool == old(db.pool) - set tx | tx in txs[..i] :: tx.id
    {
      assert txs[..i + 1] == txs[..i] + [txs[i]];
      var found := Delete(db, txs[i].id);
    }
    assert txs[..|txs|] == txs;
  }

  lemma AcceptedMore(crypto: Crypto, s: Store, g: Hash, m: Hash, sp: SpendLists, tip: Hash,
                     txs: seq<Transaction>, tx: Transaction)
    requires WellFormed(s, g) && m in s && tip in s
    requires TxsAccepted(crypto, s, g, m, sp, tip, txs, |txs|)
    requires TxAccepted(crypto, s, g, m, sp, tip, txs, tx)
    ensures TxsAccepted(crypto, s, g, m, sp, tip, txs + [tx], |txs| + 1)
  {
    var txs' := txs + [tx];
    forall i | 0 <= i < |txs'|
      ensures TxAccepted(crypto, s, g, m, sp, tip, txs'[..i], txs'[i])
    {
      assert txs'[..i] == txs[..i];
      assert i == |txs| ==> txs[..i] == txs;
      if i < |txs| {
        assert TxAccepted(crypto, s, g, m, sp, tip, txs[..i], txs[i]);
      }
    }
  }

  /** The transactions of a list that pass, each verified after those that passed before it. */
  ghost function Passed(crypto: Crypto, s: Store, g: Hash, sp: SpendLists, top: Hash, list: seq<Transaction>)
    : seq<Transaction>
    requires WellFormed(s, g) && top in s
  {
    if list == [] then [] else
      var before, tx := Passed(crypto, s, g, sp, top, list[..|list| - 1]), list[|list| - 1];
      if TxAccepted(crypto, s, g, top, sp, top, before, tx) then before + [tx] else before
  }

  ghost predicate CrashesAt(crypto: Crypto, s: Store, g: Hash, sp: SpendLists, top: Hash, list: seq<Transaction>,
                            i: nat)
    requires WellFormed(s, g) && top in s && i < |list|
  {
    TxCrashes(s, g, top, sp, top, Passed(crypto, s, g, sp, top, list[..i]), list[i])
  }

  ghost predicate SomeCrashes(crypto: Crypto, s: Store, g: Hash, sp: SpendLists, top: Hash, list: seq<Transaction>)
    requires WellFormed(s, g) && top in s
  {
    exists i {:trigger CrashesAt(crypto, s, g, sp, top, list, i)} | 0 <= i < |list| ::
      CrashesAt(crypto, s, g, sp, top, list, i)
  }

  ghost function OthersIds(list: seq<Transaction>, passed: seq<Transaction>): set<Bytes> {
    set tx | tx in list && tx !in passed :: tx.id
  }

  lemma {:induction false} PassedAccepted(crypto: Crypto, s: Store, g: Hash, sp: SpendLists, top: Hash,
                                          list: seq<Transaction>)
    requires WellFormed(s, g) && top in s
    ensures var passed := Passed(crypto, s, g, sp, top, list);
            && TxsAccepted(crypto, s, g, top, sp, top, passed, |passed|)
            && |passed| <= |list| && forall x | x in passed :: x in list
  {
    if list != [] {
      var n := |list| - 1;
      var before, tx := Passed(crypto, s, g, sp, top, list[..n]), list[n];
      assert list == list[..n] + [tx];
      PassedAccepted(crypto, s, g, sp, top, list[..n]);
      if TxAccepted(crypto, s, g, top, sp, top, before, tx) {
        AcceptedMore(crypto, s, g, top, sp, top, before, tx);
      }
    }
  }

  lemma PassedStep(crypto: Crypto, s: Store, g: Hash, sp: SpendLists, top: Hash, list: seq<Transaction>, i: nat)
    requires WellFormed(s, g) && top in s && i < |list|
    requires forall k, l | 0 <= k < l < |list| :: list[k] != list[l]
    ensures var before := Passed(crypto, s, g, sp, top, list[..i]);
            var ok := TxAccepted(crypto, s, g, top, sp, top, before, list[i]);
            && Passed(crypto, s, g, sp, top, list[..i + 1]) == (if ok then before + [list[i]] else before)
            && OthersIds(list[..i + 1], if ok then before + [list[i]] else before)
               == OthersIds(list[..i], before) + (if ok then {} else {list[i].id})
  {
    var before := Passed(crypto, s, g, sp, top, list[..i]);
    assert list[..i + 1][..i] == list[..i] && list[..i + 1] == list[..i] + [list[i]];
    PassedAccepted(crypto, s, g, sp, top, list[..i]);
    assert list[i] !in list[..i];
  }

  /** The first i transactions of the list have been verified, and the rejected ones have
      left the pool. */
  ghost predicate Verified(crypto: Crypto, s: Store, g: Hash, sp: SpendLists, top: Hash, list: seq<Transaction>,
                           i: nat, txs: seq<Transaction>, p0: Pool, p: Pool)
    requires WellFormed(s, g) && top in s && i <= |list|
  {
    && txs == Passed(crypto, s, g, sp, top, list[..i])
    && p == p0 - OthersIds(list[..i], txs)
    && forall k {:trigger CrashesAt(crypto, s, g, sp, top, list, k)} | 0 <= k < i ::
         !CrashesAt(crypto, s, g, sp, top, list, k)
  }

  /** The crash comes at the i-th transaction of the list. */
  ghost predicate CrashedAt(crypto: Crypto, s: Store, g: Hash, sp: SpendLists, top: Hash, list: seq<Transaction>,
                            i: nat, p0: Pool, p: Pool)
    requires WellFormed(s, g) && top in s && i < |list|
  {
    && CrashesAt(crypto, s, g, sp, top, list, i)
    && Verified(crypto, s, g, sp, top, list, i, Passed(crypto, s, g, sp, top, list[..i]), p0, p)
  }

  /** What a crash leaves of the pool: those rejected before it are gone. */
  ghost predicate CrashLeaves(crypto: Crypto, s: Store, g: Hash, sp: SpendLists, top: Hash, list: seq<Transaction>,
                              p0: Pool, p: Pool)
    requires WellFormed(s, g) && top in s
  {
    exists i {:trigger CrashedAt(crypto, s, g, sp, top, list, i, p0, p)} | 0 <= i < |list| ::
      CrashedAt(crypto, s, g, sp, top, list, i, p0, p)
  }

  /** What preparing a block from a list does to the pool. */
  ghost predicate PoolPrepared(crypto: Crypto, s: Store, g: Hash, sp: SpendLists, top: Hash, list: seq<Transaction>,
                               p0: Pool, p: Pool)
    requires WellFormed(s, g) && top in s
  {
    if SomeCrashes(crypto, s, g, sp, top, list) then CrashLeaves(crypto, s, g, sp, top, list, p0, p)
    else
      var passed := Passed(crypto, s, g, sp, top, list);
      p == p0 - OthersIds(list, passed) - set tx | tx in Part(passed, false) :: tx.id
  }

  lemma VerifiedStep(crypto: Crypto, s: Store, g: Hash, sp: SpendLists, top: Hash, list: seq<Transaction>,
                     i: nat, txs: seq<Transaction>, p0: Pool, p: Pool, ok: bool)
    requires WellFormed(s, g) && top in s && i < |list| && FromPool(p0, list)
    requires Verified(crypto, s, g, sp, top, list, i, txs, p0, p)
    requires ok == TxAccepted(crypto, s, g, top, sp, top, txs, list[i])
    requires !TxCrashes(s, g, top, sp, top, txs, list[i])
    ensures Verified(crypto, s, g, sp, top, list, i + 1, if ok then txs + [list[i]] else txs,
                     p0, if ok then p else p - {list[i].id})
  {
    PassedStep(crypto, s, g, sp, top, list, i);
  }

  lemma AllVerified(crypto: Crypto, s: Store, g: Hash, sp: SpendLists, top: Hash, list: seq<Transaction>,
                    i: nat, txs: seq<Transaction>, p0: Pool, p: Pool)
    requires WellFormed(s, g) && top in s && i <= |list|
    requires Verified(crypto, s, g, sp, top, list, i, txs, p0, p)
    ensures i < |list| && TxCrashes(s, g, top, sp, top, txs, list[i]) ==> SomeCrashes(crypto, s, g, sp, top, list)
    ensures i == |list| ==>
              && !SomeCrashes(crypto, s, g, sp, top, list)
              && txs == Passed(crypto, s, g, sp, top, list) && p == p0 - OthersIds(list, txs)
  {
    if i == |list| {
      assert list[..i] == list;
    } else if TxCrashes(s, g, top, sp, top, txs, list[i]) {
      assert CrashesAt(crypto, s, g, sp, top, list, i);
    }
  }

  /** The loop that verifies pooled transactions, each after the ones accepted before it. */
  method VerifyPooled(db: Database, ghost g: Hash, crypto: Crypto, txlist: seq<Transaction>)
    returns (txs: seq<Transaction>, outcome: Verdict)
    requires Queryable(db, g, db.topHash, db.topHash) && FromPool(db.pool, txlist)
    modifies db`pool
    ensures outcome.Crashed? <==> SomeCrashes(crypto, db.blocks, g, db.spends, db.topHash, txlist)
    ensures outcome.Crashed? ==>
              CrashLeaves(crypto, db.blocks, g, db.spends, db.topHash, txlist, old(db.pool), db.pool)
    ensures !outcome.Crashed? ==>
              && txs == Passed(crypto, db.blocks, g, db.spends, db.topHash, txlist)
              && db.pool == old(db.pool) - OthersIds(txlist, txs)
  {
    ghost var s, sp, top, p0 := db.blocks, db.spends, db.topHash, db.pool;
    txs := [];
    assert OthersIds(txlist[..0], txs) == {};
    for i := 0 to |txlist|
      invariant Verified(crypto, s, g, sp, top, txlist, i, txs, p0, db.pool)
    {
      var tx := txlist[i];
      ghost var before, p := txs, db.pool;
      var vtx := VerifyTransaction(db, g, top, crypto, tx, txs, []);
      if vtx.Crashed? {
        AllVerified(crypto, s, g, sp, top, txlist, i, txs, p0, p);
        assert CrashedAt(crypto, s, g, sp, top, txlist, i, p0, p);
        return txs, Crashed;
      }
      if vtx.Accepted? {
        txs := txs + [tx];
      } else {
        var found := Delete(db, tx.id);
      }
      VerifiedStep(crypto, s, g, sp, top, txlist, i, before, p0, p, vtx.Accepted?);
    }
    AllVerified(crypto, s, g, sp, top, txlist, |txlist|, txs, p0, db.pool);
    outcome := Accepted;
  }

  /** How many transactions a request for `number` gets. */
  function AtMost(number: nat, available: nat): nat {
    if available < number then available else number
  }

  /** The transactions for a block: of a list of pooled ones, oldest first, those that pass
      and do not conflict; all others of the list leave the pool. */
  method GetUnapprovedTransactionsForNewBlock(db: Database, ghost g: Hash, crypto: Crypto, number: nat)
    returns (txs: seq<Transaction>, outcome: Verdict, ghost list: seq<Transaction>)
    requires Queryable(db, g, db.topHash, db.topHash) && KeyedById(db.pool)
    modifies db`pool
    ensures FromPool(old(db.pool), list) && ByTime(list)
    ensures number >= 1 ==> |list| == AtMost(number, |old(db.pool)|)
    ensures outcome.Crashed? <==> SomeCrashes(crypto, db.blocks, g, db.spends, db.topHash, list)
    ensures PoolPrepared(crypto, db.blocks, g, db.spends, db.topHash, list, old(db.pool), db.pool)
    ensures var passed := Passed(crypto, db.blocks, g, db.spends, db.topHash, list);
            && (outcome.Rejected? <==> !outcome.Crashed? && passed == [])
            && (outcome.Accepted? ==> txs == Part(passed, true))
  {
    var txlist := GetTransactions(db, number);
    list := txlist;
    txs, outcome := VerifyPooled(db, g, crypto, txlist);
    if outcome.Crashed? {
      return;
    }
    if |txs| == 0 {
      outcome := Rejected;
      return;
    }
    var badtransactions;
    txs, badtransactions := DetectConflicts(txs);
    CancelAll(db, badtransactions);
    outcome := Accepted;
  }

  // ----- a pool in which nothing is dropped

  /** No two pooled transactions share an input, none repeats one, and none is a coinbase. */
  ghost predicate CleanPool(pool: Pool) {
    && NoSharedInputs(pool) && KeyedById(pool)
    && forall t | t in pool :: DistinctPlaces(pool[t].vin) && !pool[t].IsCoinbase()
  }

  lemma {:induction false} InAllVin(txs: seq<Transaction>, p: Place) returns (j: nat)
    requires p in Places(AllVin(txs))
    ensures j < |txs| && p in Places(txs[j].vin)
  {
    var n := |txs| - 1;
    PlacesAppend(AllVin(txs[..n]), txs[n].vin);
    if p in Places(txs[n].vin) {
      j := n;
    } else {
      j := InAllVin(txs[..n], p);
    }
  }

  lemma {:induction false} CleanDistinct(pool: Pool, txs: seq<Transaction>)
    requires CleanPool(pool) && FromPool(pool, txs)
    ensures DistinctPlaces(AllVin(txs)) && CoinbaseCount(txs) == 0
  {
    if txs != [] {
      var n := |txs| - 1;
      var before, tx := txs[..n], txs[n];
      CleanDistinct(pool, before);
      forall p | p in Places(AllVin(before))
        ensures p !in Places(tx.vin)
      {
        var j := InAllVin(before, p);
        assert before[j] == txs[j] && txs[j].id != tx.id;
        assert !Conflicts(pool[txs[j].id], pool[tx.id]);
      }
      DistinctAppend(AllVin(before), tx.vin);
    }
  }

  lemma KeepsAll(pool: Pool, txs: seq<Transaction>)
    requires CleanPool(pool) && FromPool(pool, txs)
    ensures Part(txs, true) == txs && CoinbaseCount(txs) == 0
  {
    CleanDistinct(pool, txs);
    KeptWhole(txs);
  }

  lemma {:induction false} PassedFromPool(crypto: Crypto, s: Store, g: Hash, sp: SpendLists, top: Hash, pool: Pool,
                                          list: seq<Transaction>)
    requires WellFormed(s, g) && top in s && FromPool(pool, list)
    ensures FromPool(pool, Passed(crypto, s, g, sp, top, list))
  {
    if list != [] {
      var before := list[..|list| - 1];
      PassedFromPool(crypto, s, g, sp, top, pool, before);
      PassedAccepted(crypto, s, g, sp, top, before);
      assert list[|list| - 1] !in before;
    }
  }

  lemma PassedClean(crypto: Crypto, s: Store, g: Hash, sp: SpendLists, top: Hash, pool: Pool, list: seq<Transaction>)
    requires WellFormed(s, g) && top in s && CleanPool(pool) && FromPool(pool, list)
    ensures var passed := Passed(crypto, s, g, sp, top, list);
            && Part(passed, true) == passed && CoinbaseCount(passed) == 0 && |passed| <= |list|
            && TxsAccepted(crypto, s, g, top, sp, top, passed, |passed|)
  {
    PassedFromPool(crypto, s, g, sp, top, pool, list);
    PassedAccepted(crypto, s, g, sp, top, list);
    KeepsAll(pool, Passed(crypto, s, g, sp, top, list));
  }

  // ----- the block maker

  /** The block is ready but for the proof of work: under the current top it meets every
      other rule of VerifyBlock. */
  ghost predicate Ready(crypto: Crypto, s: Store, g: Hash, sp: SpendLists, top: Hash, block: Block)
    requires WellFormed(s, g) && top in s
  {
    && block.prevBlockHash == top && block.height == s[top].height + 1
    && MinTransactions(block.height) <= |block.transactions| - 1 <= MAX_TRANSACTIONS
    && CoinbaseCount(block.transactions) == 1
    && TxsAccepted(crypto, s, g, top, sp, top, block.transactions, |block.transactions|)
  }

  const MAX_NONCE: nat := 0x7FFF_FFFF_FFFF_FFFF

  /** The number that the proof of work computes for a nonce. */
  function PowNumber(crypto: Crypto, b: Block, nonce: nat): nat {
    crypto.powHash(b.prevBlockHash, b.transactions, b.timestamp, nonce)
  }

  /** The nonce is the first whose number is below the target, or the last one of all. */
  ghost predicate RunsTo(crypto: Crypto, b: Block, nonce: int) {
    && 0 <= nonce <= MAX_NONCE
    && (forall k: nat | k < nonce :: PowNumber(crypto, b, k) >= Target(b.height))
    && (nonce < MAX_NONCE ==> PowNumber(crypto, b, nonce) < Target(b.height))
  }

  /** The nonce whose number was computed last. */
  function LastTried(nonce: nat): nat {
    if nonce < MAX_NONCE then nonce else MAX_NONCE - 1
  }

  lemma RunInNumbers(crypto: Crypto, b: Block, nonce: nat)
    requires RunsTo(crypto, b, nonce)
    ensures forall k: nat | k < nonce ::
              crypto.powHash(b.prevBlockHash, b.transactions, b.timestamp, k)
              >= (if b.height >= 1000 then 0x10000000000000000000000000000000000000000000000000000000000
                  else 0x1000000000000000000000000000000000000000000000000000000000000)
    ensures nonce < MAX_NONCE ==>
              crypto.powHash(b.prevBlockHash, b.transactions, b.timestamp, nonce)
              < (if b.height >= 1000 then 0x10000000000000000000000000000000000000000000000000000000000
                 else 0x1000000000000000000000000000000000000000000000000000000000000)
  {
    TargetIs(b.height);
    forall k: nat | k < nonce
      ensures crypto.powHash(b.prevBlockHash, b.transactions, b.timestamp, k) >= Target(b.height)
    {
      assert PowNumber(crypto, b, k) >= Target(b.height);
    }
  }

  /** Run: the first nonce whose hash is below the target, with that hash; or the last nonce,
      with the hash of the one before it, which is the last that was computed. */
  method Run(crypto: Crypto, b: Block) returns (nonce: nat, hash: nat)
    ensures RunsTo(crypto, b, nonce) && hash == PowNumber(crypto, b, LastTried(nonce))
    ensures forall k: nat | k < nonce ::
              crypto.powHash(b.prevBlockHash, b.transactions, b.timestamp, k)
              >= (if b.height >= 1000 then 0x10000000000000000000000000000000000000000000000000000000000
                  else 0x1000000000000000000000000000000000000000000000000000000000000)
    ensures nonce < 0x7FFF_FFFF_FFFF_FFFF ==>
              hash == crypto.powHash(b.prevBlockHash, b.transactions, b.timestamp, nonce)
              < (if b.height >= 1000 then 0x10000000000000000000000000000000000000000000000000000000000
                 else 0x1000000000000000000000000000000000000000000000000000000000000)
  {
    var target := Target(b.height);
    nonce, hash := 0, 0;
    while nonce < MAX_NONCE
      invariant nonce <= MAX_NONCE
      invariant nonce > 0 ==> hash == PowNumber(crypto, b, nonce - 1)
      invariant forall k: nat | k < nonce :: PowNumber(crypto, b, k) >= target
    {
      hash := PowNumber(crypto, b, nonce);
      if hash < target {
        break;
      } else {
        nonce := nonce + 1;
      }
    }
    RunInNumbers(crypto, b, nonce);
  }

  /** MakeCoinbaseTX: the id and the random data are given. */
  function CoinbaseTx(id: Bytes, data: Bytes, minter: Bytes): (tx: Transaction)
    ensures tx.IsCoinbase() && CoinbaseOk(tx)
  {
    Transaction(id, [TXInput([], -1, [], data)], [TXOutput(PAYMENT_FOR_BLOCK_MADE, minter)], 0)
  }

  /** A block made on the top: one higher, the payments in their order, and last a coinbase
      that pays the reward to the minter; without hash and nonce as yet. */
  ghost predicate Made(s: Store, top: Hash, txs: seq<Transaction>, cbId: Bytes, minter: Bytes, now: int, b: Block)
    requires top in s
  {
    && b.prevBlockHash == top && b.height == s[top].height + 1
    && |b.transactions| == |txs| + 1 && b.transactions[..|txs|] == txs
    && (var last := b.transactions[|txs|];
        last.IsCoinbase() && CoinbaseOk(last) && last.id == cbId && last.vout[0].pubKeyHash == minter)
    && b.timestamp == now && b.hash == [] && b.nonce == 0
  }

  /** The outcome of preparing a block from a list of pooled transactions: a crash when checking
      one of them crashes, an error when too few pass without a conflict, else the block of
      exactly those. */
  ghost predicate Prepared(crypto: Crypto, s: Store, g: Hash, sp: SpendLists, top: Hash, list: seq<Transaction>,
                           cbId: Bytes, minter: Bytes, now: int, outcome: Verdict, before: Option<Block>,
                           after: Option<Block>)
    requires WellFormed(s, g) && top in s
  {
    var good := Part(Passed(crypto, s, g, sp, top, list), true);
    && (outcome.Crashed? <==> SomeCrashes(crypto, s, g, sp, top, list))
    && (outcome.Rejected? <==> !outcome.Crashed? && |good| < MinTransactions(s[top].height + 1))
    && (if outcome.Accepted? then after.Some? && Made(s, top, good, cbId, minter, now, after.value)
        else after == before)
  }

  /** With a clean pool the block that is prepared keeps all that passed and is ready. */
  lemma PreparedIsReady(crypto: Crypto, s: Store, g: Hash, sp: SpendLists, top: Hash, pool: Pool,
                        list: seq<Transaction>, cbId: Bytes, minter: Bytes, now: int, before: Option<Block>,
                        after: Option<Block>)
    requires WellFormed(s, g) && top in s && CleanPool(pool) && FromPool(pool, list) && |list| <= MAX_TRANSACTIONS
    requires Prepared(crypto, s, g, sp, top, list, cbId, minter, now, Accepted, before, after)
    ensures after.Some? && Made(s, top, Passed(crypto, s, g, sp, top, list), cbId, minter, now, after.value)
    ensures Ready(crypto, s, g, sp, top, after.value)
  {
    PassedClean(crypto, s, g, sp, top, pool, list);
    MadeIsReady(crypto, s, g, sp, top, Passed(crypto, s, g, sp, top, list), cbId, minter, now, after.value);
  }

  /** A block made of accepted payments, within the limits, is ready. */
  lemma MadeIsReady(crypto: Crypto, s: Store, g: Hash, sp: SpendLists, top: Hash, txs: seq<Transaction>,
                    cbId: Bytes, minter: Bytes, now: int, b: Block)
    requires WellFormed(s, g) && top in s && Made(s, top, txs, cbId, minter, now, b)
    requires TxsAccepted(crypto, s, g, top, sp, top, txs, |txs|) && CoinbaseCount(txs) == 0
    requires MinTransactions(s[top].height + 1) <= |txs| <= MAX_TRANSACTIONS
    ensures Ready(crypto, s, g, sp, top, b)
  {
    var last := b.transactions[|txs|];
    assert b.transactions == txs + [last];
    WithCoinbase(crypto, s, g, sp, top, txs, last);
  }

  lemma WithCoinbase(crypto: Crypto, s: Store, g: Hash, sp: SpendLists, top: Hash, txs: seq<Transaction>,
                     cb: Transaction)
    requires WellFormed(s, g) && top in s && cb.IsCoinbase() && CoinbaseOk(cb) && CoinbaseCount(txs) == 0
    requires TxsAccepted(crypto, s, g, top, sp, top, txs, |txs|)
    ensures CoinbaseCount(txs + [cb]) == 1
    ensures TxsAccepted(crypto, s, g, top, sp, top, txs + [cb], |txs + [cb]|)
  {
    assert (txs + [cb])[..|txs|] == txs;
    AcceptedMore(crypto, s, g, top, sp, top, txs, cb);
  }

  datatype BlockPrepare = PrepareError | PreparePanic | NoTransactions | Done

  ghost function AsVerdict(res: BlockPrepare): Verdict {
    match res
    case PrepareError => Rejected
    case PreparePanic => Crashed
    case _ => Accepted
  }

  class NodeBlockMaker {
    const db: Database
    const minterAddress: Bytes
    var preparedBlock: Option<Block>

    constructor (db: Database, minterAddress: Bytes)
      ensures this.db == db && this.minterAddress == minterAddress && preparedBlock == None
    {
      this.db, this.minterAddress, preparedBlock := db, minterAddress, None;
    }

    method MakeNewBlockFromTransactions(transactions: seq<Transaction>, cbId: Bytes, cbData: Bytes, now: int)
      returns (newblock: Block)
      requires db.topHash in db.blocks
      ensures Made(db.blocks, db.topHash, transactions, cbId, minterAddress, now, newblock)
    {
      var cbTx := CoinbaseTx(cbId, cbData, minterAddress);
      newblock := Block(now, transactions + [cbTx], db.topHash, [], 0, db.blocks[db.topHash].height + 1);
    }

    /** doPrepareNewBlock: nothing happens while the pool is too small; otherwise the outcome
        for a list of pooled transactions, as many as a block may hold, oldest first. */
    method DoPrepareNewBlock(ghost g: Hash, crypto: Crypto, cbId: Bytes, cbData: Bytes, now: int)
      returns (outcome: Verdict, ghost list: seq<Transaction>)
      requires Queryable(db, g, db.topHash, db.topHash) && KeyedById(db.pool)
      modifies this`preparedBlock, db`pool
      ensures |old(db.pool)| < MinTransactions(db.blocks[db.topHash].height + 1) ==>
                outcome.Accepted? && preparedBlock == old(preparedBlock) && db.pool == old(db.pool)
      ensures |old(db.pool)| >= MinTransactions(db.blocks[db.topHash].height + 1) ==>
                && FromPool(old(db.pool), list) && ByTime(list)
                && |list| == AtMost(MAX_TRANSACTIONS, |old(db.pool)|)
                && PoolPrepared(crypto, db.blocks, g, db.spends, db.topHash, list, old(db.pool), db.pool)
                && Prepared(crypto, db.blocks, g, db.spends, db.topHash, list, cbId, minterAddress, now, outcome,
                            old(preparedBlock), preparedBlock)
    {
      var count := |db.pool|;
      var min := MinTransactions(db.blocks[db.topHash].height + 1);
      if count < min {
        return Accepted, [];
      }
      if count > MAX_TRANSACTIONS {
        count := MAX_TRANSACTIONS;
      }
      var txs;
      txs, outcome, list := GetUnapprovedTransactionsForNewBlock(db, g, crypto, count);
      if !outcome.Accepted? {
        return;
      }
      if |txs| < min {
        return Rejected, list;
      }
      var newBlock := MakeNewBlockFromTransactions(txs, cbId, cbData, now);
      preparedBlock := Some(newBlock);
    }

    /** checkUnapprovedCache: whether the pool is large enough for a block. */
    method CheckUnapprovedCache() returns (enough: bool)
      requires db.topHash in db.blocks
      ensures enough <==> |db.pool| >= MinTransactions(db.blocks[db.topHash].height + 1)
    {
      enough := |db.pool| >= MinTransactions(db.blocks[db.topHash].height + 1);
    }

    /** PrepareNewBlock: an error when a block is prepared already, nothing while the pool is
        too small, and otherwise what doPrepareNewBlock does. */
    method PrepareNewBlock(ghost g: Hash, crypto: Crypto, cbId: Bytes, cbData: Bytes, now: int)
      returns (res: BlockPrepare, ghost list: seq<Transaction>)
      requires Queryable(db, g, db.topHash, db.topHash) && KeyedById(db.pool)
      modifies this`preparedBlock, db`pool
      ensures old(preparedBlock).Some? ==>
                res.PrepareError? && preparedBlock == old(preparedBlock) && db.pool == old(db.pool)
      ensures old(preparedBlock).None? && |old(db.pool)| < MinTransactions(db.blocks[db.topHash].height + 1) ==>
                res.NoTransactions? && preparedBlock == None && db.pool == old(db.pool)
      ensures old(preparedBlock).None? && |old(db.pool)| >= MinTransactions(db.blocks[db.topHash].height + 1) ==>
                && !res.NoTransactions? && FromPool(old(db.pool), list) && ByTime(list)
                && |list| == AtMost(MAX_TRANSACTIONS, |old(db.pool)|)
                && PoolPrepared(crypto, db.blocks, g, db.spends, db.topHash, list, old(db.pool), db.pool)
                && Prepared(crypto, db.blocks, g, db.spends, db.topHash, list, cbId, minterAddress, now,
                            AsVerdict(res), None, preparedBlock)
    {
      if preparedBlock.Some? {
        return PrepareError, [];
      }
      var enough := CheckUnapprovedCache();
      if !enough {
        return NoTransactions, [];
      }
      var outcome;
      outcome, list := DoPrepareNewBlock(g, crypto, cbId, cbData, now);
      if outcome.Crashed? {
        return PreparePanic, list;
      }
      if outcome.Rejected? {
        return PrepareError, list;
      }
      if preparedBlock.None? {
        return NoTransactions, list;
      }
      return Done, list;
    }

    /** CompleteBlock: when the chain has not moved and Run stops before the last nonce, the
        completed block passes VerifyBlock. */
    method CompleteBlock(ghost g: Hash, crypto: Crypto, toBytes: nat -> Hash) returns (block: Option<Block>)
      requires WellFormed(db.blocks, g) && db.topHash in db.blocks
      modifies this`preparedBlock
      ensures block.None? <==> old(preparedBlock).None?
      ensures block.Some? ==>
                preparedBlock == block
                && (var b, n := old(preparedBlock).value, block.value.nonce;
                    && RunsTo(crypto, b, n)
                    && block.value == b.(nonce := n, hash := toBytes(PowNumber(crypto, b, LastTried(n)))))
      ensures block.Some? && Ready(crypto, db.blocks, g, db.spends, db.topHash, old(preparedBlock).value)
              && block.value.nonce < MAX_NONCE ==>
                BlockAccepted(crypto, db.blocks, g, db.topHash, db.spends, block.value)
    {
      if preparedBlock.None? {
        return None;
      }
      var b := preparedBlock.value;
      var nonce, hash := Run(crypto, b);
      preparedBlock := Some(b.(hash := toBytes(hash), nonce := nonce));
      return preparedBlock;
    }
  }
}
