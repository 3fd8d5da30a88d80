/** What stays in the pool: a waiting payment leaves it only when the primary branch takes it,
    when preparing a block finds it unfit, or when it is cancelled; and nothing gets in but what
    was submitted or what a switch took off the primary branch. */
module Retention {
  import opened Structures
  import opened Tree
  import opened Branches
  import opened Ledger
  import opened ChainLedger
  import opened TxIndex
  import opened Pending
  import opened ConflictDetection
  import opened Verification
  import opened Blockchain
  import opened NodeState
  import opened Prepare
  import opened Submission
  import opened Events
  import opened Runs

  /** A block on the branch of `h` holds the payment. */
  ghost predicate ApprovedOn(s: Store, g: Hash, h: Hash, t: Bytes, a: Hash)
    requires WellFormed(s, g) && h in s
  {
    Ancestor(s, g, a, h) && t in ApprovedIds(s[a].transactions)
  }

  ghost predicate Approved(st: State, g: Hash, t: Bytes) {
    && WellFormed(st.blocks, g) && st.top in st.blocks
    && exists a :: ApprovedOn(st.blocks, g, st.top, t, a)
  }

  /** A block that the primary branch has left holds the payment. */
  ghost predicate TakenOff(st: State, g: Hash, st': State, t: Bytes) {
    && WellFormed(st'.blocks, g) && st.top in st'.blocks && st'.top in st'.blocks
    && exists a :: ApprovedOn(st'.blocks, g, st.top, t, a) && !Ancestor(st'.blocks, g, a, st'.top)
  }

  /** Position k of the list holds the transaction, and it fails its check after those that
      passed before it, or shares an input with one of them. */
  ghost predicate UnfitAt(crypto: Crypto, st: State, g: Hash, list: seq<Transaction>, t: Bytes, k: int)
    requires WellFormed(st.blocks, g) && st.top in st.blocks
  {
    && 0 <= k < |list| && list[k].id == t
    && (!TxAccepted(crypto, st.blocks, g, st.top, st.spends, st.top,
                    Passed(crypto, st.blocks, g, st.spends, st.top, list[..k]), list[k])
        || list[k] in Part(Passed(crypto, st.blocks, g, st.spends, st.top, list), false))
  }

  ghost predicate Unfit(crypto: Crypto, st: State, g: Hash, list: seq<Transaction>, t: Bytes) {
    WellFormed(st.blocks, g) && st.top in st.blocks && exists k :: UnfitAt(crypto, st, g, list, t, k)
  }

  /** Why an event may take the id out of the pool. */
  ghost predicate MayLeave(crypto: Crypto, g: Hash, st: State, ev: Event, st': State, t: Bytes) {
    match ev
    case BlockGiven(b) => Approved(st', g, t)
    case TxSubmitted(tx) => false
    case BlockPrepared(list) => Unfit(crypto, st, g, list, t)
    case TxCancelled(id) => id == t
  }

  /** Why an event may bring the id into the pool. */
  ghost predicate MayEnter(crypto: Crypto, g: Hash, st: State, ev: Event, st': State, t: Bytes) {
    match ev
    case BlockGiven(b) => TakenOff(st, g, st', t)
    case TxSubmitted(tx) => tx.id == t && QuickOk(crypto, st.blocks, st.unspent, st.pool, tx)
    case BlockPrepared(list) => false
    case TxCancelled(id) => false
  }

  /** The id stands for the pooled transaction: on the primary branch and in what is submitted. */
  ghost predicate IdStands(g: Hash, st: State, ev: Event, t: Bytes)
    requires WellFormed(st.blocks, g) && st.top in st.blocks && t in st.pool
  {
    && (forall e | e in PathEntries(st.blocks, g, st.top) && e.tx.id == t :: e.tx == st.pool[t])
    && (ev.TxSubmitted? && ev.tx.id == t ==> ev.tx == st.pool[t])
  }

  // ----- a given block

  lemma {:induction false} CanceledSame(pool: Pool, txs: seq<Transaction>, t: Bytes)
    requires t in pool && forall tx | tx in txs && tx.id == t :: tx == pool[t]
    ensures t in PoolAddCanceled(pool, txs) && PoolAddCanceled(pool, txs)[t] == pool[t]
  {
    if txs != [] {
      assert forall tx | tx in txs[..|txs| - 1] :: tx in txs;
      CanceledSame(pool, txs[..|txs| - 1], t);
      assert txs[|txs| - 1] in txs;
    }
  }

  lemma {:induction false} CancelSame(pool: Pool, blocks: seq<Block>, t: Bytes)
    requires t in pool && forall b, tx | b in blocks && tx in b.transactions && tx.id == t :: tx == pool[t]
    ensures t in PoolCancel(pool, blocks) && PoolCancel(pool, blocks)[t] == pool[t]
  {
    if blocks != [] {
      var before, last := blocks[..|blocks| - 1], blocks[|blocks| - 1];
      assert last in blocks && forall b | b in before :: b in blocks;
      CancelSame(pool, before, t);
      CanceledSame(PoolCancel(pool, before), last.transactions, t);
    }
  }

  lemma NewIsOn(s: Store, g: Hash, h: Hash, f: nat, t: Bytes)
    requires WellFormed(s, g) && h in s && f <= s[h].height
    requires t in ApprovedBy(Reverse(Down(s, g, h, f)))
    ensures exists a :: ApprovedOn(s, g, h, t, a)
  {
    var down, up := Down(s, g, h, f), Reverse(Down(s, g, h, f));
    ApprovedByIs(up, t);
    var b :| b in up && t in ApprovedIds(b.transactions);
    var i :| 0 <= i < |up| && up[i] == b;
    assert down[|up| - 1 - i] == b;
    DownIs(s, g, h, f, b);
    assert ApprovedOn(s, g, h, t, b.hash);
  }

  lemma OldIsOff(s: Store, g: Hash, h: Hash, h': Hash, t: Bytes)
    requires WellFormed(s, g) && h in s && h' in s
    requires t in ApprovedBy(Down(s, g, h, ForkHeight(s, g, h, h')))
    ensures exists a :: ApprovedOn(s, g, h, t, a) && !Ancestor(s, g, a, h')
  {
    var f := ForkHeight(s, g, h, h');
    ApprovedByIs(Down(s, g, h, f), t);
    var b :| b in Down(s, g, h, f) && t in ApprovedIds(b.transactions);
    DownIs(s, g, h, f, b);
    ForkAncestor(s, g, h, h', b.hash);
    assert ApprovedOn(s, g, h, t, b.hash);
  }

  /** The pool after a switch, in terms of both branches. */
  lemma SwitchRetains(crypto: Crypto, st: State, g: Hash, st': State, t: Bytes)
    requires WellFormed(st'.blocks, g) && st.top in st'.blocks && st'.top in st'.blocks
    requires NoSharedInputs(st.pool) && KeyedById(st.pool) && Switched(crypto, st, g, st')
    ensures t in st.pool && t !in st'.pool ==> Approved(st', g, t)
    ensures t in st'.pool && t !in st.pool ==> TakenOff(st, g, st', t)
    ensures t in st.pool && t in st'.pool
            && (forall e | e in PathEntries(st'.blocks, g, st.top) && e.tx.id == t :: e.tx == st.pool[t]) ==>
              st'.pool[t] == st.pool[t]
  {
    var s, f := st'.blocks, ForkHeight(st'.blocks, g, st.top, st'.top);
    var old_, new_ := Down(s, g, st.top, f), Reverse(Down(s, g, st'.top, f));
    CancelKeepsPool(st.pool, old_);
    ApproveRemoves(PoolCancel(st.pool, old_), new_);
    if t in ApprovedBy(new_) {
      NewIsOn(s, g, st'.top, f, t);
    }
    if t in ApprovedBy(old_) {
      OldIsOff(s, g, st.top, st'.top, t);
    }
    if t in st.pool && t in st'.pool
       && (forall e | e in PathEntries(s, g, st.top) && e.tx.id == t :: e.tx == st.pool[t])
    {
      forall b, tx | b in old_ && tx in b.transactions && tx.id == t
        ensures tx == st.pool[t]
      {
        DownIs(s, g, st.top, f, b);
        EntryOnPath(s, g, st.top, Entry(tx, b.hash));
        assert Entry(tx, b.hash) in PathEntries(s, g, st.top);
      }
      CancelSame(st.pool, old_, t);
    }
  }

  lemma TopIsOn(st: State, g: Hash, b: Block, t: Bytes)
    requires WellFormed(st.blocks, g) && st.top in st.blocks && st.blocks[st.top] == b
    requires t in ApprovedIds(b.transactions)
    ensures Approved(st, g, t)
  {
    assert NodeOk(st.blocks, g, st.top);
    assert ApprovedOn(st.blocks, g, st.top, t, st.top);
  }

  /** A given block, of whatever branch: a pooled payment stays unless a block on the path to
      the new top holds it, and only payments of blocks that left the path come back. */
  lemma BlockRetains(crypto: Crypto, st: State, g: Hash, b: Block, st': State, t: Bytes)
    requires Core(st, g) && NoSharedInputs(st.pool) && KeyedById(st.pool)
    requires Shaped(st.blocks, g, b) && Step(crypto, g, st, b, st')
    ensures t in st.pool && t !in st'.pool ==> Approved(st', g, t)
    ensures t in st'.pool && t !in st.pool ==> TakenOff(st, g, st', t)
    ensures t in st.pool && t in st'.pool && IdStands(g, st, BlockGiven(b), t) ==> st'.pool[t] == st.pool[t]
  {
    var r := Outcome(crypto, st, g, b);
    if Added(r) {
      StepPaths(crypto, st, g, b, st');
      if r.AddedToTop? {
        if t in ApprovedIds(b.transactions) {
          TopIsOn(st', g, b, t);
        }
      } else if r.AddedToParallelTop? {
        SwitchRetains(crypto, st, g, st', t);
      }
    }
  }

  // ----- a prepared block

  lemma {:induction false} PassedHas(crypto: Crypto, s: Store, g: Hash, sp: SpendLists, top: Hash,
                                     list: seq<Transaction>, k: nat)
    requires WellFormed(s, g) && top in s && k < |list|
    requires TxAccepted(crypto, s, g, top, sp, top, Passed(crypto, s, g, sp, top, list[..k]), list[k])
    ensures list[k] in Passed(crypto, s, g, sp, top, list)
  {
    var before := list[..|list| - 1];
    if k < |before| {
      assert before[..k] == list[..k];
      PassedHas(crypto, s, g, sp, top, before, k);
    }
  }

  lemma OtherIsUnfit(crypto: Crypto, st: State, g: Hash, list: seq<Transaction>, n: nat, t: Bytes)
    requires WellFormed(st.blocks, g) && st.top in st.blocks && n <= |list|
    requires t in OthersIds(list[..n], Passed(crypto, st.blocks, g, st.spends, st.top, list[..n]))
    ensures Unfit(crypto, st, g, list, t)
  {
    var passed := Passed(crypto, st.blocks, g, st.spends, st.top, list[..n]);
    var tx :| tx in list[..n] && tx !in passed && tx.id == t;
    var k :| 0 <= k < n && list[..n][k] == tx;
    assert list[..n][..k] == list[..k];
    if TxAccepted(crypto, st.blocks, g, st.top, st.spends, st.top,
                  Passed(crypto, st.blocks, g, st.spends, st.top, list[..k]), list[k])
    {
      PassedHas(crypto, st.blocks, g, st.spends, st.top, list[..n], k);
    }
    assert UnfitAt(crypto, st, g, list, t, k);
  }

  lemma {:induction false} PartFrom(txs: seq<Transaction>, kept: bool, tx: Transaction)
    requires tx in Part(txs, kept)
    ensures tx in txs
  {
    var n := |txs| - 1;
    if tx in Part(txs[..n], kept) {
      PartFrom(txs[..n], kept, tx);
    }
  }

  lemma ConflictIsUnfit(crypto: Crypto, st: State, g: Hash, list: seq<Transaction>, tx: Transaction)
    requires WellFormed(st.blocks, g) && st.top in st.blocks
    requires tx in Part(Passed(crypto, st.blocks, g, st.spends, st.top, list), false)
    ensures Unfit(crypto, st, g, list, tx.id)
  {
    PartFrom(Passed(crypto, st.blocks, g, st.spends, st.top, list), false, tx);
    PassedAccepted(crypto, st.blocks, g, st.spends, st.top, list);
    var k :| 0 <= k < |list| && list[k] == tx;
    assert UnfitAt(crypto, st, g, list, tx.id, k);
  }

  lemma PreparedRetains(crypto: Crypto, st: State, g: Hash, list: seq<Transaction>, p: Pool, t: Bytes)
    requires WellFormed(st.blocks, g) && st.top in st.blocks
    requires PoolPrepared(crypto, st.blocks, g, st.spends, st.top, list, st.pool, p)
    ensures t in p ==> t in st.pool && p[t] == st.pool[t]
    ensures t in st.pool && t !in p ==> Unfit(crypto, st, g, list, t)
  {
    if SomeCrashes(crypto, st.blocks, g, st.spends, st.top, list) {
      var i :| 0 <= i < |list| && CrashedAt(crypto, st.blocks, g, st.spends, st.top, list, i, st.pool, p);
      if t in st.pool && t !in p {
        OtherIsUnfit(crypto, st, g, list, i, t);
      }
    } else if t in st.pool && t !in p {
      var passed := Passed(crypto, st.blocks, g, st.spends, st.top, list);
      assert list[..|list|] == list;
      if t in OthersIds(list, passed) {
        OtherIsUnfit(crypto, st, g, list, |list|, t);
      } else {
        var tx :| tx in Part(passed, false) && tx.id == t;
        ConflictIsUnfit(crypto, st, g, list, tx);
      }
    }
  }

  /** Preparing a block clears the pool of what is unfit: a listed transaction that is still
      pooled afterwards is one that the block takes. */
  lemma PreparedClears(crypto: Crypto, st: State, g: Hash, list: seq<Transaction>, p: Pool, tx: Transaction)
    requires WellFormed(st.blocks, g) && st.top in st.blocks && FromPool(st.pool, list)
    requires PoolPrepared(crypto, st.blocks, g, st.spends, st.top, list, st.pool, p)
    requires !SomeCrashes(crypto, st.blocks, g, st.spends, st.top, list)
    requires tx in list && tx.id in p
    ensures tx in Part(Passed(crypto, st.blocks, g, st.spends, st.top, list), true)
  {
    var passed := Passed(crypto, st.blocks, g, st.spends, st.top, list);
    assert tx in passed;
    EitherPart(passed, tx);
  }

  lemma {:induction false} EitherPart(txs: seq<Transaction>, tx: Transaction)
    requires tx in txs
    ensures tx in Part(txs, true) || tx in Part(txs, false)
  {
    var n := |txs| - 1;
    if tx in txs[..n] {
      EitherPart(txs[..n], tx);
    }
  }

  // ----- events and runs

  /** Every event: what leaves the pool leaves for a reason, what enters enters for one, and an
      id that stays keeps its transaction when ids identify. */
  lemma EventRetains(crypto: Crypto, st: State, g: Hash, ev: Event, st': State, t: Bytes)
    requires StateOk(st, g) && (ev.BlockGiven? ==> Shaped(st.blocks, g, ev.block))
    requires EventStep(crypto, g, st, ev, st')
    ensures t in st.pool && t !in st'.pool ==> MayLeave(crypto, g, st, ev, st', t)
    ensures t in st'.pool && t !in st.pool ==> MayEnter(crypto, g, st, ev, st', t)
    ensures t in st.pool && t in st'.pool && IdStands(g, st, ev, t) ==> st'.pool[t] == st.pool[t]
  {
    match ev
    case BlockGiven(b) => BlockRetains(crypto, st, g, b, st', t);
    case BlockPrepared(list) => PreparedRetains(crypto, st, g, list, st'.pool, t);
    case _ =>
  }

  ghost predicate LeavesAt(crypto: Crypto, g: Hash, sts: seq<State>, evs: seq<Event>, k: nat, t: Bytes)
    requires |sts| == |evs| + 1 && k < |evs|
  {
    MayLeave(crypto, g, sts[k], evs[k], sts[k + 1], t)
  }

  lemma RunRetainsStep(crypto: Crypto, first: Block, sts: seq<State>, evs: seq<Event>, k: nat, n: nat, t: Bytes)
    requires Runs.Run(crypto, first, sts, evs) && k < |evs| && n == k + 1 && t in sts[k].pool
    ensures t in sts[n].pool || LeavesAt(crypto, first.hash, sts, evs, k, t)
  {
    RunKeepsState(crypto, first, sts, evs, k);
    assert StepAt(crypto, first.hash, sts, evs, k);
    EventRetains(crypto, sts[k], first.hash, evs[k], sts[n], t);
  }

  /** A payment that waits in one state of a run and no longer in a later one has left in
      between: taken by a block on the path to the top of that time, found unfit, or cancelled. */
  lemma {:induction false} RunRetains(crypto: Crypto, first: Block, sts: seq<State>, evs: seq<Event>, i: nat, n: nat,
                                      t: Bytes)
    requires Runs.Run(crypto, first, sts, evs) && i <= n < |sts| && t in sts[i].pool && t !in sts[n].pool
    ensures exists k {:trigger LeavesAt(crypto, first.hash, sts, evs, k, t)} ::
              i <= k < n && LeavesAt(crypto, first.hash, sts, evs, k, t)
    decreases n - i
  {
    var k := n - 1;
    if t in sts[k].pool {
      RunRetainsStep(crypto, first, sts, evs, k, n, t);
    } else {
      RunRetains(crypto, first, sts, evs, i, k, t);
    }
  }
}
