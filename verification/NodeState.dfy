/** The state of a node and what adding a block does to it: the relation that the
    methods of NodeManager implement, and what every step and every run of it keeps. */
module NodeState {
  import opened Structures
  import opened Storage
  import opened Tree
  import opened Branches
  import opened Ledger
  import opened ChainLedger
  import opened TxIndex
  import opened Cancel
  import opened Pending
  import opened Verification
  import opened Growth
  import opened Switch
  import opened Blockchain

  datatype State = State(blocks: Store, top: Hash, chain: Links, txBlocks: HashLists,
                         spends: SpendLists, unspent: Utxo, pool: Pool)

  ghost predicate BranchesSound(s: Store, g: Hash)
    requires WellFormed(s, g)
  {
    forall h {:trigger PathEntries(s, g, h)} | h in s :: Sound(PathEntries(s, g, h))
  }

  /** Tree, link index and transaction index agree, and every branch is a sound chain. */
  ghost predicate Core(st: State, g: Hash) {
    && Indexed(st.blocks, g, st.chain, st.top)
    && TopIsHighest(st.blocks, st.top)
    && IndexMatches(st.blocks, st.txBlocks, st.spends)
    && BranchesSound(st.blocks, g)
  }

  /** The cache holds the unspent outputs of the branch that ends at the top. */
  ghost predicate CacheOk(st: State, g: Hash)
    requires WellFormed(st.blocks, g) && st.top in st.blocks
  {
    Tracks(st.unspent, PathEntries(st.blocks, g, st.top))
  }

  /** No two pooled transactions share an input, and none is on the primary branch. */
  ghost predicate PoolOk(st: State, g: Hash)
    requires WellFormed(st.blocks, g) && st.top in st.blocks
  {
    && NoSharedInputs(st.pool) && KeyedById(st.pool)
    && ClearOf(st.pool, st.blocks, g, st.top)
  }

  /** No transaction of the branch is in the pool. */
  ghost predicate ClearOf(pool: Pool, s: Store, g: Hash, h: Hash)
    requires WellFormed(s, g) && h in s
  {
    forall a | Ancestor(s, g, a, h) :: pool.Keys !! ApprovedIds(s[a].transactions)
  }

  /** What the node relies on for every block it is given and does not check: the shape of its
      hash, its height, and ids that can be keys of a bucket. */
  ghost predicate Shaped(s: Store, g: Hash, b: Block)
    requires WellFormed(s, g)
  {
    Fits(s, g, b) && [] !in Ids(BlockEntries(b))
  }

  /** A block that the run theorems cover: ids identify transactions, and it repeats nothing.
      The node does not check that either; what it does with any block of the right shape is
      said by the step theorems. */
  ghost predicate Proper(s: Store, g: Hash, b: Block)
    requires WellFormed(s, g)
  {
    && Shaped(s, g, b)
    && (b.prevBlockHash in s ==>
          var es := PathEntries(s, g, b.prevBlockHash);
          Identify(es + BlockEntries(b)) && Unrepeated(es, b.transactions))
  }

  /** How Node.AddBlock answers: Error when the block is refused by the checks, Panic when
      they end in an index out of range. */
  ghost function Outcome(crypto: Crypto, st: State, g: Hash, b: Block): AddState
    requires WellFormed(st.blocks, g) && st.top in st.blocks
  {
    if b.hash !in st.blocks && b.prevBlockHash in st.blocks
       && !BlockAccepted(crypto, st.blocks, g, st.top, st.spends, b) then
      if BlockCrashes(crypto, st.blocks, g, st.top, st.spends, b) then Panic else Error
    else AddOutcome(st.blocks, st.top, b)
  }

  /** The cache and the pool after a switch: the old branch cancelled from its end down to
      the fork, then the new one added from the fork up. */
  ghost predicate Switched(crypto: Crypto, st: State, g: Hash, st': State)
    requires WellFormed(st'.blocks, g) && st.top in st'.blocks && st'.top in st'.blocks
  {
    var s, f := st'.blocks, ForkHeight(st'.blocks, g, st.top, st'.top);
    && (exists u :: CancelledDown(st.unspent, u, s, g, st'.top, st'.spends, st.top, f)
                    && st'.unspent == Replay(u, EntriesAbove(s, g, st'.top, f), crypto.keyHash))
    && st'.pool == PoolApprove(PoolCancel(st.pool, Down(s, g, st.top, f)), Reverse(Down(s, g, st'.top, f)))
  }

  /** One call of Node.AddBlock. */
  ghost predicate Step(crypto: Crypto, g: Hash, st: State, b: Block, st': State)
    requires WellFormed(st.blocks, g) && st.top in st.blocks
  {
    var r := Outcome(crypto, st, g, b);
    if !Added(r) then st' == st else
      && st'.blocks == st.blocks[b.hash := b]
      && st'.top == (if r.AddedToParallel? then st.top else b.hash)
      && Indexed(st'.blocks, g, st'.chain, st'.top)
      && st'.txBlocks == AddHashes(st.txBlocks, BlockEntries(b))
      && st'.spends == AddSpends(st.spends, BlockEntries(b))
      && (r.AddedToParallel? ==> st'.unspent == st.unspent && st'.pool == st.pool)
      && (r.AddedToTop? ==>
            && st'.unspent == Replay(st.unspent, BlockEntries(b), crypto.keyHash)
            && st'.pool == st.pool - ApprovedIds(b.transactions))
      && (r.AddedToParallelTop? ==> Switched(crypto, st, g, st'))
  }

  // ----- what a step keeps

  /** Storing and indexing a block, whatever its transactions are. */
  lemma StoredTree(st: State, g: Hash, b: Block)
    requires Core(st, g) && Fits(st.blocks, g, b) && b.hash !in st.blocks && b.prevBlockHash in st.blocks
    ensures var s' := st.blocks[b.hash := b];
            && WellFormed(s', g)
            && IndexMatches(s', AddHashes(st.txBlocks, BlockEntries(b)), AddSpends(st.spends, BlockEntries(b)))
            && PathEntries(s', g, b.hash) == PathEntries(st.blocks, g, b.prevBlockHash) + BlockEntries(b)
            && forall h | h in st.blocks :: PathEntries(s', g, h) == PathEntries(st.blocks, g, h)
  {
    var s, s' := st.blocks, st.blocks[b.hash := b];
    Extend(s, g, b);
    IndexingKeepsMatch(s, st.txBlocks, st.spends, b);
    forall h | h in s
      ensures PathEntries(s', g, h) == PathEntries(s, g, h)
    {
      EntriesStable(s, g, s', h);
    }
    assert NodeOk(s', g, b.hash) && NodeOk(s', g, b.prevBlockHash);
    assert b.hash != g;
  }

  /** The ids of a proper block are new once it is accepted. */
  lemma ProperIsNew(crypto: Crypto, st: State, g: Hash, b: Block)
    requires Core(st, g) && Proper(st.blocks, g, b) && b.prevBlockHash in st.blocks
    requires BlockAccepted(crypto, st.blocks, g, st.top, st.spends, b)
    ensures NewIds(PathEntries(st.blocks, g, b.prevBlockHash), BlockEntries(b))
  {
    assert Sound(PathEntries(st.blocks, g, b.prevBlockHash));
    NewIdsExact(crypto, st.blocks, g, st.top, st.spends, b);
  }

  lemma SoundIsNew(es: seq<Entry>, be: seq<Entry>)
    requires Sound(es + be) && [] !in Ids(be)
    ensures NewIds(es, be)
  {
    OrderedFresh(es, be);
    OrderedDistinct(es, be);
  }

  lemma {:induction false} OrderedDistinct(es: seq<Entry>, be: seq<Entry>)
    requires Ordered(es + be)
    ensures DistinctIds(be)
  {
    if be != [] {
      var before, e := be[..|be| - 1], be[|be| - 1];
      assert (es + be)[..|es + be| - 1] == es + before;
      OrderedDistinct(es, before);
      IdsAppend(es, before);
      IdsIn(before, e.tx.id);
      forall i | 0 <= i < |before|
        ensures be[i].tx.id != e.tx.id
      {
        assert before[i] == be[i];
      }
    }
  }

  /** An accepted block keeps every branch sound exactly when its ids are new. */
  lemma StoredSound(crypto: Crypto, st: State, g: Hash, b: Block)
    requires Core(st, g) && Fits(st.blocks, g, b) && b.hash !in st.blocks && b.prevBlockHash in st.blocks
    requires BlockAccepted(crypto, st.blocks, g, st.top, st.spends, b) && [] !in Ids(BlockEntries(b))
    ensures WellFormed(st.blocks[b.hash := b], g)
    ensures BranchesSound(st.blocks[b.hash := b], g) <==>
            NewIds(PathEntries(st.blocks, g, b.prevBlockHash), BlockEntries(b))
  {
    var s, s', es, be := st.blocks, st.blocks[b.hash := b], PathEntries(st.blocks, g, b.prevBlockHash), BlockEntries(b);
    StoredTree(st, g, b);
    assert Sound(es);
    if NewIds(es, be) {
      AcceptedSound(crypto, s, g, st.top, st.spends, b);
      assert BranchesSound(s', g);
    }
    if BranchesSound(s', g) {
      assert Sound(PathEntries(s', g, b.hash));
      SoundIsNew(es, be);
    }
  }

  /** Every step over any block of the right shape keeps tree, links and transaction index. */
  lemma StepKeepsIndexes(crypto: Crypto, st: State, g: Hash, b: Block, st': State)
    requires Core(st, g) && Shaped(st.blocks, g, b) && Step(crypto, g, st, b, st')
    ensures Indexed(st'.blocks, g, st'.chain, st'.top) && TopIsHighest(st'.blocks, st'.top)
    ensures IndexMatches(st'.blocks, st'.txBlocks, st'.spends)
  {
    if Added(Outcome(crypto, st, g, b)) {
      IndexingKeepsMatch(st.blocks, st.txBlocks, st.spends, b);
    }
  }

  /** It keeps the branches sound as well exactly when the block, if stored, has new ids. */
  lemma StepKeepsCore(crypto: Crypto, st: State, g: Hash, b: Block, st': State)
    requires Core(st, g) && Shaped(st.blocks, g, b) && Step(crypto, g, st, b, st')
    ensures Core(st', g) <==>
            (Added(Outcome(crypto, st, g, b)) ==> NewIds(PathEntries(st.blocks, g, b.prevBlockHash), BlockEntries(b)))
  {
    StepKeepsIndexes(crypto, st, g, b, st');
    if Added(Outcome(crypto, st, g, b)) {
      StoredSound(crypto, st, g, b);
    }
  }

  lemma ProperKeepsCore(crypto: Crypto, st: State, g: Hash, b: Block, st': State)
    requires Core(st, g) && Proper(st.blocks, g, b) && Step(crypto, g, st, b, st')
    ensures Core(st', g)
  {
    if Added(Outcome(crypto, st, g, b)) {
      ProperIsNew(crypto, st, g, b);
      StepKeepsCore(crypto, st, g, b, st');
    }
  }

  /** The transactions of the new branch, after those both branches share. */
  ghost function NewEntriesOf(st: State, g: Hash, st': State): seq<Entry>
    requires WellFormed(st'.blocks, g) && st.top in st'.blocks && st'.top in st'.blocks
  {
    EntriesAbove(st'.blocks, g, st'.top, ForkHeight(st'.blocks, g, st.top, st'.top))
  }

  /** Every output whose record the cancels of a switch lose is spent on the new branch, and no
      output that was spent comes back there. */
  ghost predicate Harmless(st: State, g: Hash, st': State)
    requires WellFormed(st'.blocks, g) && st.top in st'.blocks && st'.top in st'.blocks
  {
    var s, f := st'.blocks, ForkHeight(st'.blocks, g, st.top, st'.top);
    && LossesSpent(s, g, st'.top, st'.spends, st.top, f, NewEntriesOf(st, g, st'))
    && NoneComesBack(UpTo(s, g, st.top, f), NewEntriesOf(st, g, st'))
  }

  lemma NewBranch(s: Store, g: Hash, a: Hash, b: Hash)
    requires WellFormed(s, g) && a in s && b in s
    ensures var f := ForkHeight(s, g, a, b);
            UpTo(s, g, a, f) + EntriesAbove(s, g, b, f) == PathEntries(s, g, b)
  {
    var f := ForkHeight(s, g, a, b);
    ForkPoint(s, g, a, b);
    PathAt(s, g, b, f);
    SplitAt(s, g, Path(s, g, b)[f], b);
  }

  lemma SwitchCache(crypto: Crypto, st: State, g: Hash, st': State)
    requires WellFormed(st'.blocks, g) && st.top in st'.blocks && st'.top in st'.blocks
    requires Sound(PathEntries(st'.blocks, g, st.top))
    requires Tracks(st.unspent, PathEntries(st'.blocks, g, st.top)) && Switched(crypto, st, g, st')
    ensures CacheOk(st', g) <==> Harmless(st, g, st')
  {
    var s, sp, m, f := st'.blocks, st'.spends, st'.top, ForkHeight(st'.blocks, g, st.top, st'.top);
    var b := NewEntriesOf(st, g, st');
    var u :| CancelledDown(st.unspent, u, s, g, m, sp, st.top, f) && st'.unspent == Replay(u, b, crypto.keyHash);
    CancelledTracks(st.unspent, u, s, g, m, sp, st.top, f);
    NewBranch(s, g, st.top, m);
    SwitchExact(u, s, g, m, sp, st.top, f, b, crypto.keyHash);
  }

  /** What a step that stores a block leaves of the branches. */
  lemma StepPaths(crypto: Crypto, st: State, g: Hash, b: Block, st': State)
    requires Core(st, g) && Fits(st.blocks, g, b) && Step(crypto, g, st, b, st')
    requires Added(Outcome(crypto, st, g, b))
    ensures WellFormed(st'.blocks, g) && st.top in st'.blocks && st'.top in st'.blocks
    ensures PathEntries(st'.blocks, g, st.top) == PathEntries(st.blocks, g, st.top)
    ensures Sound(PathEntries(st'.blocks, g, st.top))
    ensures Outcome(crypto, st, g, b).AddedToTop? ==>
              PathEntries(st'.blocks, g, st'.top) == PathEntries(st.blocks, g, st.top) + BlockEntries(b)
  {
    StoredTree(st, g, b);
    assert Sound(PathEntries(st.blocks, g, st.top));
  }

  /** What a step must not do to keep the cache right: bring a spent output back, or lose one
      in a switch. */
  ghost predicate KeepsCache(crypto: Crypto, st: State, g: Hash, b: Block, st': State)
    requires WellFormed(st.blocks, g) && st.top in st.blocks
    requires WellFormed(st'.blocks, g) && st.top in st'.blocks && st'.top in st'.blocks
  {
    var r := Outcome(crypto, st, g, b);
    && (r.AddedToTop? ==> NoneComesBack(PathEntries(st.blocks, g, st.top), BlockEntries(b)))
    && (r.AddedToParallelTop? ==> Harmless(st, g, st'))
  }

  /** A step over any block of the right shape keeps a correct cache correct exactly then. */
  lemma StepCache(crypto: Crypto, st: State, g: Hash, b: Block, st': State)
    requires Core(st, g) && Shaped(st.blocks, g, b) && Step(crypto, g, st, b, st')
    requires CacheOk(st, g)
    ensures WellFormed(st'.blocks, g) && st.top in st'.blocks && st'.top in st'.blocks
    ensures CacheOk(st', g) <==> KeepsCache(crypto, st, g, b, st')
  {
    var r := Outcome(crypto, st, g, b);
    if Added(r) {
      StepPaths(crypto, st, g, b, st');
      if r.AddedToTop? {
        ReplayExact(st.unspent, PathEntries(st.blocks, g, st.top), BlockEntries(b), crypto.keyHash);
      } else if r.AddedToParallelTop? {
        SwitchCache(crypto, st, g, st');
      }
    }
  }

  /** With a proper block only a switch can harm. */
  lemma ProperCache(crypto: Crypto, st: State, g: Hash, b: Block, st': State)
    requires Core(st, g) && Proper(st.blocks, g, b) && Step(crypto, g, st, b, st')
    requires CacheOk(st, g)
    ensures WellFormed(st'.blocks, g) && st.top in st'.blocks && st'.top in st'.blocks
    ensures CacheOk(st', g) <==> (Outcome(crypto, st, g, b).AddedToParallelTop? ==> Harmless(st, g, st'))
  {
    StepCache(crypto, st, g, b, st');
    if Outcome(crypto, st, g, b).AddedToTop? {
      StepPaths(crypto, st, g, b, st');
      ProperKeepsCore(crypto, st, g, b, st');
      assert Sound(PathEntries(st'.blocks, g, st'.top));
      OrderedNoneBack(PathEntries(st.blocks, g, st.top), BlockEntries(b));
    }
  }

  // ----- the pool

  lemma DownHas(s: Store, g: Hash, h: Hash, k: nat, a: Hash)
    requires WellFormed(s, g) && h in s && k < s[h].height && Ancestor(s, g, a, h) && k < s[a].height
    ensures s[a] in Down(s, g, h, k)
  {
    var i := s[h].height - s[a].height;
    DownAt(s, g, h, k, i);
  }

  lemma DownIs(s: Store, g: Hash, h: Hash, k: nat, b: Block)
    requires WellFormed(s, g) && h in s && k <= s[h].height && b in Down(s, g, h, k)
    ensures Ancestor(s, g, b.hash, h) && s[b.hash] == b && k < b.height
  {
    var i :| 0 <= i < |Down(s, g, h, k)| && Down(s, g, h, k)[i] == b;
    DownAt(s, g, h, k, i);
  }

  lemma {:induction false} ApprovedByIs(blocks: seq<Block>, t: Bytes)
    ensures t in ApprovedBy(blocks) <==> exists b :: b in blocks && t in ApprovedIds(b.transactions)
  {
    if blocks != [] {
      var before, last := blocks[..|blocks| - 1], blocks[|blocks| - 1];
      ApprovedByIs(before, t);
      assert blocks == before + [last];
    }
  }

  lemma ApprovedHeld(s: Store, a: Hash, t: Bytes)
    requires a in s && t in ApprovedIds(s[a].transactions)
    ensures Holds(s, a, t)
  {
    var tx :| tx in s[a].transactions && !tx.IsCoinbase() && tx.id == t;
    var i :| 0 <= i < |s[a].transactions| && s[a].transactions[i] == tx;
    assert BlockEntries(s[a])[i].tx.id == t;
    IdsIn(BlockEntries(s[a]), t);
  }

  /** On a sound branch no transaction is approved twice. */
  lemma ApprovedOnce(s: Store, g: Hash, h: Hash, a: Hash, b: Hash, t: Bytes)
    requires WellFormed(s, g) && h in s && Ordered(PathEntries(s, g, h))
    requires Ancestor(s, g, a, h) && Ancestor(s, g, b, h)
    requires t in ApprovedIds(s[a].transactions) && t in ApprovedIds(s[b].transactions)
    ensures a == b
  {
    ApprovedHeld(s, a, t);
    ApprovedHeld(s, b, t);
    HomeOnPath(s, g, h, a, t);
  }

  lemma NewInUp(s: Store, g: Hash, h: Hash, f: nat, a: Hash, t: Bytes)
    requires WellFormed(s, g) && h in s && f < s[h].height
    requires Ancestor(s, g, a, h) && f < s[a].height && t in ApprovedIds(s[a].transactions)
    ensures t in ApprovedBy(Reverse(Down(s, g, h, f)))
  {
    var down, up := Down(s, g, h, f), Reverse(Down(s, g, h, f));
    DownHas(s, g, h, f, a);
    var i :| 0 <= i < |down| && down[i] == s[a];
    assert up[|up| - 1 - i] == s[a];
    ApprovedByIs(up, t);
  }

  lemma SharedNotCancelled(s: Store, g: Hash, h: Hash, f: nat, a: Hash, t: Bytes)
    requires WellFormed(s, g) && h in s && f <= s[h].height && Ordered(PathEntries(s, g, h))
    requires Ancestor(s, g, a, h) && s[a].height <= f && t in ApprovedIds(s[a].transactions)
    ensures t !in ApprovedBy(Down(s, g, h, f))
  {
    var down := Down(s, g, h, f);
    ApprovedByIs(down, t);
    if t in ApprovedBy(down) {
      var b :| b in down && t in ApprovedIds(b.transactions);
      DownIs(s, g, h, f, b);
      ApprovedOnce(s, g, h, a, b.hash, t);
    }
  }

  lemma SwitchPool(s: Store, g: Hash, old_: Hash, new_: Hash, pool: Pool, a: Hash, t: Bytes)
    requires WellFormed(s, g) && old_ in s && new_ in s && Ordered(PathEntries(s, g, old_))
    requires NoSharedInputs(pool) && KeyedById(pool) && ForkHeight(s, g, old_, new_) < s[new_].height
    requires ClearOf(pool, s, g, old_)
    requires Ancestor(s, g, a, new_) && t in ApprovedIds(s[a].transactions)
    ensures var f := ForkHeight(s, g, old_, new_);
            t !in PoolApprove(PoolCancel(pool, Down(s, g, old_, f)), Reverse(Down(s, g, new_, f)))
  {
    var f := ForkHeight(s, g, old_, new_);
    SwitchKeepsPool(pool, Down(s, g, old_, f), Reverse(Down(s, g, new_, f)));
    if f < s[a].height {
      NewInUp(s, g, new_, f, a, t);
    } else {
      BelowFork(s, g, old_, new_, a);
      SharedNotCancelled(s, g, old_, f, a, t);
      assert pool.Keys !! ApprovedIds(s[a].transactions);
    }
  }

  lemma SwitchedPool(crypto: Crypto, st: State, g: Hash, st': State)
    requires WellFormed(st'.blocks, g) && st.top in st'.blocks && st'.top in st'.blocks
    requires Ordered(PathEntries(st'.blocks, g, st.top))
    requires ForkHeight(st'.blocks, g, st.top, st'.top) < st'.blocks[st'.top].height
    requires NoSharedInputs(st.pool) && KeyedById(st.pool)
    requires ClearOf(st.pool, st'.blocks, g, st.top)
    requires Switched(crypto, st, g, st')
    ensures PoolOk(st', g)
  {
    var s, f := st'.blocks, ForkHeight(st'.blocks, g, st.top, st'.top);
    SwitchKeepsPool(st.pool, Down(s, g, st.top, f), Reverse(Down(s, g, st'.top, f)));
    forall a | Ancestor(s, g, a, st'.top)
      ensures st'.pool.Keys !! ApprovedIds(s[a].transactions)
    {
      forall t | t in ApprovedIds(s[a].transactions)
        ensures t !in st'.pool
      {
        SwitchPool(s, g, st.top, st'.top, st.pool, a, t);
      }
    }
  }

  /** A branch keeps its blocks when another block is stored. */
  lemma AncestorsStay(s: Store, g: Hash, b: Block, h: Hash, x: Hash)
    requires WellFormed(s, g) && h in s && Fits(s, g, b) && b.hash !in s && b.prevBlockHash in s
    ensures WellFormed(s[b.hash := b], g)
    ensures Ancestor(s[b.hash := b], g, x, h) <==> Ancestor(s, g, x, h)
    ensures x != b.hash ==> (Ancestor(s[b.hash := b], g, x, b.hash) <==> Ancestor(s, g, x, b.prevBlockHash))
  {
    var s' := s[b.hash := b];
    Extend(s, g, b);
    AncestorOnPath(s, g, x, h);
    AncestorOnPath(s', g, x, h);
    AncestorOnPath(s, g, x, b.prevBlockHash);
    AncestorOnPath(s', g, x, b.hash);
    assert NodeOk(s, g, g) && b.hash != g;
  }

  lemma AppendPool(st: State, g: Hash, b: Block, st': State)
    requires WellFormed(st.blocks, g) && st.top in st.blocks && PoolOk(st, g)
    requires Fits(st.blocks, g, b) && b.hash !in st.blocks && b.prevBlockHash == st.top
    requires st'.blocks == st.blocks[b.hash := b] && st'.top == b.hash
    requires st'.pool == st.pool - ApprovedIds(b.transactions)
    ensures WellFormed(st'.blocks, g) && PoolOk(st', g)
  {
    AncestorsStay(st.blocks, g, b, st.top, b.hash);
    RemoveKeepsPool(st.pool, ApprovedIds(b.transactions));
    forall a | Ancestor(st'.blocks, g, a, b.hash)
      ensures st'.pool.Keys !! ApprovedIds(st'.blocks[a].transactions)
    {
      AncestorsStay(st.blocks, g, b, st.top, a);
    }
  }

  /** An old branch has the same blocks, so the pool keeps clear of it. */
  lemma ClearOfOld(st: State, g: Hash, b: Block)
    requires WellFormed(st.blocks, g) && st.top in st.blocks && PoolOk(st, g)
    requires Fits(st.blocks, g, b) && b.hash !in st.blocks && b.prevBlockHash in st.blocks
    ensures WellFormed(st.blocks[b.hash := b], g) && ClearOf(st.pool, st.blocks[b.hash := b], g, st.top)
  {
    AncestorsStay(st.blocks, g, b, st.top, b.hash);
    var s' := st.blocks[b.hash := b];
    forall x | Ancestor(s', g, x, st.top)
      ensures st.pool.Keys !! ApprovedIds(s'[x].transactions)
    {
      AncestorsStay(st.blocks, g, b, st.top, x);
    }
  }

  /** Every step, over any block of the right shape, keeps the pool free of shared inputs and of approved
      transactions. */
  lemma StepPool(crypto: Crypto, st: State, g: Hash, b: Block, st': State)
    requires Core(st, g) && Shaped(st.blocks, g, b) && Step(crypto, g, st, b, st')
    requires PoolOk(st, g)
    ensures WellFormed(st'.blocks, g) && st'.top in st'.blocks && PoolOk(st', g)
  {
    var r := Outcome(crypto, st, g, b);
    if r.AddedToTop? {
      AppendPool(st, g, b, st');
    } else if Added(r) {
      ClearOfOld(st, g, b);
      if r.AddedToParallelTop? {
        StepPaths(crypto, st, g, b, st');
        SwitchedPool(crypto, st, g, st');
      }
    }
  }

  // ----- a switch that is seen to be harmless

  /** All stored blocks up to the fork are on the branch both share: side branches start
      at the fork or above. */
  ghost predicate NoBranchBelow(s: Store, g: Hash, top: Hash, f: nat)
    requires WellFormed(s, g) && top in s
  {
    forall c | c in s && s[c].height <= f :: Ancestor(s, g, c, top)
  }

  ghost predicate InputsInOrder(s: Store, g: Hash, h: Hash, k: nat)
    requires WellFormed(s, g) && h in s && k < s[h].height
  {
    SameBlockInputsLast(BlockAt(s, g, h, k + 1), Ids(UpTo(s, g, h, k)))
  }

  ghost predicate SimpleSwitch(st: State, g: Hash, st': State)
    requires WellFormed(st'.blocks, g) && st.top in st'.blocks && st'.top in st'.blocks
  {
    var s, f := st'.blocks, ForkHeight(st'.blocks, g, st.top, st'.top);
    && NoBranchBelow(s, g, st.top, f)
    && forall k {:trigger InputsInOrder(s, g, st.top, k)} | f <= k < s[st.top].height :: InputsInOrder(s, g, st.top, k)
  }

  /** Going down a branch, the fork stays where it is until it is reached. */
  lemma ForkBelow(s: Store, g: Hash, h: Hash, m: Hash, j: nat)
    requires WellFormed(s, g) && h in s && m in s && j <= s[h].height
    ensures Path(s, g, h)[j] in s
    ensures ForkHeight(s, g, Path(s, g, h)[j], m) <= ForkHeight(s, g, h, m)
  {
    PathAt(s, g, h, j);
    var a := Path(s, g, h)[j];
    var k := ForkHeight(s, g, a, m);
    assert Path(s, g, h)[..k + 1] == Path(s, g, a)[..k + 1];
    SharedPrefix(Path(s, g, h), Path(s, g, m), k + 1);
  }

  lemma CleanHere(s: Store, g: Hash, m: Hash, sp: SpendLists, h: Hash, j: nat)
    requires WellFormed(s, g) && h in s && m in s && ForkHeight(s, g, h, m) <= j < s[h].height
    requires NoBranchBelow(s, g, h, ForkHeight(s, g, h, m)) && InputsInOrder(s, g, h, j)
    ensures CleanAt(s, g, m, sp, h, j)
  {
    var f, prev := ForkHeight(s, g, h, m), Path(s, g, h)[j];
    ForkBelow(s, g, h, m, j);
    forall c | c in s && s[c].height <= f
      ensures Ancestor(s, g, c, m)
    {
      ForkAncestor(s, g, h, m, c);
    }
    SimplyClean(s, g, m, sp, BlockAt(s, g, h, j + 1));
  }

  lemma SimpleIsHarmless(st: State, g: Hash, st': State)
    requires WellFormed(st'.blocks, g) && st.top in st'.blocks && st'.top in st'.blocks
    requires Ordered(PathEntries(st'.blocks, g, st.top)) && Ordered(PathEntries(st'.blocks, g, st'.top))
    requires SimpleSwitch(st, g, st')
    ensures Harmless(st, g, st')
  {
    var s, f := st'.blocks, ForkHeight(st'.blocks, g, st.top, st'.top);
    forall j | f <= j < s[st.top].height
      ensures CleanAt(s, g, st'.top, st'.spends, st.top, j)
    {
      assert InputsInOrder(s, g, st.top, j);
      CleanHere(s, g, st'.top, st'.spends, st.top, j);
    }
    CleanSwitch(s, g, st'.top, st'.spends, st.top, f, NewEntriesOf(st, g, st'));
    NewBranch(s, g, st.top, st'.top);
    OrderedNoneBack(UpTo(s, g, st.top, f), NewEntriesOf(st, g, st'));
  }
}
