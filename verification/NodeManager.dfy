/** The node's operations on its database (node/nodemanager/node.go, blockchain.go,
    blockchain_create.go, and the hooks of node/transactions/manager.go). */
module NodeManager {
  import opened Structures
  import opened Storage
  import opened Tree
  import opened Branches
  import opened Ledger
  import opened ChainLedger
  import opened TxIndex
  import opened UnspentCache
  import opened Pending
  import opened Verification
  import opened Switch
  import opened NodeState
  import opened Runs
  import Blockchain

  ghost function StateOf(db: Database): State
    reads db
  {
    State(db.blocks, db.topHash, db.chain, db.txBlocks, db.spends, db.unspent, db.pool)
  }

  // ----- hooks of the transactions manager

  /** BlockAdded: a block was stored; it may be on top of the chain. */
  method BlockAdded(db: Database, block: Block, ontopofchain: bool, keyHash: KeyHash)
    modifies db`txBlocks, db`spends, db`pool, db`unspent
    ensures db.txBlocks == AddHashes(old(db.txBlocks), BlockEntries(block))
    ensures db.spends == AddSpends(old(db.spends), BlockEntries(block))
    ensures db.pool == if ontopofchain then old(db.pool) - ApprovedIds(block.transactions) else old(db.pool)
    ensures db.unspent == if ontopofchain then Replay(old(db.unspent), BlockEntries(block), keyHash)
                          else old(db.unspent)
  {
    TxIndex.BlockAdded(db, block);
    if ontopofchain {
      DeleteFromBlock(db, block);
      UpdateOnBlockAdd(db, block, keyHash);
    }
  }

  method BlockAddedToPrimaryChain(db: Database, block: Block, keyHash: KeyHash)
    modifies db`pool, db`unspent
    ensures db.pool == old(db.pool) - ApprovedIds(block.transactions)
    ensures db.unspent == Replay(old(db.unspent), BlockEntries(block), keyHash)
  {
    DeleteFromBlock(db, block);
    UpdateOnBlockAdd(db, block, keyHash);
  }

  method BlockRemovedFromPrimaryChain(db: Database, ghost g: Hash, ghost m: Hash, ghost h: Hash, ghost k: nat,
                                      block: Block, keyHash: KeyHash)
    requires Queryable(db, g, m, block.prevBlockHash) && h in db.blocks && k < db.blocks[h].height
    requires block == BlockAt(db.blocks, g, h, k + 1) && Sound(PathEntries(db.blocks, g, block.hash))
    modifies db`pool, db`unspent
    ensures db.pool == PoolAddCanceled(old(db.pool), block.transactions)
    ensures CancelledAt(old(db.unspent), db.unspent, db.blocks, g, m, db.spends, h, k)
  {
    AddFromCanceled(db, block.transactions);
    PathAt(db.blocks, g, h, k);
    var err := UpdateOnBlockCancel(db, g, m, block, keyHash);
  }

  // ----- the switch to another branch

  /** What the loops of a switch rely on and only read: the indexes agree with the blocks, and
      the old branch is sound. */
  ghost predicate Switching(db: Database, g: Hash, m: Hash, h: Hash)
    reads db`blocks, db`chain, db`topHash, db`txBlocks, db`spends
  {
    Queryable(db, g, m, h) && Sound(PathEntries(db.blocks, g, h))
  }

  /** The blocks to be cancelled are those of the branch of `h` above the fork. */
  ghost predicate Cancelling(db: Database, g: Hash, m: Hash, h: Hash, f: nat, oldChain: seq<Block>)
    reads db`blocks, db`chain, db`topHash, db`txBlocks, db`spends
  {
    Switching(db, g, m, h) && f <= db.blocks[h].height && oldChain == Down(db.blocks, g, h, f)
  }

  lemma OldBlockAt(s: Store, g: Hash, h: Hash, f: nat, oldChain: seq<Block>, i: nat, k: nat)
    requires WellFormed(s, g) && h in s && Sound(PathEntries(s, g, h)) && f <= s[h].height
    requires oldChain == Down(s, g, h, f) && i < |oldChain| && k == s[h].height - i - 1
    ensures oldChain[i] == BlockAt(s, g, h, k + 1)
    ensures oldChain[i].hash in s && Sound(PathEntries(s, g, oldChain[i].hash))
    ensures oldChain[i].prevBlockHash in s && Ordered(PathEntries(s, g, oldChain[i].prevBlockHash))
  {
    DownAt(s, g, h, f, i);
    SoundBelow(s, g, oldChain[i].hash, h);
  }

  method CancelOldBlock(db: Database, ghost g: Hash, ghost m: Hash, ghost h: Hash, ghost f: nat, ghost u0: Utxo,
                        oldChain: seq<Block>, i: nat, ghost k: nat, keyHash: KeyHash)
    requires Cancelling(db, g, m, h, f, oldChain) && i < |oldChain| && k == db.blocks[h].height - i - 1
    requires CancelledDown(u0, db.unspent, db.blocks, g, m, db.spends, h, k + 1)
    modifies db`pool, db`unspent
    ensures db.pool == PoolAddCanceled(old(db.pool), oldChain[i].transactions)
    ensures CancelledDown(u0, db.unspent, db.blocks, g, m, db.spends, h, k)
  {
    OldBlockAt(db.blocks, g, h, f, oldChain, i, k);
    BlockRemovedFromPrimaryChain(db, g, m, h, k, oldChain[i], keyHash);
    CancelOne(u0, old(db.unspent), db.unspent, db.blocks, g, m, db.spends, h, k);
  }

  /** First loop: the blocks of the old branch are cancelled, from its end down. */
  method CancelOldChain(db: Database, ghost g: Hash, ghost m: Hash, ghost h: Hash, ghost f: nat,
                        oldChain: seq<Block>, keyHash: KeyHash)
    requires Cancelling(db, g, m, h, f, oldChain)
    modifies db`pool, db`unspent
    ensures db.pool == PoolCancel(old(db.pool), oldChain)
    ensures CancelledDown(old(db.unspent), db.unspent, db.blocks, g, m, db.spends, h, f)
  {
    ghost var k: nat := db.blocks[h].height;
    CancelNone(db.unspent, db.blocks, g, m, db.spends, h, k);
    for i := 0 to |oldChain|
      invariant k == db.blocks[h].height - i
      invariant db.pool == PoolCancel(old(db.pool), oldChain[..i]) && (i == |oldChain| ==> oldChain[..i] == oldChain)
      invariant CancelledDown(old(db.unspent), db.unspent, db.blocks, g, m, db.spends, h, k)
    {
      k := k - 1;
      PoolCancelStep(old(db.pool), oldChain, i);
      CancelOldBlock(db, g, m, h, f, old(db.unspent), oldChain, i, k, keyHash);
    }
  }

  lemma AddedIsAbove(s: Store, g: Hash, h: Hash, f: nat, added: seq<Entry>)
    requires WellFormed(s, g) && h in s && f <= s[h].height
    requires UpTo(s, g, h, f) + added == UpTo(s, g, h, s[h].height)
    ensures added == EntriesAbove(s, g, h, f)
  {
    PathAt(s, g, h, f);
    SplitAt(s, g, Path(s, g, h)[f], h);
    var below := UpTo(s, g, h, f);
    assert below + added == below + EntriesAbove(s, g, h, f);
    assert (below + added)[|below|..] == added;
    assert (below + EntriesAbove(s, g, h, f))[|below|..] == EntriesAbove(s, g, h, f);
  }

  /** The first i blocks of the new branch hold the entries `added`. */
  ghost predicate AddedUp(p0: Pool, p: Pool, s: Store, g: Hash, h: Hash, f: nat,
                          newChain: seq<Block>, i: nat, added: seq<Entry>) {
    && WellFormed(s, g) && h in s && f <= s[h].height
    && newChain == Reverse(Down(s, g, h, f)) && i <= |newChain|
    && p == PoolApprove(p0, newChain[..i])
    && UpTo(s, g, h, f) + added == UpTo(s, g, h, f + i)
  }

  lemma AddOne(p0: Pool, p: Pool, s: Store, g: Hash, h: Hash, f: nat,
               newChain: seq<Block>, i: nat, added: seq<Entry>)
    requires AddedUp(p0, p, s, g, h, f, newChain, i, added) && i < |newChain|
    ensures AddedUp(p0, p - ApprovedIds(newChain[i].transactions), s, g, h, f, newChain, i + 1,
                    added + BlockEntries(newChain[i]))
  {
    DownAt(s, g, h, f, s[h].height - f - 1 - i);
    AboveStep(s, g, h, f, f + i, added);
    assert newChain[..i + 1][..i] == newChain[..i];
  }

  /** Second loop: the blocks of the new branch are added, from the fork up. */
  method AddNewChain(db: Database, ghost g: Hash, ghost h: Hash, ghost f: nat, newChain: seq<Block>, keyHash: KeyHash)
    requires WellFormed(db.blocks, g)
    requires h in db.blocks && f <= db.blocks[h].height && newChain == Reverse(Down(db.blocks, g, h, f))
    modifies db`pool, db`unspent
    ensures db.pool == PoolApprove(old(db.pool), newChain)
    ensures db.unspent == Replay(old(db.unspent), EntriesAbove(db.blocks, g, h, f), keyHash)
  {
    ghost var added: seq<Entry> := [];
    for i := 0 to |newChain|
      invariant AddedUp(old(db.pool), db.pool, db.blocks, g, h, f, newChain, i, added)
      invariant db.unspent == Replay(old(db.unspent), added, keyHash)
    {
      AddOne(old(db.pool), db.pool, db.blocks, g, h, f, newChain, i, added);
      ReplayAppend(old(db.unspent), added, BlockEntries(newChain[i]), keyHash);
      BlockAddedToPrimaryChain(db, newChain[i], keyHash);
      added := added + BlockEntries(newChain[i]);
    }
    assert newChain[..|newChain|] == newChain;
    AddedIsAbove(db.blocks, g, h, f, added);
  }

  // ----- adding a block

  datatype BlockState = CanAdd | Exists | NotExistAndPrevNotExist

  method CheckBlockState(db: Database, hash: Hash, prevhash: Hash) returns (state: BlockState)
    ensures state.Exists? <==> hash in db.blocks
    ensures state.CanAdd? <==> hash !in db.blocks && prevhash in db.blocks
  {
    if hash in db.blocks {
      return Exists;
    }
    if prevhash in db.blocks {
      return CanAdd;
    }
    return NotExistAndPrevNotExist;
  }

  lemma CoreQueryable(db: Database, g: Hash, tip: Hash)
    requires Core(StateOf(db), g) && tip in db.blocks
    ensures Queryable(db, g, db.topHash, tip)
  {
    assert Sound(PathEntries(db.blocks, g, tip));
  }

  /** NodeBlockchain.AddBlock: a new block whose parent is stored is checked, then stored. */
  method CheckAndStore(db: Database, ghost g: Hash, crypto: Crypto, block: Block) returns (state: Blockchain.AddState)
    requires Core(StateOf(db), g) && Shaped(db.blocks, g, block)
    modifies db`blocks, db`topHash, db`chain
    ensures state == Outcome(crypto, old(StateOf(db)), g, block)
    ensures !Blockchain.Added(state) ==> StateOf(db) == old(StateOf(db))
    ensures Blockchain.Added(state) ==>
              && db.blocks == old(db.blocks)[block.hash := block]
              && db.topHash == if state.AddedToParallel? then old(db.topHash) else block.hash
    ensures Blockchain.ChainOk(db, g) && Blockchain.TopIsHighest(db.blocks, db.topHash)
  {
    var blockstate := CheckBlockState(db, block.hash, block.prevBlockHash);
    if blockstate.Exists? {
      return Blockchain.NotAddedExists;
    }
    if blockstate.NotExistAndPrevNotExist? {
      return Blockchain.NotAddedNoPrev;
    }
    CoreQueryable(db, g, block.prevBlockHash);
    var v := VerifyBlock(db, g, db.topHash, crypto, block);
    if v.Crashed? {
      return Blockchain.Panic;
    }
    if !v.Accepted? {
      return Blockchain.Error;
    }
    state := Blockchain.AddBlock(db, g, block);
  }

  /** The branches that a new top makes change places. */
  method SwitchBranches(db: Database, ghost g: Hash, ghost st: State, sideBranchHash: Hash, crypto: Crypto)
    requires Switching(db, g, db.topHash, st.top) && sideBranchHash == st.top
    requires db.blocks[st.top].height >= 1 && db.blocks[db.topHash].height >= 1
    requires !Ancestor(db.blocks, g, st.top, db.topHash) && db.unspent == st.unspent && db.pool == st.pool
    modifies db`pool, db`unspent
    ensures Switched(crypto, st, g, StateOf(db))
  {
    var newChain, oldChain := Blockchain.GetBranchesReplacement(db, g, sideBranchHash, db.topHash);
    ghost var f := ForkHeight(db.blocks, g, st.top, db.topHash);
    if newChain.Some? && oldChain.Some? {
      CancelOldChain(db, g, db.topHash, st.top, f, oldChain.value, crypto.keyHash);
      AddNewChain(db, g, db.topHash, f, newChain.value, crypto.keyHash);
    }
  }

  /** A switch starts from two branches above the genesis block, neither part of the other. */
  lemma SwitchStarts(st: State, g: Hash, b: Block)
    requires Core(st, g) && Blockchain.Fits(st.blocks, g, b)
    requires Blockchain.AddOutcome(st.blocks, st.top, b).AddedToParallelTop?
    ensures var s := st.blocks[b.hash := b];
            && WellFormed(s, g) && s[st.top].height >= 1 && s[b.hash].height >= 1
            && !Ancestor(s, g, st.top, b.hash)
  {
    Blockchain.SwitchIsOneLonger(st.blocks, g, st.top, b);
    var s := st.blocks[b.hash := b];
    if Ancestor(s, g, st.top, b.hash) {
      ForkOnChain(s, g, st.top, b.hash);
      CommonSwap(s, g, st.top, b.hash);
    }
  }

  lemma CommonSwap(s: Store, g: Hash, a: Hash, b: Hash)
    requires WellFormed(s, g) && a in s && b in s
    ensures ForkHeight(s, g, a, b) == ForkHeight(s, g, b, a)
  {
    var p, q := Path(s, g, a), Path(s, g, b);
    CommonUnique(q, p, Common(p, q));
  }

  lemma StoredSwitching(db: Database, crypto: Crypto, st: State, g: Hash, b: Block)
    requires Core(st, g) && Blockchain.Fits(st.blocks, g, b) && Blockchain.Added(Outcome(crypto, st, g, b))
    requires Blockchain.ChainOk(db, g) && db.blocks == st.blocks[b.hash := b]
    requires db.txBlocks == AddHashes(st.txBlocks, BlockEntries(b))
    requires db.spends == AddSpends(st.spends, BlockEntries(b))
    ensures Switching(db, g, db.topHash, st.top)
  {
    StoredTree(st, g, b);
    assert Sound(PathEntries(st.blocks, g, st.top));
  }

  /** The part of Node.AddBlock after a block has become the top of another branch. */
  method FollowTop(db: Database, ghost g: Hash, ghost st: State, crypto: Crypto, block: Block, curLastHash: Hash)
    requires Core(st, g) && Blockchain.Fits(st.blocks, g, block) && curLastHash == st.top
    requires Outcome(crypto, st, g, block).AddedToParallelTop?
    requires Blockchain.ChainOk(db, g) && db.blocks == st.blocks[block.hash := block] && db.topHash == block.hash
    requires db.txBlocks == AddHashes(st.txBlocks, BlockEntries(block))
    requires db.spends == AddSpends(st.spends, BlockEntries(block))
    requires db.unspent == st.unspent && db.pool == st.pool
    modifies db`pool, db`unspent
    ensures WellFormed(db.blocks, g) && Switched(crypto, st, g, StateOf(db))
  {
    StoredSwitching(db, crypto, st, g, block);
    SwitchStarts(st, g, block);
    SwitchBranches(db, g, st, curLastHash, crypto);
  }

  /** The part of Node.AddBlock after a block was stored. */
  method IndexStored(db: Database, ghost g: Hash, ghost st: State, crypto: Crypto, block: Block,
                     addstate: Blockchain.AddState, curLastHash: Hash)
    requires Core(st, g) && Blockchain.Fits(st.blocks, g, block) && curLastHash == st.top
    requires addstate == Outcome(crypto, st, g, block) && Blockchain.Added(addstate)
    requires Blockchain.ChainOk(db, g) && db.blocks == st.blocks[block.hash := block]
    requires db.topHash == if addstate.AddedToParallel? then st.top else block.hash
    requires db.txBlocks == st.txBlocks && db.spends == st.spends && db.unspent == st.unspent && db.pool == st.pool
    modifies db`txBlocks, db`spends, db`unspent, db`pool
    ensures Step(crypto, g, st, block, StateOf(db))
  {
    BlockAdded(db, block, addstate.AddedToTop?, crypto.keyHash);
    if addstate.AddedToParallelTop? {
      FollowTop(db, g, st, crypto, block, curLastHash);
    }
  }

  /** Node.AddBlock: does exactly one step of the node's state machine. */
  method AddBlock(db: Database, ghost g: Hash, crypto: Crypto, block: Block) returns (addstate: Blockchain.AddState)
    requires Core(StateOf(db), g) && Shaped(db.blocks, g, block)
    modifies db`blocks, db`topHash, db`chain, db`txBlocks, db`spends, db`unspent, db`pool
    ensures addstate == Outcome(crypto, old(StateOf(db)), g, block)
    ensures addstate.NotAddedExists? <==> block.hash in old(db.blocks)
    ensures addstate.NotAddedNoPrev? <==> block.hash !in old(db.blocks) && block.prevBlockHash !in old(db.blocks)
    ensures Step(crypto, g, old(StateOf(db)), block, StateOf(db))
  {
    ghost var st := StateOf(db);
    var curLastHash := db.topHash;
    addstate := CheckAndStore(db, g, crypto, block);
    if Blockchain.Added(addstate) {
      IndexStored(db, g, st, crypto, block, addstate, curLastHash);
    }
  }

  /** addFirstBlock: an empty database takes the genesis block. */
  method AddFirstBlock(db: Database, crypto: Crypto, genesis: Block)
    requires GenesisOk(genesis)
    requires db.blocks == map[] && db.chain == map[] && db.txBlocks == map[] && db.spends == map[]
    requires db.unspent == map[] && db.pool == map[]
    modifies db
    ensures Initial(crypto, genesis, StateOf(db)) && db.firstHash == genesis.hash
  {
    db.blocks := db.blocks[genesis.hash := genesis];
    db.topHash := genesis.hash;
    db.firstHash := genesis.hash;
    var err := db.AddToChain(genesis.hash, []);
    BlockAdded(db, genesis, true, crypto.keyHash);
    assert db.pool == map[];
  }
}
