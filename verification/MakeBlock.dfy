/** Making a block from start to end (TryToMakeBlock in node/nodemanager/node.go): a block is
    prepared from the pool, completed, and given to the node itself. */
module MakeBlock {
  import opened Structures
  import opened Storage
  import opened Tree
  import opened Ledger
  import opened ChainLedger
  import opened Pending
  import opened Verification
  import opened ConflictDetection
  import opened Growth
  import opened NodeState
  import opened Events
  import opened Prepare
  import opened NodeManager
  import Blockchain

  datatype MakeResult = MakeError | MakePanic | TooFew | BlockMade(hash: Hash)

  /** How TryToMakeBlock answers once the block was given to the node. */
  function AnswerTo(state: Blockchain.AddState, hash: Hash): (r: MakeResult)
    ensures r.MakeError? <==> state == Blockchain.Error
    ensures r.MakePanic? <==> state == Blockchain.Panic
    ensures state != Blockchain.Error && state != Blockchain.Panic ==> r == BlockMade(hash)
  {
    match state
    case Error => MakeError
    case Panic => MakePanic
    case _ => BlockMade(hash)
  }

  /** The pool fits the primary branch: none of its payments is there, a pooled id that is there
      stands for the same transaction, and the coinbase has an id of its own. */
  ghost predicate FreshPool(st: State, g: Hash, cbId: Bytes)
    requires WellFormed(st.blocks, g) && st.top in st.blocks
  {
    var es := PathEntries(st.blocks, g, st.top);
    && PoolSound(st.pool) && ClearOf(st.pool, st.blocks, g, st.top)
    && (forall e | e in es && e.tx.id in st.pool :: st.pool[e.tx.id] == e.tx)
    && cbId != [] && cbId !in st.pool && cbId !in Ids(es)
  }

  lemma PoolIsNew(st: State, g: Hash, cbId: Bytes)
    requires WellFormed(st.blocks, g) && st.top in st.blocks && FreshPool(st, g, cbId)
    ensures st.pool.Keys !! Ids(PathEntries(st.blocks, g, st.top))
  {
    var es := PathEntries(st.blocks, g, st.top);
    forall e | e in es
      ensures e.tx.id !in st.pool
    {
      EntryOnPath(st.blocks, g, st.top, e);
      assert !e.tx.IsCoinbase() ==> e.tx.id in ApprovedIds(st.blocks[e.block].transactions);
    }
    forall t | t in Ids(es)
      ensures t !in st.pool
    {
      HasEntry(es, t);
    }
  }

  /** The hash that the proof of work returns for a block on the top has the length of all
      hashes and is not zero. */
  ghost predicate HashShape(crypto: Crypto, toBytes: nat -> Hash, g: Hash, top: Hash) {
    forall b: Block, nonce: nat {:trigger RunsTo(crypto, b, nonce)} |
      b.prevBlockHash == top && RunsTo(crypto, b, nonce) ::
      var hash := toBytes(PowNumber(crypto, b, LastTried(nonce)));
      |hash| == |g| && hash != Zeros(|g|)
  }

  /** The kept transactions of a list from the pool have different ids. */
  lemma KeptOwnIds(pool: Pool, txs: seq<Transaction>)
    requires FromPool(pool, txs)
    ensures OwnIds(Part(txs, true)) && forall tx | tx in Part(txs, true) :: tx.id in pool
  {
    var ps := Positions(txs, true, |txs|);
    SplitInOrder(txs, true, |txs|);
    assert txs[..|txs|] == txs;
    forall i, j | 0 <= i < j < |ps|
      ensures Part(txs, true)[i].id != Part(txs, true)[j].id
    {
      assert txs[ps[i]] in txs && txs[ps[j]] in txs && txs[ps[i]] != txs[ps[j]];
    }
  }

  lemma MadeShaped(st: State, g: Hash, txs: seq<Transaction>, cbId: Bytes, minter: Bytes, now: int, b: Block)
    requires WellFormed(st.blocks, g) && st.top in st.blocks && [] !in st.pool && cbId != []
    requires Made(st.blocks, st.top, txs, cbId, minter, now, b.(hash := [], nonce := 0))
    requires forall tx | tx in txs :: tx.id in st.pool
    requires |b.hash| == |g| && b.hash != Zeros(|g|)
    ensures Shaped(st.blocks, g, b)
  {
    assert b.transactions == txs + [b.transactions[|txs|]];
    BlockIds(b, []);
  }

  lemma MadeNew(st: State, g: Hash, txs: seq<Transaction>, cbId: Bytes, minter: Bytes, now: int, b: Block)
    requires WellFormed(st.blocks, g) && st.top in st.blocks && FreshPool(st, g, cbId)
    requires Made(st.blocks, st.top, txs, cbId, minter, now, b.(hash := [], nonce := 0))
    requires OwnIds(txs) && forall tx | tx in txs :: tx.id in st.pool
    ensures NewIds(PathEntries(st.blocks, g, st.top), BlockEntries(b))
  {
    assert b.transactions == txs + [b.transactions[|txs|]];
    PoolIsNew(st, g, cbId);
    OwnIdsAreNew(PathEntries(st.blocks, g, st.top), b);
  }

  /** A block made of pooled transactions is proper, once it has a hash of the right shape, when
      the pool fits the branch. */
  lemma MadeProper(st: State, g: Hash, txs: seq<Transaction>, cbId: Bytes, minter: Bytes, now: int, b: Block)
    requires WellFormed(st.blocks, g) && st.top in st.blocks && FreshPool(st, g, cbId)
    requires Sound(PathEntries(st.blocks, g, st.top))
    requires Made(st.blocks, st.top, txs, cbId, minter, now, b.(hash := [], nonce := 0))
    requires OwnIds(txs) && forall tx | tx in txs :: tx.id in st.pool
    requires |b.hash| == |g| && b.hash != Zeros(|g|)
    ensures Proper(st.blocks, g, b)
  {
    MadeShaped(st, g, txs, cbId, minter, now, b);
    MadeNew(st, g, txs, cbId, minter, now, b);
    NewAreProper(PathEntries(st.blocks, g, st.top), b);
  }

  /** What the node offers for a block: the transactions that pass, without conflicts. */
  ghost function Good(crypto: Crypto, st: State, g: Hash, list: seq<Transaction>): seq<Transaction>
    requires WellFormed(st.blocks, g) && st.top in st.blocks
  {
    Part(Passed(crypto, st.blocks, g, st.spends, st.top, list), true)
  }

  /** Enough of the listed transactions pass, and checking none of them crashes. */
  ghost predicate Enough(crypto: Crypto, st: State, g: Hash, list: seq<Transaction>)
    requires WellFormed(st.blocks, g) && st.top in st.blocks
  {
    && !SomeCrashes(crypto, st.blocks, g, st.spends, st.top, list)
    && |Good(crypto, st, g, list)| >= MinTransactions(st.blocks[st.top].height + 1)
  }

  /** The pool has been offered for a block: as many of its transactions as a block may hold,
      oldest first, were looked at. */
  ghost predicate Offered(crypto: Crypto, g: Hash, st: State, list: seq<Transaction>, mid: State)
    requires WellFormed(st.blocks, g) && st.top in st.blocks
  {
    && FromPool(st.pool, list) && ByTime(list) && |list| == AtMost(MAX_TRANSACTIONS, |st.pool|)
    && EventStep(crypto, g, st, BlockPrepared(list), mid)
  }

  /** The block was made of what the pool offers, and completed. */
  ghost predicate OwnBlock(crypto: Crypto, g: Hash, st: State, list: seq<Transaction>, cbId: Bytes, minter: Bytes,
                           now: int, b: Block)
    requires WellFormed(st.blocks, g) && st.top in st.blocks
  {
    && Made(st.blocks, st.top, Good(crypto, st, g, list), cbId, minter, now, b.(hash := [], nonce := 0))
    && Shaped(st.blocks, g, b)
    && (FreshPool(st, g, cbId) ==> Proper(st.blocks, g, b))
    && (CleanPool(st.pool) && Enough(crypto, st, g, list) && b.nonce < MAX_NONCE ==>
          && Good(crypto, st, g, list) == Passed(crypto, st.blocks, g, st.spends, st.top, list)
          && BlockAccepted(crypto, st.blocks, g, st.top, st.spends, b))
  }

  /** The first half: preparing the block. */
  method PrepareOwn(db: Database, ghost g: Hash, crypto: Crypto, minter: Bytes, cbId: Bytes, cbData: Bytes, now: int)
    returns (maker: NodeBlockMaker, prepres: BlockPrepare, ghost list: seq<Transaction>)
    requires Core(StateOf(db), g) && KeyedById(db.pool)
    modifies db`pool
    ensures fresh(maker) && maker.db == db
    ensures prepres.NoTransactions? <==> |old(db.pool)| < MinTransactions(db.blocks[db.topHash].height + 1)
    ensures prepres.NoTransactions? ==> StateOf(db) == old(StateOf(db))
    ensures !prepres.NoTransactions? ==> Offered(crypto, g, old(StateOf(db)), list, StateOf(db))
    ensures !prepres.NoTransactions? ==> (prepres.Done? <==> Enough(crypto, old(StateOf(db)), g, list))
    ensures prepres.Done? ==>
              && maker.preparedBlock.Some?
              && Made(db.blocks, db.topHash, Good(crypto, old(StateOf(db)), g, list), cbId, minter, now,
                      maker.preparedBlock.value)
    ensures !prepres.NoTransactions? ==>
              (prepres.PreparePanic? <==> SomeCrashes(crypto, db.blocks, g, db.spends, db.topHash, list))
  {
    CoreQueryable(db, g, db.topHash);
    maker := new NodeBlockMaker(db, minter);
    ghost var st := StateOf(db);
    prepres, list := maker.PrepareNewBlock(g, crypto, cbId, cbData, now);
    if !prepres.NoTransactions? {
      PreparedEnds(crypto, st, g, list, cbId, minter, now, AsVerdict(prepres), None, maker.preparedBlock);
    }
  }

  lemma PreparedEnds(crypto: Crypto, st: State, g: Hash, list: seq<Transaction>, cbId: Bytes, minter: Bytes, now: int,
                     outcome: Verdict, before: Option<Block>, after: Option<Block>)
    requires WellFormed(st.blocks, g) && st.top in st.blocks
    requires Prepared(crypto, st.blocks, g, st.spends, st.top, list, cbId, minter, now, outcome, before, after)
    ensures outcome.Accepted? <==> Enough(crypto, st, g, list)
    ensures outcome.Accepted? ==>
              after.Some? && Made(st.blocks, st.top, Good(crypto, st, g, list), cbId, minter, now, after.value)
  {
  }

  /** Completing a block of a clean pool makes one that the node's own checks accept. */
  method CompleteOwn(db: Database, ghost g: Hash, crypto: Crypto, maker: NodeBlockMaker, toBytes: nat -> Hash,
                     ghost st: State, ghost list: seq<Transaction>, ghost cbId: Bytes, ghost minter: Bytes,
                     ghost now: int)
    returns (block: Block)
    requires maker.db == db && Core(st, g) && StateOf(db) == st.(pool := db.pool)
    requires PoolSound(st.pool) && cbId != []
    requires HashShape(crypto, toBytes, g, st.top) && FromPool(st.pool, list) && |list| <= MAX_TRANSACTIONS
    requires maker.preparedBlock.Some?
    requires Made(st.blocks, st.top, Good(crypto, st, g, list), cbId, minter, now, maker.preparedBlock.value)
    modifies maker`preparedBlock
    ensures OwnBlock(crypto, g, st, list, cbId, minter, now, block)
  {
    ghost var b, passed := maker.preparedBlock.value, Passed(crypto, st.blocks, g, st.spends, st.top, list);
    PassedFromPool(crypto, st.blocks, g, st.spends, st.top, st.pool, list);
    KeptOwnIds(st.pool, passed);
    if CleanPool(st.pool) && Enough(crypto, st, g, list) {
      PassedClean(crypto, st.blocks, g, st.spends, st.top, st.pool, list);
      MadeIsReady(crypto, st.blocks, g, st.spends, st.top, passed, cbId, minter, now, b);
    }
    var completed := maker.CompleteBlock(g, crypto, toBytes);
    block := completed.value;
    assert block.(hash := [], nonce := 0) == b;
    MadeShaped(st, g, Good(crypto, st, g, list), cbId, minter, now, block);
    if FreshPool(st, g, cbId) {
      assert Sound(PathEntries(st.blocks, g, st.top));
      MadeProper(st, g, Good(crypto, st, g, list), cbId, minter, now, block);
    }
  }

  /** The second half: the completed block is given to the node. */
  method GiveOwn(db: Database, ghost g: Hash, crypto: Crypto, block: Block, ghost st: State,
                 ghost list: seq<Transaction>, ghost cbId: Bytes, ghost minter: Bytes, ghost now: int)
    returns (res: MakeResult)
    requires Core(st, g) && StateOf(db) == st.(pool := db.pool)
    requires OwnBlock(crypto, g, st, list, cbId, minter, now, block) && Enough(crypto, st, g, list)
    modifies db`blocks, db`topHash, db`chain, db`txBlocks, db`spends, db`unspent, db`pool
    ensures EventStep(crypto, g, old(StateOf(db)), BlockGiven(block), StateOf(db))
    ensures res == AnswerTo(Outcome(crypto, old(StateOf(db)), g, block), block.hash)
    ensures CleanPool(st.pool) && block.nonce < MAX_NONCE && block.hash !in st.blocks ==>
              res == BlockMade(block.hash) && db.topHash == block.hash
  {
    var state := AddBlock(db, g, crypto, block);
    res := AnswerTo(state, block.hash);
  }

  /** What a try to make a block does: nothing while the pool is too small; otherwise the pool
      is offered, and when enough of it passes, a block of exactly that is made and given to
      the node. */
  ghost predicate Tried(crypto: Crypto, g: Hash, st: State, list: seq<Transaction>, mid: State, made: Option<Block>,
                        cbId: Bytes, minter: Bytes, now: int, st': State, res: MakeResult)
    requires WellFormed(st.blocks, g) && st.top in st.blocks
  {
    if |st.pool| < MinTransactions(st.blocks[st.top].height + 1) then res.TooFew? && st' == st && made.None? else
      && Offered(crypto, g, st, list, mid)
      && (made.Some? <==> Enough(crypto, st, g, list))
      && match made {
           case None =>
             && st' == mid
             && res == if SomeCrashes(crypto, st.blocks, g, st.spends, st.top, list) then MakePanic else MakeError
           case Some(b) =>
             && OwnBlock(crypto, g, st, list, cbId, minter, now, b)
             && EventStep(crypto, g, mid, BlockGiven(b), st')
             && res == AnswerTo(Outcome(crypto, mid, g, b), b.hash)
         }
  }

  /** The limits of a try in numbers: nothing happens while fewer transactions are pooled than
      the next height, or than 1000 from height 1000 on; and from a clean pool a block is made
      exactly when that many of the chosen ones pass. */
  lemma TryLimits(crypto: Crypto, g: Hash, st: State, list: seq<Transaction>, mid: State, made: Option<Block>,
                  cbId: Bytes, minter: Bytes, now: int, st': State, res: MakeResult)
    requires WellFormed(st.blocks, g) && st.top in st.blocks && CleanPool(st.pool)
    requires Tried(crypto, g, st, list, mid, made, cbId, minter, now, st', res)
    ensures res.TooFew? <==>
              var pooled, height := |st.pool|, st.blocks[st.top].height;
              pooled < 1 || (pooled <= height && pooled < 1000)
    ensures !res.TooFew? && !SomeCrashes(crypto, st.blocks, g, st.spends, st.top, list) ==>
              var passed, height := |Passed(crypto, st.blocks, g, st.spends, st.top, list)|, st.blocks[st.top].height;
              made.Some? <==> passed >= 1 && (passed > height || passed >= 1000)
  {
    if |st.pool| >= MinTransactions(st.blocks[st.top].height + 1) {
      PassedClean(crypto, st.blocks, g, st.spends, st.top, st.pool, list);
    }
  }

  /** TryToMakeBlock, with a valid minter address.  From a clean pool the block becomes the new
      top, unless the proof of work runs out of nonces or the hash is known already. */
  method TryToMakeBlock(db: Database, ghost g: Hash, crypto: Crypto, minter: Bytes, cbId: Bytes, cbData: Bytes,
                        now: int, toBytes: nat -> Hash)
    returns (res: MakeResult, ghost list: seq<Transaction>, ghost mid: State, made: Option<Block>)
    requires Core(StateOf(db), g) && PoolSound(db.pool) && cbId != []
    requires HashShape(crypto, toBytes, g, db.topHash)
    modifies db`blocks, db`topHash, db`chain, db`txBlocks, db`spends, db`unspent, db`pool
    ensures Tried(crypto, g, old(StateOf(db)), list, mid, made, cbId, minter, now, StateOf(db), res)
    ensures CleanPool(old(db.pool)) && made.Some? && made.value.nonce < MAX_NONCE
            && made.value.hash !in old(db.blocks) ==>
              res == BlockMade(made.value.hash) && db.topHash == made.value.hash
  {
    ghost var st := StateOf(db);
    var maker, prepres;
    maker, prepres, list := PrepareOwn(db, g, crypto, minter, cbId, cbData, now);
    mid := StateOf(db);
    made := None;
    if prepres.NoTransactions? {
      return TooFew, list, mid, made;
    }
    if prepres.PrepareError? {
      return MakeError, list, mid, made;
    }
    if prepres.PreparePanic? {
      return MakePanic, list, mid, made;
    }
    var block := CompleteOwn(db, g, crypto, maker, toBytes, st, list, cbId, minter, now);
    made := Some(block);
    res := GiveOwn(db, g, crypto, block, st, list, cbId, minter, now);
  }
}
