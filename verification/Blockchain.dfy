/** Specification of the queries about branches (node/blockchain/manager.go). */
module Branches {
  import opened Structures
  import opened Storage
  import opened Tree
  import opened LinkIndex

  /** The path of a stored block can be held by the link index. */
  lemma GoodPathOf(s: Store, g: Hash, h: Hash)
    requires WellFormed(s, g) && h in s
    ensures GoodPath(Path(s, g, h))
  {
    var p := Path(s, g, h);
    forall i | 0 <= i < |p|
      ensures HashAt(p, i)
    {
      PathAt(s, g, h, i);
      assert NodeOk(s, g, p[i]);
    }
    forall i, j | 0 <= i < j < |p|
      ensures Differ(p[i], p[j])
    {
      PathAt(s, g, h, i);
      PathAt(s, g, h, j);
    }
  }

  /** The link index holds exactly the path to `m`. */
  ghost predicate Indexed(s: Store, g: Hash, c: Links, m: Hash) {
    && WellFormed(s, g) && m in s
    && Indexes(c, Path(s, g, m))
  }

  lemma InIndex(s: Store, g: Hash, c: Links, m: Hash, h: Hash)
    requires Indexed(s, g, c, m)
    ensures Uniform(c, |g|)
    ensures h in c <==> Ancestor(s, g, h, m)
  {
    IndexUniform(c, Path(s, g, m));
    AncestorOnPath(s, g, h, m);
    if Ancestor(s, g, h, m) {
      At(c, Path(s, g, m), s[h].height);
    }
  }

  /** Blocks from `h` down to, but not including, height `k`. */
  ghost function Down(s: Store, g: Hash, h: Hash, k: int): (r: seq<Block>)
    requires WellFormed(s, g) && h in s && -1 <= k <= s[h].height
    ensures |r| == s[h].height - k
    decreases s[h].height - k
  {
    if k == s[h].height then [] else
      PathAt(s, g, h, k + 1);
      Down(s, g, h, k + 1) + [s[Path(s, g, h)[k + 1]]]
  }

  /** `c` lies between `b` and `tip` on the branch of `tip`: what walking parent
      links from `tip` down to `b` would find. */
  ghost predicate Between(s: Store, g: Hash, c: Hash, b: Hash, tip: Hash)
    requires WellFormed(s, g) && c in s && b in s && tip in s
  {
    Ancestor(s, g, c, tip) && Ancestor(s, g, b, c)
  }

  /** `x` is met on the walk from `tip` down to the indexed chain. */
  ghost predicate Walked(s: Store, g: Hash, m: Hash, x: Hash, tip: Hash)
    requires WellFormed(s, g) && m in s && tip in s
  {
    !Ancestor(s, g, tip, m) && Ancestor(s, g, x, tip) && ForkHeight(s, g, tip, m) <= s[x].height
  }

  /** The answer of CheckBlockIsInRange; None where it fails to load a block. */
  ghost function RangeAnswer(s: Store, g: Hash, m: Hash, c: Hash, b: Hash, tip: Hash): Option<bool>
    requires WellFormed(s, g) && m in s && tip in s
  {
    if Walked(s, g, m, c, tip) && !(Walked(s, g, m, b, tip) && s[c].height < s[b].height) then Some(true)
    else if Walked(s, g, m, b, tip) then Some(false)
    else if c in s && b in s then
      Some(s[b].height <= s[c].height <= ForkHeight(s, g, tip, m))
    else None
  }

  /** A block the shortcut by height mistakes for one on the branch: it is not on
      the branch of `tip`, yet its height lies between `b` and the point where
      that branch leaves the indexed chain. */
  ghost predicate Stray(s: Store, g: Hash, m: Hash, c: Hash, b: Hash, tip: Hash)
    requires WellFormed(s, g) && m in s && c in s && b in s && tip in s
  {
    var f := ForkHeight(s, g, tip, m);
    && !Ancestor(s, g, c, tip)
    && s[b].height <= s[c].height <= f
    && (Ancestor(s, g, tip, m) || s[b].height < f)
  }

  lemma BetweenByHeight(s: Store, g: Hash, c: Hash, b: Hash, tip: Hash)
    requires WellFormed(s, g) && c in s && tip in s && Ancestor(s, g, b, tip)
    ensures Between(s, g, c, b, tip) <==> Ancestor(s, g, c, tip) && s[b].height <= s[c].height
  {
    if Ancestor(s, g, c, tip) {
      AncestorTrans(s, g, b, c, tip);
    }
  }

  /** CheckBlockIsInRange agrees with the walk exactly when the block is no stray. */
  lemma RangeExact(s: Store, g: Hash, m: Hash, c: Hash, b: Hash, tip: Hash)
    requires WellFormed(s, g) && m in s && c in s && tip in s && Ancestor(s, g, b, tip)
    ensures RangeAnswer(s, g, m, c, b, tip) == Some(Between(s, g, c, b, tip))
            <==> !Stray(s, g, m, c, b, tip)
  {
    BetweenByHeight(s, g, c, b, tip);
    if Ancestor(s, g, tip, m) {
      ForkOnChain(s, g, tip, m);
    }
  }

  /** In particular a block of the indexed chain is never a stray. */
  lemma ChainBlockIsNoStray(s: Store, g: Hash, m: Hash, c: Hash, b: Hash, tip: Hash)
    requires WellFormed(s, g) && m in s && b in s && tip in s && Ancestor(s, g, c, m)
    ensures !Stray(s, g, m, c, b, tip)
  {
    var p, q, f := Path(s, g, tip), Path(s, g, m), ForkHeight(s, g, tip, m);
    if s[c].height <= f {
      assert p[..f + 1][s[c].height] == q[..f + 1][s[c].height];
    }
  }
}

/** The blockchain manager (node/blockchain/manager.go and iterator.go). */
module Blockchain {
  import opened Structures
  import opened Storage
  import opened Tree
  import opened LinkIndex
  import opened Branches

  /** How adding a block ends; Panic stands for an index out of range in the checks. */
  datatype AddState = Error | Panic | AddedToTop | AddedToParallelTop | AddedToParallel
    | NotAddedNoPrev | NotAddedExists

  datatype BlockShort = BlockShort(prevBlockHash: Hash, hash: Hash, height: int)

  /** The stored blocks form a tree under `g`, the top is stored, and the link
      index holds the path to `m`; between the moment the top is moved and the
      moment the index has followed, `m` is the previous top. */
  ghost predicate Indexing(db: Database, g: Hash, m: Hash)
    reads db`blocks, db`chain, db`topHash
  {
    Indexed(db.blocks, g, db.chain, m) && db.topHash in db.blocks
  }

  ghost predicate ChainOk(db: Database, g: Hash)
    reads db`blocks, db`chain, db`topHash
  {
    Indexing(db, g, db.topHash)
  }

  class BlockchainIterator {
    var currentHash: Hash

    constructor (startHash: Hash)
      ensures currentHash == startHash
    {
      currentHash := startHash;
    }

    method Next(db: Database) returns (block: Option<Block>)
      modifies this
      ensures old(currentHash) in db.blocks ==>
                block == Some(db.blocks[old(currentHash)]) && currentHash == block.value.prevBlockHash
      ensures old(currentHash) !in db.blocks ==> block == None && currentHash == old(currentHash)
    {
      if currentHash !in db.blocks {
        return None;
      }
      block := Some(db.blocks[currentHash]);
      currentHash := block.value.prevBlockHash;
    }
  }

  /** What stepping to the parent does to a walk that has reached height k. */
  lemma WalkAt(s: Store, g: Hash, h: Hash, k: nat)
    requires WellFormed(s, g) && h in s && k <= s[h].height
    ensures var p := Path(s, g, h);
            && p[k] in s && s[p[k]].hash == p[k] && s[p[k]].height == k
            && (k == 0 ==> s[p[k]].prevBlockHash == [])
            && (k > 0 ==> s[p[k]].prevBlockHash == p[k - 1] && p[k - 1] != [])
  {
    var p := Path(s, g, h);
    PathAt(s, g, h, k);
    assert NodeOk(s, g, p[k]);
    if k > 0 {
      PathParent(s, g, h, k);
      PathAt(s, g, h, k - 1);
      assert NodeOk(s, g, p[k - 1]);
    } else {
      assert NodeOk(s, g, g);
    }
  }

  /** Which blocks of a walk from `h` the indexed chain holds. */
  lemma WalkInIndex(s: Store, g: Hash, c: Links, m: Hash, h: Hash, k: nat)
    requires Indexed(s, g, c, m) && h in s && k <= s[h].height
    ensures Uniform(c, |Path(s, g, h)[k]|) && Path(s, g, h)[k] != []
    ensures Path(s, g, h)[k] in c <==> k <= ForkHeight(s, g, h, m)
  {
    var p := Path(s, g, h);
    PathAt(s, g, h, k);
    assert NodeOk(s, g, p[k]);
    InIndex(s, g, c, m, p[k]);
    ForkAncestor(s, g, h, m, p[k]);
  }

  lemma WalkStep(s: Store, g: Hash, h: Hash, k: nat)
    requires WellFormed(s, g) && h in s && k <= s[h].height
    ensures var p := Path(s, g, h);
            && p[k] in s && s[p[k]].hash == p[k] && s[p[k]].height == k
            && (k == 0 ==> s[p[k]].prevBlockHash == [])
            && (k > 0 ==> s[p[k]].prevBlockHash == p[k - 1] && p[k - 1] != [])
            && Down(s, g, h, k - 1) == Down(s, g, h, k) + [s[p[k]]]
  {
    WalkAt(s, g, h, k);
  }

  /** Walks from `h` down to height `stop`, as the first loops of GetSideBranch do. */
  method DownToHeight(db: Database, ghost g: Hash, h: Hash, stop: int)
    returns (blocks: seq<Block>, last: Block)
    requires WellFormed(db.blocks, g) && h in db.blocks && 0 <= stop < db.blocks[h].height
    ensures blocks == Down(db.blocks, g, h, stop)
    ensures last.hash == Path(db.blocks, g, h)[stop] && last.hash in db.blocks && last == db.blocks[last.hash]
  {
    var bci := new BlockchainIterator(h);
    blocks := [];
    ghost var k := db.blocks[h].height;
    while true
      invariant stop <= k <= db.blocks[h].height
      invariant bci.currentHash == Path(db.blocks, g, h)[k]
      invariant blocks == Down(db.blocks, g, h, k)
      decreases k
    {
      WalkStep(db.blocks, g, h, k);
      var block := bci.Next(db);
      if block.value.height == stop {
        last := block.value;
        break;
      }
      blocks := blocks + [block.value];
      k := k - 1;
    }
  }

  lemma MeetAtFork(s: Store, g: Hash, a: Hash, b: Hash, k: nat)
    requires WellFormed(s, g) && a in s && b in s
    requires ForkHeight(s, g, a, b) <= k <= s[a].height && k <= s[b].height
    ensures Path(s, g, a)[k] == Path(s, g, b)[k] <==> k == ForkHeight(s, g, a, b)
  {
    PathsMeet(s, g, a, b, k);
  }

  /** Walks down both branches from height `start` until they meet: the last loop
      of GetSideBranch, before the main branch is reversed. */
  method DownToMeeting(db: Database, ghost g: Hash, ghost a: Hash, ghost b: Hash, ghost start: nat,
                       side: Hash, top: Hash, side0: seq<Block>, main0: seq<Block>)
    returns (err: bool, sideBlocks: seq<Block>, mainBlocks: seq<Block>, base: Option<Block>)
    requires WellFormed(db.blocks, g) && a in db.blocks && b in db.blocks
    requires ForkHeight(db.blocks, g, a, b) <= start <= db.blocks[a].height && start <= db.blocks[b].height
    requires side == Path(db.blocks, g, a)[start] && top == Path(db.blocks, g, b)[start]
    requires side0 == Down(db.blocks, g, a, start) && main0 == Down(db.blocks, g, b, start)
    ensures !err
    ensures var f := ForkHeight(db.blocks, g, a, b);
            && sideBlocks == Down(db.blocks, g, a, f) && mainBlocks == Down(db.blocks, g, b, f)
            && Path(db.blocks, g, a)[f] in db.blocks
            && base == Some(db.blocks[Path(db.blocks, g, a)[f]])
  {
    sideBlocks, mainBlocks := side0, main0;
    var bcis := new BlockchainIterator(side);
    var bcit := new BlockchainIterator(top);
    ghost var k: int := start;
    while true
      invariant ForkHeight(db.blocks, g, a, b) <= k <= db.blocks[a].height && k <= db.blocks[b].height
      invariant bcis.currentHash == Path(db.blocks, g, a)[k] && bcit.currentHash == Path(db.blocks, g, b)[k]
      invariant sideBlocks == Down(db.blocks, g, a, k) && mainBlocks == Down(db.blocks, g, b, k)
      decreases k
    {
      WalkStep(db.blocks, g, a, k);
      WalkStep(db.blocks, g, b, k);
      MeetAtFork(db.blocks, g, a, b, k);
      var sb := bcis.Next(db);
      var tb := bcit.Next(db);
      var sideblock, topblock := sb.value, tb.value;
      if sideblock.hash == topblock.hash {
        return false, sideBlocks, mainBlocks, Some(sideblock);
      }
      mainBlocks := mainBlocks + [topblock];
      sideBlocks := sideBlocks + [sideblock];
      if |sideblock.prevBlockHash| == 0 || |topblock.prevBlockHash| == 0 {
        assert false;
        return true, [], [], None;
      }
      k := k - 1;
    }
  }

  /** The two branches that lead from the deepest common block to `hash` and to
      `currentTip`: the side branch from its end downwards, the main one upwards. */
  method GetSideBranch(db: Database, ghost g: Hash, hash: Hash, currentTip: Hash)
    returns (err: bool, sideBlocks: seq<Block>, mainBlocks: seq<Block>, base: Option<Block>)
    requires WellFormed(db.blocks, g)
    ensures err <==> hash !in db.blocks || currentTip !in db.blocks
                     || db.blocks[hash].height < 1 || db.blocks[currentTip].height < 1
    ensures !err ==>
              var f := ForkHeight(db.blocks, g, hash, currentTip);
              && sideBlocks == Down(db.blocks, g, hash, f)
              && mainBlocks == Reverse(Down(db.blocks, g, currentTip, f))
              && Path(db.blocks, g, hash)[f] in db.blocks
              && base == Some(db.blocks[Path(db.blocks, g, hash)[f]])
  {
    if hash !in db.blocks || currentTip !in db.blocks {
      return true, [], [], None;
    }
    var sideblock, topblock := db.blocks[hash], db.blocks[currentTip];
    if sideblock.height < 1 || topblock.height < 1 {
      return true, [], [], None;
    }
    sideBlocks, mainBlocks := [], [];
    assert NodeOk(db.blocks, g, hash) && NodeOk(db.blocks, g, currentTip);
    ghost var start := if sideblock.height < topblock.height then sideblock.height else topblock.height;
    if sideblock.height > topblock.height {
      sideBlocks, sideblock := DownToHeight(db, g, sideblock.hash, topblock.height);
    } else if sideblock.height < topblock.height {
      mainBlocks, topblock := DownToHeight(db, g, topblock.hash, sideblock.height);
    }
    err, sideBlocks, mainBlocks, base :=
      DownToMeeting(db, g, hash, currentTip, start, sideblock.hash, topblock.hash, sideBlocks, mainBlocks);
    mainBlocks := ReverseSlice(mainBlocks);
  }

  /** The base found by GetSideBranch is the deepest block both branches share. */
  lemma BaseIsDeepestCommon(s: Store, g: Hash, a: Hash, b: Hash, x: Hash)
    requires WellFormed(s, g) && a in s && b in s
    ensures var base := Path(s, g, a)[ForkHeight(s, g, a, b)];
            && Ancestor(s, g, base, a) && Ancestor(s, g, base, b)
            && (Ancestor(s, g, x, a) && Ancestor(s, g, x, b) ==> Ancestor(s, g, x, base))
  {
    var f := ForkHeight(s, g, a, b);
    var base := Path(s, g, a)[f];
    PathAt(s, g, a, f);
    assert base == Path(s, g, a)[..f + 1][f] == Path(s, g, b)[..f + 1][f];
    if Ancestor(s, g, x, a) {
      ForkAncestor(s, g, a, b, x);
      AncestorTrans(s, g, x, base, a);
    }
  }

  /** GetBranchesReplacement looks at the base block before it looks at the error,
      so its callers must pass stored blocks above the genesis block. */
  method GetBranchesReplacement(db: Database, ghost g: Hash, sideBranchHash: Hash, tip: Hash)
    returns (newChain: Option<seq<Block>>, oldChain: Option<seq<Block>>)
    requires WellFormed(db.blocks, g)
    requires sideBranchHash in db.blocks && tip in db.blocks
    requires db.blocks[sideBranchHash].height >= 1 && db.blocks[tip].height >= 1
    ensures Ancestor(db.blocks, g, sideBranchHash, tip) ==> newChain == None && oldChain == None
    ensures !Ancestor(db.blocks, g, sideBranchHash, tip) ==>
              var f := ForkHeight(db.blocks, g, sideBranchHash, tip);
              && oldChain == Some(Down(db.blocks, g, sideBranchHash, f))
              && newChain == Some(Reverse(Down(db.blocks, g, tip, f)))
  {
    var err, sideBlocks, mainBlocks, base := GetSideBranch(db, g, sideBranchHash, tip);
    WalkStep(db.blocks, g, sideBranchHash, ForkHeight(db.blocks, g, sideBranchHash, tip));
    BaseIsDeepestCommon(db.blocks, g, sideBranchHash, tip, sideBranchHash);
    if base.value.hash == sideBranchHash {
      return None, None;
    }
    return Some(mainBlocks), Some(sideBlocks);
  }

  /** A stored hash of the list that lies on the branch ending at `tip`. */
  ghost predicate UnderTip(s: Store, g: Hash, hashes: seq<Hash>, tip: Hash, r: Option<Hash>)
    requires WellFormed(s, g) && tip in s
  {
    match r
    case Some(h) => h in hashes && Ancestor(s, g, h, tip)
    case None => forall h | h in hashes :: !Ancestor(s, g, h, tip)
  }

  /** The loop over the listed hashes that looks for one block. */
  method IsListed(blockHashes: seq<Hash>, hash: Hash) returns (found: bool)
    ensures found <==> hash in blockHashes
  {
    for i := 0 to |blockHashes|
      invariant hash !in blockHashes[..i]
    {
      if blockHashes[i] == hash {
        return true;
      }
    }
    return false;
  }

  /** Every listed hash on the branch of `tip` stands at height `k` or below. */
  ghost predicate ListedBelow(s: Store, g: Hash, hashes: seq<Hash>, tip: Hash, k: int)
    requires WellFormed(s, g) && tip in s
  {
    forall h | h in hashes && Ancestor(s, g, h, tip) :: s[h].height <= k
  }

  lemma ListedBelowStep(s: Store, g: Hash, hashes: seq<Hash>, tip: Hash, k: nat)
    requires WellFormed(s, g) && tip in s && k <= s[tip].height
    requires ListedBelow(s, g, hashes, tip, k) && Path(s, g, tip)[k] !in hashes
    ensures ListedBelow(s, g, hashes, tip, k - 1)
  {
  }

  /** The middle part of ChooseHashUnderTip: from a top outside the indexed chain
      down to the first block of that chain, unless a listed hash comes first. */
  method WalkToChain(db: Database, ghost g: Hash, ghost m: Hash, blockHashes: seq<Hash>, topHash: Hash)
    returns (found: Option<Hash>, topBlock: Block)
    requires Indexing(db, g, m) && topHash in db.blocks && !Ancestor(db.blocks, g, topHash, m)
    ensures found.Some? ==> found.value in blockHashes && Ancestor(db.blocks, g, found.value, topHash)
    ensures found.None? ==>
              && topBlock.height == ForkHeight(db.blocks, g, topHash, m)
              && ListedBelow(db.blocks, g, blockHashes, topHash, topBlock.height - 1)
  {
    ghost var s, f := db.blocks, ForkHeight(db.blocks, g, topHash, m);
    var bci := new BlockchainIterator(topHash);
    ghost var k: int := s[topHash].height;
    while true
      invariant f <= k <= s[topHash].height && bci.currentHash == Path(s, g, topHash)[k]
      invariant ListedBelow(s, g, blockHashes, topHash, k)
      decreases k
    {
      WalkAt(s, g, topHash, k);
      var b := bci.Next(db);
      var block := b.value;
      var listed := IsListed(blockHashes, block.hash);
      if listed {
        return Some(block.hash), block;
      }
      ListedBelowStep(s, g, blockHashes, topHash, k);
      WalkInIndex(s, g, db.chain, m, topHash, k);
      var exists_, e := db.BlockInChain(block.hash);
      if exists_ {
        return None, block;
      }
      if |block.prevBlockHash| == 0 {
        assert false;
        return None, block;
      }
      k := k - 1;
    }
  }

  /** Below the fork the index and one comparison of heights decide ancestry. */
  lemma IndexDecidesBelow(s: Store, g: Hash, c: Links, m: Hash, hashes: seq<Hash>, tip: Hash, h: Hash)
    requires Indexed(s, g, c, m) && tip in s && h in hashes
    requires ListedBelow(s, g, hashes, tip, ForkHeight(s, g, tip, m) - 1)
    ensures h in c ==> h in s
    ensures Ancestor(s, g, h, tip) <==> h in c && s[h].height < ForkHeight(s, g, tip, m)
  {
    InIndex(s, g, c, m, h);
    if h in s && s[h].height < ForkHeight(s, g, tip, m) {
      BelowFork(s, g, tip, m, h);
    }
  }

  /** The last part of ChooseHashUnderTip: the first listed hash of the indexed
      chain that is lower than the block where the branch leaves that chain. */
  method ChooseBelow(db: Database, ghost g: Hash, ghost m: Hash, blockHashes: seq<Hash>,
                     ghost tip: Hash, topBlock: Block)
    returns (r: Option<Hash>)
    requires Indexing(db, g, m) && tip in db.blocks && forall h | h in blockHashes :: |h| == |g|
    requires topBlock.height == ForkHeight(db.blocks, g, tip, m)
    requires ListedBelow(db.blocks, g, blockHashes, tip, topBlock.height - 1)
    ensures UnderTip(db.blocks, g, blockHashes, tip, r)
  {
    InIndex(db.blocks, g, db.chain, m, g);
    for i := 0 to |blockHashes|
      invariant forall j | 0 <= j < i :: !Ancestor(db.blocks, g, blockHashes[j], tip)
    {
      var h := blockHashes[i];
      assert |h| == |g|;
      IndexDecidesBelow(db.blocks, g, db.chain, m, blockHashes, tip, h);
      var exists_, e := db.BlockInChain(h);
      if exists_ {
        var block := db.blocks[h];
        if block.height < topBlock.height {
          return Some(h);
        }
      }
    }
    return None;
  }

  method ChooseHashUnderTip(db: Database, ghost g: Hash, ghost m: Hash, blockHashes: seq<Hash>, topHash: Hash)
    returns (r: Option<Hash>, err: bool)
    requires Indexing(db, g, m)
    requires forall h | h in blockHashes :: |h| == |g|
    ensures err <==> blockHashes != [] && topHash != [] && topHash !in db.blocks && topHash !in blockHashes
    ensures topHash == [] ==> UnderTip(db.blocks, g, blockHashes, m, r)
    ensures topHash != [] && topHash in db.blocks ==> UnderTip(db.blocks, g, blockHashes, topHash, r)
  {
    ghost var s := db.blocks;
    InIndex(s, g, db.chain, m, topHash);
    assert NodeOk(s, g, m) && (topHash in s ==> NodeOk(s, g, topHash));
    if |blockHashes| == 0 {
      return None, false;
    }
    if |topHash| == 0 {
      for i := 0 to |blockHashes|
        invariant forall j | 0 <= j < i :: !Ancestor(s, g, blockHashes[j], m)
      {
        InIndex(s, g, db.chain, m, blockHashes[i]);
        var exists_, e := db.BlockInChain(blockHashes[i]);
        if exists_ {
          return Some(blockHashes[i]), false;
        }
      }
      return None, false;
    }
    var listed := IsListed(blockHashes, topHash);
    if listed {
      return Some(topHash), false;
    }
    if topHash !in db.blocks {
      return None, true;
    }
    var topBlock := db.blocks[topHash];
    assert NodeOk(s, g, topHash);
    ghost var f := ForkHeight(s, g, topHash, m);
    var exists_, e := db.BlockInChain(topHash);
    if !exists_ {
      var found: Option<Hash>;
      found, topBlock := WalkToChain(db, g, m, blockHashes, topHash);
      if found.Some? {
        return found, false;
      }
    } else {
      ForkOnChain(s, g, topHash, m);
      assert ListedBelow(s, g, blockHashes, topHash, s[topHash].height);
      ListedBelowStep(s, g, blockHashes, topHash, s[topHash].height);
    }
    r := ChooseBelow(db, g, m, blockHashes, topHash, topBlock);
    err := false;
  }

  /** `x` is not on the branch of `tip` above height k. */
  ghost predicate NotAbove(s: Store, g: Hash, tip: Hash, x: Hash, k: int)
    requires WellFormed(s, g) && tip in s
  {
    Ancestor(s, g, x, tip) ==> s[x].height <= k
  }

  lemma NotAboveStep(s: Store, g: Hash, tip: Hash, x: Hash, k: nat)
    requires WellFormed(s, g) && tip in s && k <= s[tip].height
    requires NotAbove(s, g, tip, x, k) && Path(s, g, tip)[k] != x
    ensures NotAbove(s, g, tip, x, k - 1)
  {
  }

  lemma WalkedHere(s: Store, g: Hash, m: Hash, tip: Hash, k: nat)
    requires WellFormed(s, g) && m in s && tip in s && !Ancestor(s, g, tip, m)
    requires ForkHeight(s, g, tip, m) <= k <= s[tip].height
    ensures Path(s, g, tip)[k] in s
    ensures Walked(s, g, m, Path(s, g, tip)[k], tip)
    ensures Ancestor(s, g, Path(s, g, tip)[k], m) <==> k == ForkHeight(s, g, tip, m)
  {
    PathAt(s, g, tip, k);
    ForkAncestor(s, g, tip, m, Path(s, g, tip)[k]);
  }

  /** Where the walk of CheckBlockIsInRange from a top outside the indexed chain ends:
      with an answer, or with the block where the branch leaves the chain. */
  method WalkRange(db: Database, ghost g: Hash, ghost m: Hash, blockHash: Hash, bottomHash: Hash, topHash: Hash)
    returns (answer: Option<bool>, newTop: Hash)
    requires Indexing(db, g, m) && topHash in db.blocks && !Ancestor(db.blocks, g, topHash, m)
    ensures answer == (if Walked(db.blocks, g, m, blockHash, topHash)
                          && !(Walked(db.blocks, g, m, bottomHash, topHash)
                               && db.blocks[blockHash].height < db.blocks[bottomHash].height) then Some(true)
                       else if Walked(db.blocks, g, m, bottomHash, topHash) then Some(false)
                       else None)
    ensures answer.None? ==> newTop == Path(db.blocks, g, topHash)[ForkHeight(db.blocks, g, topHash, m)]
  {
    ghost var s, f := db.blocks, ForkHeight(db.blocks, g, topHash, m);
    var bci := new BlockchainIterator(topHash);
    ghost var k: int := s[topHash].height;
    while true
      invariant f <= k <= s[topHash].height && bci.currentHash == Path(s, g, topHash)[k]
      invariant NotAbove(s, g, topHash, blockHash, k) && NotAbove(s, g, topHash, bottomHash, k)
      decreases k
    {
      WalkAt(s, g, topHash, k);
      WalkedHere(s, g, m, topHash, k);
      var b := bci.Next(db);
      var block := b.value;
      if blockHash == block.hash {
        return Some(true), block.hash;
      }
      NotAboveStep(s, g, topHash, blockHash, k);
      if bottomHash == block.hash {
        return Some(false), block.hash;
      }
      NotAboveStep(s, g, topHash, bottomHash, k);
      WalkInIndex(s, g, db.chain, m, topHash, k);
      var exists_, e := db.BlockInChain(block.hash);
      if exists_ {
        return None, block.hash;
      }
      if |block.prevBlockHash| == 0 {
        assert false;
        return None, block.hash;
      }
      k := k - 1;
    }
  }

  method CheckBlockIsInRange(db: Database, ghost g: Hash, ghost m: Hash,
                             blockHash: Hash, bottomHash: Hash, topHash: Hash)
    returns (r: bool, err: bool)
    requires Indexing(db, g, m)
    requires |topHash| > 0 ==> |topHash| == |g|
    ensures |topHash| > 0 && topHash !in db.blocks ==> err
    ensures |topHash| > 0 && topHash in db.blocks ==>
              RangeAnswer(db.blocks, g, m, blockHash, bottomHash, topHash) == if err then None else Some(r)
    ensures |topHash| == 0 ==>
              RangeAnswer(db.blocks, g, db.topHash, blockHash, bottomHash, db.topHash)
              == if err then None else Some(r)
  {
    ghost var s := db.blocks;
    InIndex(s, g, db.chain, m, topHash);
    var top := topHash;
    if |topHash| > 0 {
      var exists_, e := db.BlockInChain(topHash);
      if !exists_ {
        if topHash !in db.blocks {
          return false, true;
        }
        var answer;
        answer, top := WalkRange(db, g, m, blockHash, bottomHash, topHash);
        if answer.Some? {
          return answer.value, false;
        }
        WalkAt(s, g, topHash, ForkHeight(s, g, topHash, m));
      } else {
        ForkOnChain(s, g, topHash, m);
      }
    } else {
      top := db.topHash;
      SelfAncestor(s, g, top);
      ForkOnChain(s, g, top, top);
    }
    if top !in db.blocks || bottomHash !in db.blocks || blockHash !in db.blocks {
      return false, true;
    }
    var topBlock, bottomBlock, block := db.blocks[top], db.blocks[bottomHash], db.blocks[blockHash];
    if block.height >= bottomBlock.height && block.height <= topBlock.height {
      return true, false;
    }
    return false, false;
  }

  lemma SelfAncestor(s: Store, g: Hash, h: Hash)
    requires WellFormed(s, g) && h in s
    ensures Ancestor(s, g, h, h)
  {
    assert NodeOk(s, g, h);
  }

  function ShortCopy(b: Block): BlockShort {
    BlockShort(b.prevBlockHash, b.hash, b.height)
  }

  /** Short copies of the blocks from `h` down to, but not including, height `k`. */
  ghost function ShortDown(s: Store, g: Hash, h: Hash, k: int): (r: seq<BlockShort>)
    requires WellFormed(s, g) && h in s && -1 <= k <= s[h].height
    ensures |r| == s[h].height - k
    ensures forall i | 0 <= i < |r| :: r[i].hash == Path(s, g, h)[s[h].height - i]
    ensures forall i | 0 <= i < |r| :: r[i].height == s[h].height - i
    decreases s[h].height - k
  {
    if k == s[h].height then [] else
      WalkAt(s, g, h, k + 1);
      ShortDown(s, g, h, k + 1) + [ShortCopy(s[Path(s, g, h)[k + 1]])]
  }

  /** First loop of UpdateChainOnNewBranch: collects the new branch from the top
      down to the first block of the indexed chain. */
  method CollectNewBranch(db: Database, ghost g: Hash, ghost m: Hash)
    returns (newBlocks: seq<BlockShort>, mergePointHash: Hash, err: DBError)
    requires Indexing(db, g, m)
    ensures var f := ForkHeight(db.blocks, g, db.topHash, m);
            && err.NoError? && mergePointHash == Path(db.blocks, g, db.topHash)[f]
            && newBlocks == ShortDown(db.blocks, g, db.topHash, f)
  {
    ghost var s, t, f := db.blocks, db.topHash, ForkHeight(db.blocks, g, db.topHash, m);
    newBlocks, mergePointHash := [], [];
    var bci := new BlockchainIterator(db.topHash);
    ghost var k: int := s[t].height;
    while true
      invariant f <= k <= s[t].height && bci.currentHash == Path(s, g, t)[k]
      invariant newBlocks == ShortDown(s, g, t, k)
      decreases k
    {
      WalkAt(s, g, t, k);
      var b := bci.Next(db);
      var block := b.value;
      WalkInIndex(s, g, db.chain, m, t, k);
      var exists_, e := db.BlockInChain(block.hash);
      if e != NoError {
        return newBlocks, mergePointHash, e;
      }
      if exists_ {
        return newBlocks, block.hash, NoError;
      }
      newBlocks := newBlocks + [ShortCopy(block)];
      if |block.prevBlockHash| == 0 {
        assert false;
        return newBlocks, mergePointHash, NoError;
      }
      k := k - 1;
    }
  }

  lemma RemoveStep(c: Links, p: seq<Hash>, k: nat)
    requires 0 < k < |p| && Indexes(c, p[..k + 1])
    ensures p[k] in c && p[k] != [] && Uniform(c, |p[k]|)
    ensures RemoveError(c, p[k]).NoError? && PrevOf(c, p[k]) == p[k - 1]
    ensures Indexes(RemoveLink(c, p[k]), p[..k])
  {
    var q := p[..k + 1];
    assert q[k] == p[k] && q[k - 1] == p[k - 1] && q[..k] == p[..k];
    At(c, q, k);
    RemoveLast(c, q);
  }

  lemma AppendStep(c: Links, p: seq<Hash>, n: nat)
    requires 0 < n < |p| && Indexes(c, p[..n]) && GoodPath(p)
    ensures Uniform(c, |p[n]|) && AddError(c, p[n], p[n - 1]).NoError?
    ensures Indexes(AddLink(c, p[n], p[n - 1]), p[..n + 1])
  {
    GoodPrefix(p, n + 1);
    assert p[..n + 1] == p[..n] + [p[n]] && p[..n][n - 1] == p[n - 1];
    AppendLink(c, p[..n], p[n]);
  }

  /** Second loop: takes the old branch out of the index, from its end down. */
  method RemoveOldBranch(db: Database, ghost p: seq<Hash>, prevTopHash: Hash, mergePointHash: Hash, ghost f: nat)
    returns (err: DBError)
    requires Indexes(db.chain, p) && f < |p|
    requires prevTopHash == p[|p| - 1] && mergePointHash == p[f]
    modifies db`chain
    ensures err.NoError? && Indexes(db.chain, p[..f + 1])
  {
    var remHash := prevTopHash;
    ghost var k: int := |p| - 1;
    assert p[..k + 1] == p;
    while true
      invariant f <= k < |p| && remHash == p[k]
      invariant Indexes(db.chain, p[..k + 1])
      decreases k
    {
      if remHash == mergePointHash {
        assert f < k ==> Differ(p[f], p[k]);
        return NoError;
      }
      RemoveStep(db.chain, p, k);
      var found, prevHash, nextHash, e := db.GetLocationInChain(remHash);
      if e != NoError {
        return e;
      }
      e := db.RemoveFromChain(remHash);
      if e != NoError {
        return e;
      }
      remHash := prevHash;
      k := k - 1;
    }
  }

  /** Third loop: appends the new branch after the merge point. */
  method AppendNewBranch(db: Database, ghost p: seq<Hash>, newBlocks: seq<BlockShort>, mergePointHash: Hash,
                         ghost f: nat)
    returns (err: DBError)
    requires GoodPath(p) && f + 1 + |newBlocks| == |p|
    requires forall i | 0 <= i < |newBlocks| :: newBlocks[i].hash == p[f + 1 + i]
    requires mergePointHash == p[f] && Indexes(db.chain, p[..f + 1])
    modifies db`chain
    ensures err.NoError? && Indexes(db.chain, p)
  {
    var merge := mergePointHash;
    ghost var n := f + 1;
    for i := 0 to |newBlocks|
      invariant n == f + 1 + i && merge == p[n - 1]
      invariant Indexes(db.chain, p[..n])
    {
      var block := newBlocks[i];
      AppendStep(db.chain, p, n);
      var e := db.AddToChain(block.hash, merge);
      if e != NoError {
        return e;
      }
      merge := block.hash;
      n := n + 1;
    }
    assert p[..n] == p;
    return NoError;
  }

  /** Moves the link index from the path to the previous top to the path to the
      current one; no step of it fails. */
  method UpdateChainOnNewBranch(db: Database, ghost g: Hash, prevTopHash: Hash) returns (err: DBError)
    requires Indexing(db, g, prevTopHash)
    modifies db`chain
    ensures err.NoError? && ChainOk(db, g)
  {
    ghost var s, f := db.blocks, ForkHeight(db.blocks, g, db.topHash, prevTopHash);
    var newBlocks, mergePointHash, e := CollectNewBranch(db, g, prevTopHash);
    if e != NoError {
      return e;
    }
    ForkPoint(s, g, db.topHash, prevTopHash);
    GoodPathOf(s, g, db.topHash);
    e := RemoveOldBranch(db, Path(s, g, prevTopHash), prevTopHash, mergePointHash, f);
    if e != NoError {
      return e;
    }
    newBlocks := ReverseSlice(newBlocks);
    err := AppendNewBranch(db, Path(s, g, db.topHash), newBlocks, mergePointHash, f);
  }

  /** No stored block is higher than the top. */
  ghost predicate TopIsHighest(s: Store, top: Hash)
    requires top in s
  {
    forall h | h in s :: s[h].height <= s[top].height
  }

  /** What AddBlock relies on but does not check: the shape of the hash and the height. */
  ghost predicate Fits(s: Store, g: Hash, b: Block) {
    && |b.hash| == |g| && b.hash != Zeros(|g|)
    && (b.prevBlockHash in s ==> b.height == s[b.prevBlockHash].height + 1)
  }

  ghost function AddOutcome(s: Store, top: Hash, b: Block): AddState
    requires top in s
  {
    if b.hash in s then NotAddedExists
    else if b.prevBlockHash !in s then NotAddedNoPrev
    else if b.height <= s[top].height then AddedToParallel
    else if top == b.prevBlockHash then AddedToTop
    else AddedToParallelTop
  }

  predicate Added(state: AddState) {
    state.AddedToTop? || state.AddedToParallelTop? || state.AddedToParallel?
  }

  /** Storing a block whose parent is stored keeps an index of another path. */
  lemma StoreKeepsIndex(s: Store, g: Hash, c: Links, m: Hash, b: Block)
    requires Indexed(s, g, c, m) && Fits(s, g, b)
    requires b.hash !in s && b.prevBlockHash in s
    ensures Indexed(s[b.hash := b], g, c, m)
  {
    Extend(s, g, b);
  }

  method AddBlock(db: Database, ghost g: Hash, block: Block) returns (state: AddState)
    requires ChainOk(db, g) && Fits(db.blocks, g, block)
    modifies db`blocks, db`topHash, db`chain
    ensures state == AddOutcome(old(db.blocks), old(db.topHash), block)
    ensures state.NotAddedExists? <==> block.hash in old(db.blocks)
    ensures state.NotAddedNoPrev? <==> block.hash !in old(db.blocks) && block.prevBlockHash !in old(db.blocks)
    ensures state.AddedToParallel? ==> block.height <= old(db.blocks[db.topHash].height)
    ensures state.AddedToTop? ==> block.prevBlockHash == old(db.topHash)
    ensures state.AddedToParallelTop? ==>
              block.height > old(db.blocks[db.topHash].height) && block.prevBlockHash != old(db.topHash)
    ensures db.blocks == if Added(state) then old(db.blocks)[block.hash := block] else old(db.blocks)
    ensures db.topHash == if state.AddedToTop? || state.AddedToParallelTop? then block.hash else old(db.topHash)
    ensures ChainOk(db, g)
    ensures old(TopIsHighest(db.blocks, db.topHash)) ==> TopIsHighest(db.blocks, db.topHash)
    ensures !state.AddedToTop? && !state.AddedToParallelTop? ==> db.chain == old(db.chain)
    ensures state.AddedToTop? ==>
              && Uniform(old(db.chain), |block.hash|)
              && AddError(old(db.chain), block.hash, block.prevBlockHash).NoError?
              && db.chain == AddLink(old(db.chain), block.hash, block.prevBlockHash)
  {
    if block.hash in db.blocks {
      return NotAddedExists;
    }
    if block.prevBlockHash !in db.blocks {
      return NotAddedNoPrev;
    }
    Extend(db.blocks, g, block);
    StoreKeepsIndex(db.blocks, g, db.chain, db.topHash, block);
    db.blocks := db.blocks[block.hash := block];
    var lastHash := db.topHash;
    var lastBlock := db.blocks[lastHash];
    if block.height > lastBlock.height {
      db.topHash := block.hash;
      if lastHash != block.prevBlockHash {
        var err := UpdateChainOnNewBranch(db, g, lastHash);
        return AddedToParallelTop;
      } else {
        GoodPathOf(db.blocks, g, block.hash);
        AppendLink(db.chain, Path(db.blocks, g, lastHash), block.hash);
        var err := db.AddToChain(block.hash, block.prevBlockHash);
        return AddedToTop;
      }
    }
    return AddedToParallel;
  }

  /** Only a block exactly one higher than the top can move the top to another
      branch, and then the new branch is one block longer than the old one. */
  lemma SwitchIsOneLonger(s: Store, g: Hash, top: Hash, b: Block)
    requires WellFormed(s, g) && top in s && TopIsHighest(s, top) && Fits(s, g, b)
    requires AddOutcome(s, top, b).AddedToParallelTop?
    ensures WellFormed(s[b.hash := b], g)
    ensures var s' := s[b.hash := b];
            var f := ForkHeight(s', g, b.hash, top);
            && b.height == s[top].height + 1 && s[top].height >= 1
            && |Down(s', g, b.hash, f)| == |Down(s', g, top, f)| + 1
            && |Down(s', g, top, f)| >= 1
  {
    Extend(s, g, b);
    var s' := s[b.hash := b];
    assert NodeOk(s, g, b.prevBlockHash) && NodeOk(s, g, top);
    var f := ForkHeight(s', g, b.hash, top);
    if f == s[top].height {
      ForkPoint(s', g, b.hash, top);
    }
  }

  /** The last block of a branch, the genesis block included, can be taken out of the index. */
  lemma LastLink(c: Links, p: seq<Hash>)
    requires Indexes(c, p)
    ensures var h := p[|p| - 1];
            && Uniform(c, |h|) && RemoveError(c, h).NoError?
            && if |p| == 1 then RemoveLink(c, h) == map[] else Indexes(RemoveLink(c, h), p[..|p| - 1])
  {
    var last := |p| - 1;
    IndexUniform(c, p);
    At(c, p, last);
    if last > 0 {
      RemoveLast(c, p);
    } else {
      assert forall h | h in c :: h in p;
      assert RemoveLink(c, p[0]) == map[];
    }
  }

  /** DeleteBlock: the top block is taken out; its parent becomes the top, and no block when
      it was the genesis block. */
  method DeleteBlock(db: Database, ghost g: Hash) returns (block: Option<Block>)
    requires ChainOk(db, g)
    modifies db`blocks, db`topHash, db`chain
    ensures block == Some(old(db.blocks[db.topHash]))
    ensures db.topHash == block.value.prevBlockHash
    ensures db.blocks == old(db.blocks) - {block.value.hash}
    ensures Uniform(old(db.chain), |block.value.hash|)
    ensures RemoveError(old(db.chain), block.value.hash).NoError?
    ensures db.chain == RemoveLink(old(db.chain), block.value.hash)
    ensures if old(db.topHash) == g then db.chain == map[]
            else Indexes(db.chain, old(Path(db.blocks, g, db.topHash)[..db.blocks[db.topHash].height]))
  {
    if db.topHash !in db.blocks {
      return None;
    }
    var b := db.blocks[db.topHash];
    WalkAt(db.blocks, g, db.topHash, b.height);
    assert NodeOk(db.blocks, g, db.topHash);
    if db.topHash != g {
      assert NodeOk(db.blocks, g, b.prevBlockHash);
    }
    LastLink(db.chain, Path(db.blocks, g, db.topHash));
    db.topHash := b.prevBlockHash;
    db.blocks := db.blocks - {b.hash};
    var err := db.RemoveFromChain(b.hash);
    return Some(b);
  }

  /** Store, top and links as AddBlock leaves them when the block continues the top. */
  ghost predicate Appended(s: Store, c: Links, top: Hash, b: Block, s': Store, c': Links, top': Hash) {
    && Uniform(c, |b.hash|) && AddError(c, b.hash, top).NoError?
    && s' == s[b.hash := b] && c' == AddLink(c, b.hash, top) && top' == b.hash
  }

  /** Store, top and links as DeleteBlock leaves them. */
  ghost predicate Deleted(s: Store, c: Links, top: Hash, s': Store, c': Links, top': Hash)
    requires top in s
  {
    var b := s[top];
    && Uniform(c, |b.hash|) && RemoveError(c, b.hash).NoError?
    && s' == s - {b.hash} && c' == RemoveLink(c, b.hash) && top' == b.prevBlockHash
  }

  /** Appending a block to the top and dropping it again restores the block store, the top
      and the link index exactly. */
  lemma DropUndoesAppend(s: Store, g: Hash, c: Links, top: Hash, b: Block,
                         s1: Store, c1: Links, top1: Hash, s2: Store, c2: Links, top2: Hash)
    requires Indexed(s, g, c, top) && Fits(s, g, b) && b.hash !in s && b.prevBlockHash == top
    requires Appended(s, c, top, b, s1, c1, top1) && Deleted(s1, c1, top1, s2, c2, top2)
    ensures s2 == s && c2 == c && top2 == top
  {
    LinksRestored(s, g, c, top, b);
  }

  lemma LinksRestored(s: Store, g: Hash, c: Links, top: Hash, b: Block)
    requires Indexed(s, g, c, top) && Fits(s, g, b) && b.hash !in s && b.prevBlockHash == top
    ensures s[b.hash := b] - {b.hash} == s
    ensures Uniform(c, |b.hash|) && AddError(c, b.hash, top).NoError?
    ensures var c' := AddLink(c, b.hash, top);
            Uniform(c', |b.hash|) && RemoveError(c', b.hash).NoError? && RemoveLink(c', b.hash) == c
  {
    var p := Path(s, g, top);
    Extend(s, g, b);
    GoodPathOf(s[b.hash := b], g, b.hash);
    AppendLink(c, p, b.hash);
    CanAppend(c, p, b.hash);
    At(c, p, |p| - 1);
    AddThenRemove(c, b.hash, top);
  }
}
