/** The ledger along the branches of the block tree. */
module ChainLedger {
  import opened Structures
  import opened Tree
  import opened Ledger

  function BlockEntries(b: Block): (r: seq<Entry>)
    ensures |r| == |b.transactions|
  {
    seq(|b.transactions|, i requires 0 <= i < |b.transactions| => Entry(b.transactions[i], b.hash))
  }

  /** The transactions of the branch ending at `h`, from the genesis block on. */
  ghost function PathEntries(s: Store, g: Hash, h: Hash): seq<Entry>
    requires WellFormed(s, g) && h in s
    decreases s[h].height
  {
    assert NodeOk(s, g, h);
    if h == g then BlockEntries(s[h])
    else
      assert NodeOk(s, g, s[h].prevBlockHash);
      PathEntries(s, g, s[h].prevBlockHash) + BlockEntries(s[h])
  }

  /** The transactions of the branch of `h` above height k. */
  ghost function EntriesAbove(s: Store, g: Hash, h: Hash, k: nat): seq<Entry>
    requires WellFormed(s, g) && h in s && k <= s[h].height
    decreases s[h].height
  {
    assert NodeOk(s, g, h) && NodeOk(s, g, g);
    if k == s[h].height then []
    else EntriesAbove(s, g, s[h].prevBlockHash, k) + BlockEntries(s[h])
  }

  lemma AncestorStep(s: Store, g: Hash, a: Hash, h: Hash)
    requires WellFormed(s, g) && h in s && h != g
    ensures s[h].prevBlockHash in s
    ensures Ancestor(s, g, a, h) <==> a == h || Ancestor(s, g, a, s[h].prevBlockHash)
  {
    assert NodeOk(s, g, h) && NodeOk(s, g, s[h].prevBlockHash);
    assert Path(s, g, h) == Path(s, g, s[h].prevBlockHash) + [h];
  }

  lemma AncestorOfGenesis(s: Store, g: Hash, a: Hash)
    requires WellFormed(s, g)
    ensures Ancestor(s, g, a, g) <==> a == g
  {
    assert NodeOk(s, g, g);
  }

  lemma {:induction false} SplitAt(s: Store, g: Hash, a: Hash, h: Hash)
    requires WellFormed(s, g) && h in s && Ancestor(s, g, a, h)
    ensures PathEntries(s, g, h) == PathEntries(s, g, a) + EntriesAbove(s, g, h, s[a].height)
    decreases s[h].height
  {
    assert NodeOk(s, g, h) && NodeOk(s, g, g);
    if a == h {
    } else if h == g {
      AncestorOfGenesis(s, g, a);
    } else {
      var p := s[h].prevBlockHash;
      AncestorStep(s, g, a, h);
      SplitAt(s, g, a, p);
      assert s[a].height < s[h].height;
      assert PathEntries(s, g, h) == PathEntries(s, g, p) + BlockEntries(s[h]);
    }
  }

  lemma {:induction false} EntriesStable(s: Store, g: Hash, s': Store, h: Hash)
    requires WellFormed(s, g) && WellFormed(s', g) && h in s
    requires s.Keys <= s'.Keys && forall k | k in s :: s'[k] == s[k]
    ensures PathEntries(s', g, h) == PathEntries(s, g, h)
    decreases s[h].height
  {
    assert NodeOk(s, g, h);
    if h != g {
      assert NodeOk(s, g, s[h].prevBlockHash);
      EntriesStable(s, g, s', s[h].prevBlockHash);
    }
  }

  /** The branch below a block is part of a sound branch above it, and sound as well. */
  lemma SoundBelow(s: Store, g: Hash, a: Hash, h: Hash)
    requires WellFormed(s, g) && h in s && Ancestor(s, g, a, h) && Sound(PathEntries(s, g, h))
    ensures Sound(PathEntries(s, g, a))
    ensures a != g ==> s[a].prevBlockHash in s && Sound(PathEntries(s, g, s[a].prevBlockHash))
  {
    SplitAt(s, g, a, h);
    OrderedPrefix(PathEntries(s, g, a), EntriesAbove(s, g, h, s[a].height));
    ResolvedPrefix(PathEntries(s, g, a), EntriesAbove(s, g, h, s[a].height));
    if a != g {
      assert NodeOk(s, g, a) && NodeOk(s, g, s[a].prevBlockHash);
      OrderedPrefix(PathEntries(s, g, s[a].prevBlockHash), BlockEntries(s[a]));
      ResolvedPrefix(PathEntries(s, g, s[a].prevBlockHash), BlockEntries(s[a]));
    }
  }

  /** Transaction `t` is in stored block `a`. */
  ghost predicate Holds(s: Store, a: Hash, t: Bytes)
    requires a in s
  {
    t in Ids(BlockEntries(s[a]))
  }

  /** Output `v` of transaction `t` is spent in stored block `a`. */
  ghost predicate SpentBy(s: Store, a: Hash, t: Bytes, v: int)
    requires a in s
  {
    v in SpentIn(BlockEntries(s[a]), t)
  }

  lemma OnPath(s: Store, g: Hash, h: Hash, a: Hash, t: Bytes)
    requires WellFormed(s, g) && h in s && Ancestor(s, g, a, h)
    ensures Holds(s, a, t) ==> t in Ids(PathEntries(s, g, h))
    ensures SpentIn(BlockEntries(s[a]), t) <= SpentIn(PathEntries(s, g, h), t)
  {
    assert NodeOk(s, g, a);
    var above := EntriesAbove(s, g, h, s[a].height);
    SplitAt(s, g, a, h);
    IdsAppend(PathEntries(s, g, a), above);
    SpentAppend(PathEntries(s, g, a), above, t);
    if a != g {
      var below := PathEntries(s, g, s[a].prevBlockHash);
      IdsAppend(below, BlockEntries(s[a]));
      SpentAppend(below, BlockEntries(s[a]), t);
    }
  }

  lemma {:induction false} FindHolder(s: Store, g: Hash, h: Hash, t: Bytes) returns (a: Hash)
    requires WellFormed(s, g) && h in s && t in Ids(PathEntries(s, g, h))
    ensures Ancestor(s, g, a, h) && Holds(s, a, t)
    decreases s[h].height
  {
    assert NodeOk(s, g, h);
    a := h;
    if h != g && !Holds(s, h, t) {
      var p := s[h].prevBlockHash;
      assert NodeOk(s, g, p);
      IdsAppend(PathEntries(s, g, p), BlockEntries(s[h]));
      a := FindHolder(s, g, p, t);
      AncestorStep(s, g, a, h);
    }
  }

  lemma {:induction false} FindSpender(s: Store, g: Hash, h: Hash, t: Bytes, v: int) returns (a: Hash)
    requires WellFormed(s, g) && h in s && v in SpentIn(PathEntries(s, g, h), t)
    ensures Ancestor(s, g, a, h) && SpentBy(s, a, t, v)
    decreases s[h].height
  {
    assert NodeOk(s, g, h);
    a := h;
    if h != g && !SpentBy(s, h, t, v) {
      var p := s[h].prevBlockHash;
      assert NodeOk(s, g, p);
      SpentAppend(PathEntries(s, g, p), BlockEntries(s[h]), t);
      a := FindSpender(s, g, p, t, v);
      AncestorStep(s, g, a, h);
    }
  }

  /** On an ordered branch nothing above the block of `t` repeats its id, and
      nothing below refers to it. */
  lemma HomeOnPath(s: Store, g: Hash, h: Hash, a: Hash, t: Bytes)
    requires WellFormed(s, g) && h in s && Ordered(PathEntries(s, g, h))
    requires Ancestor(s, g, a, h) && Holds(s, a, t)
    ensures EntryAt(PathEntries(s, g, h), t) == EntryAt(BlockEntries(s[a]), t)
    ensures forall b | Ancestor(s, g, b, h) && Holds(s, b, t) :: b == a
    ensures forall b, v | Ancestor(s, g, b, h) && SpentBy(s, b, t, v) :: s[a].height <= s[b].height
  {
    HomeEntry(s, g, h, a, t);
    forall b | Ancestor(s, g, b, h)
      ensures Holds(s, b, t) ==> b == a
      ensures forall v | SpentBy(s, b, t, v) :: s[a].height <= s[b].height
    {
      if s[b].height < s[a].height {
        BelowHome(s, g, h, a, b, t);
      } else if s[a].height < s[b].height {
        if Holds(s, b, t) {
          BelowHome(s, g, h, b, a, t);
        }
      }
    }
  }

  lemma HomeEntry(s: Store, g: Hash, h: Hash, a: Hash, t: Bytes)
    requires WellFormed(s, g) && h in s && Ordered(PathEntries(s, g, h))
    requires Ancestor(s, g, a, h) && Holds(s, a, t)
    ensures EntryAt(PathEntries(s, g, h), t) == EntryAt(BlockEntries(s[a]), t)
  {
    var below, above := PathEntries(s, g, a), EntriesAbove(s, g, h, s[a].height);
    SplitAt(s, g, a, h);
    OrderedFresh(below, above);
    SpentAppend(below, above, t);
    assert NodeOk(s, g, a);
    if a != g {
      var p := s[a].prevBlockHash;
      IdsAppend(PathEntries(s, g, p), BlockEntries(s[a]));
      SpentAppend(PathEntries(s, g, p), BlockEntries(s[a]), t);
    }
  }

  /** Below a block that holds `t`, no block of the branch holds or spends `t`. */
  lemma BelowHome(s: Store, g: Hash, h: Hash, a: Hash, b: Hash, t: Bytes)
    requires WellFormed(s, g) && h in s && Ordered(PathEntries(s, g, h))
    requires Ancestor(s, g, a, h) && Holds(s, a, t)
    requires Ancestor(s, g, b, h) && s[b].height < s[a].height
    ensures !Holds(s, b, t) && forall v :: !SpentBy(s, b, t, v)
  {
    assert NodeOk(s, g, a) && NodeOk(s, g, b) && NodeOk(s, g, g);
    var p := s[a].prevBlockHash;
    var below := PathEntries(s, g, p);
    AncestorTrans(s, g, b, a, h);
    AncestorStep(s, g, b, a);
    SplitAt(s, g, a, h);
    OrderedPrefix(PathEntries(s, g, a), EntriesAbove(s, g, h, s[a].height));
    OrderedFresh(below, BlockEntries(s[a]));
    OnPath(s, g, p, b, t);
    SpentNeedsRef(below, t);
  }

  lemma EntryInBlock(b: Block, e: Entry)
    ensures e in BlockEntries(b) <==> e.block == b.hash && e.tx in b.transactions
  {
    if e.block == b.hash && e.tx in b.transactions {
      var i :| 0 <= i < |b.transactions| && b.transactions[i] == e.tx;
      assert BlockEntries(b)[i] == e;
    }
  }

  /** The entries of a branch are the transactions of its blocks. */
  lemma {:induction false} EntryOnPath(s: Store, g: Hash, h: Hash, e: Entry)
    requires WellFormed(s, g) && h in s
    ensures e in PathEntries(s, g, h) <==> Ancestor(s, g, e.block, h) && e.tx in s[e.block].transactions
    decreases s[h].height
  {
    assert NodeOk(s, g, h);
    EntryInBlock(s[h], e);
    if h == g {
      AncestorOfGenesis(s, g, e.block);
    } else {
      AncestorStep(s, g, e.block, h);
      assert NodeOk(s, g, s[h].prevBlockHash);
      EntryOnPath(s, g, s[h].prevBlockHash, e);
      NotItsOwnAncestor(s, g, h);
    }
  }

  lemma NotItsOwnAncestor(s: Store, g: Hash, h: Hash)
    requires WellFormed(s, g) && h in s && h != g
    ensures s[h].prevBlockHash in s && !Ancestor(s, g, h, s[h].prevBlockHash) && Ancestor(s, g, h, h)
  {
    assert NodeOk(s, g, h) && NodeOk(s, g, s[h].prevBlockHash);
  }
}
