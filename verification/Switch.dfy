/** What a switch to another branch does to the cache of unspent outputs: the blocks of
    the old branch are cancelled from its end down, those of the new branch are added
    from the fork up. */
module Switch {
  import opened Structures
  import opened Tree
  import opened Branches
  import opened Ledger
  import opened ChainLedger
  import opened TxIndex
  import opened UnspentCache
  import opened Cancel

  /** The entry at height k of the path to `h`, as a stored block. */
  ghost function BlockAt(s: Store, g: Hash, h: Hash, k: nat): (b: Block)
    requires WellFormed(s, g) && h in s && k <= s[h].height
    ensures b.hash == Path(s, g, h)[k] && b.hash in s && s[b.hash] == b && b.height == k
    ensures k > 0 ==> b.hash != g && b.prevBlockHash == Path(s, g, h)[k - 1] && b.prevBlockHash in s
  {
    PathAt(s, g, h, k);
    assert NodeOk(s, g, Path(s, g, h)[k]);
    if k > 0 then
      PathParent(s, g, h, k);
      s[Path(s, g, h)[k]]
    else
      s[Path(s, g, h)[k]]
  }

  /** The transactions of the branch of `h` up to height k. */
  ghost function UpTo(s: Store, g: Hash, h: Hash, k: nat): seq<Entry>
    requires WellFormed(s, g) && h in s && k <= s[h].height
  {
    PathAt(s, g, h, k);
    PathEntries(s, g, Path(s, g, h)[k])
  }

  lemma UpToStep(s: Store, g: Hash, h: Hash, k: nat)
    requires WellFormed(s, g) && h in s && 0 < k <= s[h].height
    ensures UpTo(s, g, h, k) == UpTo(s, g, h, k - 1) + BlockEntries(BlockAt(s, g, h, k))
    ensures UpTo(s, g, h, s[h].height) == PathEntries(s, g, h)
  {
    var b := BlockAt(s, g, h, k);
    assert NodeOk(s, g, b.hash);
  }

  /** Outputs of `t` missing from the cache after the old branch of `h` has been cancelled
      down to height k.  A cancel rewrites the records its inputs reach, up to stray
      records, and leaves alone what a same-block input keeps it from reaching. */
  ghost function Lost(s: Store, g: Hash, m: Hash, sp: SpendLists, h: Hash, k: nat, t: Bytes): set<int>
    requires WellFormed(s, g) && m in s && h in s && k <= s[h].height
    decreases s[h].height - k
  {
    if k == s[h].height then {} else
      var be := BlockEntries(BlockAt(s, g, h, k + 1));
      var known := Ids(UpTo(s, g, h, k));
      PathAt(s, g, h, k);
      if t !in known then {}
      else if t in Reached(be, known) then Strays(s, g, m, sp, Path(s, g, h)[k], t)
      else Lost(s, g, m, sp, h, k + 1, t) + SpentIn(be, t)
  }

  /** The cache of the branch up to height k, without the lost outputs. */
  ghost predicate TracksBut(u: Utxo, s: Store, g: Hash, m: Hash, sp: SpendLists, h: Hash, k: nat)
    requires WellFormed(s, g) && m in s && h in s && k <= s[h].height
  {
    forall t :: Coins(u, t) == Keep(Unspent(UpTo(s, g, h, k), t), Lost(s, g, m, sp, h, k, t))
  }

  lemma TracksButStart(u: Utxo, s: Store, g: Hash, m: Hash, sp: SpendLists, h: Hash)
    requires WellFormed(s, g) && m in s && h in s && s[h].height >= 0
    requires Tracks(u, PathEntries(s, g, h))
    ensures TracksBut(u, s, g, m, sp, h, s[h].height)
  {
    var es := UpTo(s, g, h, s[h].height);
    assert es == PathEntries(s, g, h);
    forall t
      ensures Coins(u, t) == Keep(Unspent(es, t), {})
    {
      KeepNone(Unspent(es, t));
    }
  }

  lemma CancelStepAt(u: Utxo, u': Utxo, s: Store, g: Hash, m: Hash, sp: SpendLists, h: Hash, k: nat, t: Bytes)
    requires WellFormed(s, g) && m in s && h in s && k < s[h].height
    requires Ordered(UpTo(s, g, h, k + 1)) && TracksBut(u, s, g, m, sp, h, k + 1)
    requires Reached(BlockEntries(BlockAt(s, g, h, k + 1)), Ids(UpTo(s, g, h, k))) <= Ids(UpTo(s, g, h, k))
    requires CancelledTo(u, u', s, g, m, sp, Path(s, g, h)[k], Ids(BlockEntries(BlockAt(s, g, h, k + 1))),
                         Reached(BlockEntries(BlockAt(s, g, h, k + 1)), Ids(UpTo(s, g, h, k))))
    ensures Coins(u', t) == Keep(Unspent(UpTo(s, g, h, k), t), Lost(s, g, m, sp, h, k, t))
  {
    var es, be := UpTo(s, g, h, k), BlockEntries(BlockAt(s, g, h, k + 1));
    UpToStep(s, g, h, k + 1);
    var lost := Lost(s, g, m, sp, h, k, t);
    if t !in Ids(es) {
      NotYetThere(es, be, t, Lost(s, g, m, sp, h, k + 1, t));
    } else if t in Reached(be, Ids(es)) {
      KeepTwice(CoinsAt(es, t), SpentIn(es, t), lost);
    } else {
      OrderedFresh(es, be);
      SpentTwice(es, be, t, Lost(s, g, m, sp, h, k + 1, t));
    }
  }

  lemma NotYetThere(es: seq<Entry>, be: seq<Entry>, t: Bytes, lost: set<int>)
    requires t !in Ids(es)
    ensures Keep(Unspent(es, t), {}) == []
    ensures t !in Ids(be) ==> Keep(Unspent(es + be, t), lost) == []
  {
    HasEntry(es, t);
    HasEntry(be, t);
    SpentAppend(es, be, t);
  }

  lemma SpentTwice(es: seq<Entry>, be: seq<Entry>, t: Bytes, lost: set<int>)
    requires t !in Ids(be)
    ensures Keep(Unspent(es + be, t), lost) == Keep(Unspent(es, t), lost + SpentIn(be, t))
  {
    var cs, a, b := CoinsAt(es, t), SpentIn(es, t), SpentIn(be, t);
    SpentAppend(es, be, t);
    KeepTwice(cs, a + b, lost);
    KeepTwice(cs, a, lost + b);
    assert (a + b) + lost == a + (lost + b);
  }

  /** Cancelling one more block of the old branch. */
  lemma CancelStep(u: Utxo, u': Utxo, s: Store, g: Hash, m: Hash, sp: SpendLists, h: Hash, k: nat)
    requires WellFormed(s, g) && m in s && h in s && k < s[h].height
    requires Ordered(UpTo(s, g, h, k + 1)) && TracksBut(u, s, g, m, sp, h, k + 1)
    requires Reached(BlockEntries(BlockAt(s, g, h, k + 1)), Ids(UpTo(s, g, h, k))) <= Ids(UpTo(s, g, h, k))
    requires CancelledTo(u, u', s, g, m, sp, Path(s, g, h)[k], Ids(BlockEntries(BlockAt(s, g, h, k + 1))),
                         Reached(BlockEntries(BlockAt(s, g, h, k + 1)), Ids(UpTo(s, g, h, k))))
    ensures TracksBut(u', s, g, m, sp, h, k)
  {
    forall t
      ensures Coins(u', t) == Keep(Unspent(UpTo(s, g, h, k), t), Lost(s, g, m, sp, h, k, t))
    {
      CancelStepAt(u, u', s, g, m, sp, h, k, t);
    }
  }

  // ----- adding the new branch to a cache with losses

  /** Every output lost on the old branch is spent on the new one anyway, or its transaction
      is listed there again. */
  ghost predicate LossesSpent(s: Store, g: Hash, m: Hash, sp: SpendLists, h: Hash, k: nat, b: seq<Entry>)
    requires WellFormed(s, g) && m in s && h in s && k <= s[h].height
  {
    forall t, c | t !in Ids(b) && c in Unspent(UpTo(s, g, h, k), t) && c.index in Lost(s, g, m, sp, h, k, t) ::
      c.index in SpentIn(b, t)
  }

  lemma LostWithout(cs: seq<Coin>, lost: set<int>, spent: set<int>)
    ensures Keep(Keep(cs, lost), spent) == Keep(cs, spent) <==>
            forall c | c in cs && c.index in lost :: c.index in spent
  {
    KeepTwice(cs, lost, spent);
    KeepSame(cs, lost + spent, spent);
  }

  lemma SwitchExactAt(u: Utxo, s: Store, g: Hash, m: Hash, sp: SpendLists, h: Hash, k: nat,
                      b: seq<Entry>, keyHash: KeyHash, t: Bytes)
    requires WellFormed(s, g) && m in s && h in s && k <= s[h].height && t !in Ids(b)
    requires TracksBut(u, s, g, m, sp, h, k)
    ensures Coins(Replay(u, b, keyHash), t) == Unspent(UpTo(s, g, h, k) + b, t) <==>
            forall c | c in Unspent(UpTo(s, g, h, k), t) && c.index in Lost(s, g, m, sp, h, k, t) ::
              c.index in SpentIn(b, t)
  {
    var es := UpTo(s, g, h, k);
    CoinsAfterReplay(u, b, keyHash, t);
    SinceIsSpent(b, t);
    SpentAppend(es, b, t);
    LostWithout(Unspent(es, t), Lost(s, g, m, sp, h, k, t), SpentIn(b, t));
    KeepTwice(CoinsAt(es, t), SpentIn(es, t), SpentIn(b, t));
  }

  /** After the switch the cache is that of the new branch exactly when every lost output is
      spent there and no output that was spent comes back. */
  lemma SwitchExact(u: Utxo, s: Store, g: Hash, m: Hash, sp: SpendLists, h: Hash, k: nat,
                    b: seq<Entry>, keyHash: KeyHash)
    requires WellFormed(s, g) && m in s && h in s && k <= s[h].height
    requires TracksBut(u, s, g, m, sp, h, k)
    ensures Tracks(Replay(u, b, keyHash), UpTo(s, g, h, k) + b)
            <==> LossesSpent(s, g, m, sp, h, k, b) && NoneComesBack(UpTo(s, g, h, k), b)
  {
    var es := UpTo(s, g, h, k);
    forall t
      ensures t in Ids(b) ==>
                (Coins(Replay(u, b, keyHash), t) == Unspent(es + b, t) <==> NoneBackAt(es, b, t))
      ensures t !in Ids(b) ==>
                (Coins(Replay(u, b, keyHash), t) == Unspent(es + b, t) <==>
                 forall c | c in Unspent(es, t) && c.index in Lost(s, g, m, sp, h, k, t) :: c.index in SpentIn(b, t))
    {
      if t in Ids(b) {
        ReplayExactAt(u, es, b, keyHash, t);
      } else {
        SwitchExactAt(u, s, g, m, sp, h, k, b, keyHash, t);
      }
    }
  }

  /** Every cancel of the branch of `h` above height k is clean. */
  ghost predicate CleanAbove(s: Store, g: Hash, m: Hash, sp: SpendLists, h: Hash, k: nat)
    requires WellFormed(s, g) && m in s && h in s && k <= s[h].height
  {
    forall j {:trigger CleanAt(s, g, m, sp, h, j)} | k <= j < s[h].height :: CleanAt(s, g, m, sp, h, j)
  }

  ghost predicate CleanAt(s: Store, g: Hash, m: Hash, sp: SpendLists, h: Hash, k: nat)
    requires WellFormed(s, g) && m in s && h in s && k < s[h].height
  {
    CancelClean(s, g, m, sp, BlockAt(s, g, h, k + 1))
  }

  /** Output `c`, if unspent at height k, is not lost. */
  ghost predicate NotLost(s: Store, g: Hash, m: Hash, sp: SpendLists, h: Hash, k: nat, t: Bytes, c: Coin)
    requires WellFormed(s, g) && m in s && h in s && k <= s[h].height
  {
    c in Unspent(UpTo(s, g, h, k), t) ==> c.index !in Lost(s, g, m, sp, h, k, t)
  }

  /** A clean cancel keeps an unspent output, whichever way it treats the record. */
  lemma CleanKeeps(s: Store, g: Hash, m: Hash, sp: SpendLists, h: Hash, k: nat, t: Bytes, c: Coin)
    requires WellFormed(s, g) && m in s && h in s && k < s[h].height
    requires Ordered(PathEntries(s, g, h)) && CleanAt(s, g, m, sp, h, k)
    requires NotLost(s, g, m, sp, h, k + 1, t, c)
    ensures NotLost(s, g, m, sp, h, k, t, c)
  {
    var es, b := UpTo(s, g, h, k), BlockAt(s, g, h, k + 1);
    HasEntry(es, t);
    if c in Unspent(es, t) {
      assert KeepsCoins(s, g, m, sp, b, t);
      if t !in Reached(BlockEntries(b), Ids(es)) {
        StillUnspentAbove(s, g, h, k, t, c);
      }
    }
  }

  lemma NotLostAtEnd(s: Store, g: Hash, m: Hash, sp: SpendLists, h: Hash, k: nat, t: Bytes, c: Coin)
    requires WellFormed(s, g) && m in s && h in s && k == s[h].height
    ensures NotLost(s, g, m, sp, h, k, t, c)
  {
  }

  lemma CleanStep(s: Store, g: Hash, m: Hash, sp: SpendLists, h: Hash, k: nat, t: Bytes, c: Coin)
    requires WellFormed(s, g) && m in s && h in s && k < s[h].height
    requires Ordered(PathEntries(s, g, h)) && CleanAbove(s, g, m, sp, h, k)
    requires NotLost(s, g, m, sp, h, k + 1, t, c)
    ensures NotLost(s, g, m, sp, h, k, t, c)
  {
    assert CleanAt(s, g, m, sp, h, k);
    CleanKeeps(s, g, m, sp, h, k, t, c);
  }

  /** Clean cancels lose nothing. */
  lemma {:induction false} CleanLosesNothing(s: Store, g: Hash, m: Hash, sp: SpendLists, h: Hash, k: nat,
                                             t: Bytes, c: Coin)
    requires WellFormed(s, g) && m in s && h in s && k <= s[h].height
    requires Ordered(PathEntries(s, g, h)) && CleanAbove(s, g, m, sp, h, k)
    ensures NotLost(s, g, m, sp, h, k, t, c)
    decreases s[h].height - k
  {
    if k == s[h].height {
      NotLostAtEnd(s, g, m, sp, h, k, t, c);
    } else {
      CleanLosesNothing(s, g, m, sp, h, k + 1, t, c);
      CleanStep(s, g, m, sp, h, k, t, c);
    }
  }

  lemma StillUnspentAbove(s: Store, g: Hash, h: Hash, k: nat, t: Bytes, c: Coin)
    requires WellFormed(s, g) && h in s && k < s[h].height && Ordered(PathEntries(s, g, h))
    requires c in Unspent(UpTo(s, g, h, k), t) && c.index !in SpentIn(BlockEntries(BlockAt(s, g, h, k + 1)), t)
    ensures c in Unspent(UpTo(s, g, h, k + 1), t)
  {
    UpToStep(s, g, h, k + 1);
    UpToOrdered(s, g, h, k + 1);
    HasEntry(UpTo(s, g, h, k), t);
    StillUnspent(UpTo(s, g, h, k), BlockEntries(BlockAt(s, g, h, k + 1)), t, c);
  }

  lemma StillUnspent(es: seq<Entry>, be: seq<Entry>, t: Bytes, c: Coin)
    requires Ordered(es + be) && t in Ids(es) && c in Unspent(es, t) && c.index !in SpentIn(be, t)
    ensures c in Unspent(es + be, t)
  {
    OrderedFresh(es, be);
    SpentAppend(es, be, t);
    KeepIn(CoinsAt(es, t), SpentIn(es, t), c);
    KeepIn(CoinsAt(es, t), SpentIn(es, t) + SpentIn(be, t), c);
  }

  lemma UpToOrdered(s: Store, g: Hash, h: Hash, k: nat)
    requires WellFormed(s, g) && h in s && k <= s[h].height && Ordered(PathEntries(s, g, h))
    ensures Ordered(UpTo(s, g, h, k))
  {
    PathAt(s, g, h, k);
    SplitAt(s, g, Path(s, g, h)[k], h);
    OrderedPrefix(UpTo(s, g, h, k), EntriesAbove(s, g, h, k));
  }

  /** If every cancel is clean, nothing is lost and the switch is exact. */
  lemma CleanSwitch(s: Store, g: Hash, m: Hash, sp: SpendLists, h: Hash, k: nat, b: seq<Entry>)
    requires WellFormed(s, g) && m in s && h in s && k <= s[h].height
    requires Ordered(PathEntries(s, g, h)) && CleanAbove(s, g, m, sp, h, k)
    ensures LossesSpent(s, g, m, sp, h, k, b)
  {
    forall t, c | c in Unspent(UpTo(s, g, h, k), t)
      ensures c.index !in Lost(s, g, m, sp, h, k, t)
    {
      CleanLosesNothing(s, g, m, sp, h, k, t, c);
    }
  }

  // ----- the two loops of a switch

  /** What cancelling the block at height k + 1 does to the cache. */
  ghost predicate CancelledAt(u: Utxo, u': Utxo, s: Store, g: Hash, m: Hash, sp: SpendLists, h: Hash, k: nat)
    requires WellFormed(s, g) && m in s && h in s && k < s[h].height
  {
    var be, known := BlockEntries(BlockAt(s, g, h, k + 1)), Ids(UpTo(s, g, h, k));
    && Reached(be, known) <= known && Path(s, g, h)[k] in s
    && PathEntries(s, g, Path(s, g, h)[k]) == UpTo(s, g, h, k)
    && CancelledTo(u, u', s, g, m, sp, Path(s, g, h)[k], Ids(be), Reached(be, known))
  }

  type Caches = map<nat, Utxo>

  /** Cancelling the block at height i + 1 turns one cache into the next. */
  ghost predicate CancelledNth(us: Caches, s: Store, g: Hash, m: Hash, sp: SpendLists, h: Hash, i: nat)
    requires WellFormed(s, g) && m in s && h in s && i < s[h].height
  {
    i in us && i + 1 in us && CancelledAt(us[i + 1], us[i], s, g, m, sp, h, i)
  }

  /** The caches met while the branch of `h` is cancelled down to height k. */
  ghost predicate CancelCaches(us: Caches, s: Store, g: Hash, m: Hash, sp: SpendLists, h: Hash, k: nat)
    requires WellFormed(s, g) && m in s && h in s && k <= s[h].height
  {
    forall i {:trigger CancelledNth(us, s, g, m, sp, h, i)} | k <= i < s[h].height ::
      CancelledNth(us, s, g, m, sp, h, i)
  }

  ghost predicate At(us: Caches, i: nat, u: Utxo) {
    i in us && us[i] == u
  }

  /** What cancelling the branch of `h` down to height k does to the cache. */
  ghost predicate CancelledDown(u0: Utxo, u: Utxo, s: Store, g: Hash, m: Hash, sp: SpendLists, h: Hash, k: nat)
    requires WellFormed(s, g) && m in s && h in s && k <= s[h].height
  {
    exists us :: CancelCaches(us, s, g, m, sp, h, k) && At(us, s[h].height, u0) && At(us, k, u)
  }

  lemma CancelNone(u: Utxo, s: Store, g: Hash, m: Hash, sp: SpendLists, h: Hash, k: nat)
    requires WellFormed(s, g) && m in s && h in s && k == s[h].height
    ensures CancelledDown(u, u, s, g, m, sp, h, k)
  {
    var us: Caches := map[k := u];
    assert CancelCaches(us, s, g, m, sp, h, k) && At(us, k, u);
  }

  lemma MoreCaches(us: Caches, u: Utxo, s: Store, g: Hash, m: Hash, sp: SpendLists, h: Hash, k: nat)
    requires WellFormed(s, g) && m in s && h in s && k < s[h].height
    requires CancelCaches(us, s, g, m, sp, h, k + 1)
    requires k + 1 in us && CancelledAt(us[k + 1], u, s, g, m, sp, h, k)
    ensures CancelCaches(us[k := u], s, g, m, sp, h, k)
  {
    var us' := us[k := u];
    forall i | k <= i < s[h].height
      ensures CancelledNth(us', s, g, m, sp, h, i)
    {
      if i > k {
        assert CancelledNth(us, s, g, m, sp, h, i);
      }
    }
  }

  lemma CancelOne(u0: Utxo, u1: Utxo, u: Utxo, s: Store, g: Hash, m: Hash, sp: SpendLists, h: Hash, k: nat)
    requires WellFormed(s, g) && m in s && h in s && k < s[h].height
    requires CancelledDown(u0, u1, s, g, m, sp, h, k + 1) && CancelledAt(u1, u, s, g, m, sp, h, k)
    ensures CancelledDown(u0, u, s, g, m, sp, h, k)
  {
    var us :| CancelCaches(us, s, g, m, sp, h, k + 1) && At(us, s[h].height, u0) && At(us, k + 1, u1);
    MoreCaches(us, u, s, g, m, sp, h, k);
    assert At(us[k := u], s[h].height, u0) && At(us[k := u], k, u);
  }

  lemma CancelledTracksStep(u: Utxo, u': Utxo, s: Store, g: Hash, m: Hash, sp: SpendLists, h: Hash, k: nat)
    requires WellFormed(s, g) && m in s && h in s && k < s[h].height
    requires Ordered(PathEntries(s, g, h)) && TracksBut(u, s, g, m, sp, h, k + 1)
    requires CancelledAt(u, u', s, g, m, sp, h, k)
    ensures TracksBut(u', s, g, m, sp, h, k)
  {
    UpToOrdered(s, g, h, k + 1);
    CancelStep(u, u', s, g, m, sp, h, k);
  }

  lemma {:induction false} CachesTrack(us: Caches, s: Store, g: Hash, m: Hash, sp: SpendLists,
                                       h: Hash, k: nat, i: nat, u: Utxo)
    requires WellFormed(s, g) && m in s && h in s && k <= i <= s[h].height
    requires Ordered(PathEntries(s, g, h)) && CancelCaches(us, s, g, m, sp, h, k)
    requires s[h].height in us && TracksBut(us[s[h].height], s, g, m, sp, h, s[h].height)
    requires At(us, i, u)
    ensures TracksBut(u, s, g, m, sp, h, i)
    decreases s[h].height - i
  {
    if i < s[h].height {
      assert CancelledNth(us, s, g, m, sp, h, i);
      CachesTrack(us, s, g, m, sp, h, k, i + 1, us[i + 1]);
      CancelledTracksStep(us[i + 1], u, s, g, m, sp, h, i);
    }
  }

  lemma CancelledTracks(u0: Utxo, u: Utxo, s: Store, g: Hash, m: Hash, sp: SpendLists, h: Hash, k: nat)
    requires WellFormed(s, g) && m in s && h in s && k <= s[h].height
    requires Ordered(PathEntries(s, g, h)) && Tracks(u0, PathEntries(s, g, h))
    requires CancelledDown(u0, u, s, g, m, sp, h, k)
    ensures TracksBut(u, s, g, m, sp, h, k)
  {
    var us :| CancelCaches(us, s, g, m, sp, h, k) && At(us, s[h].height, u0) && At(us, k, u);
    TracksButStart(u0, s, g, m, sp, h);
    CachesTrack(us, s, g, m, sp, h, k, k, u);
  }

  /** The i-th block on the way down. */
  lemma {:induction false} DownAt(s: Store, g: Hash, h: Hash, k: nat, i: nat)
    requires WellFormed(s, g) && h in s && k <= s[h].height && i < s[h].height - k
    ensures Down(s, g, h, k)[i] == BlockAt(s, g, h, s[h].height - i)
    decreases s[h].height - k
  {
    if i < s[h].height - k - 1 {
      DownAt(s, g, h, k + 1, i);
    }
  }

  lemma AboveStep(s: Store, g: Hash, h: Hash, k: nat, j: nat, added: seq<Entry>)
    requires WellFormed(s, g) && h in s && k <= j < s[h].height
    requires UpTo(s, g, h, k) + added == UpTo(s, g, h, j)
    ensures UpTo(s, g, h, k) + (added + BlockEntries(BlockAt(s, g, h, j + 1))) == UpTo(s, g, h, j + 1)
  {
    UpToStep(s, g, h, j + 1);
  }
}
