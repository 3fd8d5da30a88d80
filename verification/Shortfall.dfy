/** What undoing may lose is all that ever goes wrong with the cache of proper blocks: it never
    holds more than the unspent outputs of its branch. */
module Shortfall {
  import opened Structures
  import opened Tree
  import opened Ledger
  import opened ChainLedger
  import opened TxIndex
  import opened UnspentCache
  import opened Switch
  import opened Blockchain
  import opened NodeState

  /** The record of `t` holds its unspent outputs, in order, but for those that are lost. */
  ghost predicate Short(u: Utxo, es: seq<Entry>, t: Bytes, lost: set<int>) {
    Coins(u, t) == Keep(Unspent(es, t), lost)
  }

  ghost predicate ShortAt(u: Utxo, es: seq<Entry>, t: Bytes) {
    exists lost :: Short(u, es, t, lost)
  }

  /** The cache holds nothing but unspent outputs of the chain, each once. */
  ghost predicate Within(u: Utxo, es: seq<Entry>) {
    forall t {:trigger ShortAt(u, es, t)} :: ShortAt(u, es, t)
  }

  lemma TracksWithin(u: Utxo, es: seq<Entry>)
    requires Tracks(u, es)
    ensures Within(u, es)
  {
    forall t
      ensures ShortAt(u, es, t)
    {
      KeepNone(Unspent(es, t));
      assert Short(u, es, t, {});
    }
  }

  lemma WithinHas(u: Utxo, es: seq<Entry>, t: Bytes, c: Coin)
    requires Within(u, es) && c in Coins(u, t)
    ensures c in Unspent(es, t) && c in CoinsAt(es, t) && c.index !in SpentIn(es, t)
  {
    assert ShortAt(u, es, t);
    var lost :| Short(u, es, t, lost);
    KeepIn(Unspent(es, t), lost, c);
    KeepIn(CoinsAt(es, t), SpentIn(es, t), c);
  }

  lemma WithinUnknown(u: Utxo, es: seq<Entry>, t: Bytes)
    requires Within(u, es) && t !in Ids(es)
    ensures Coins(u, t) == []
  {
    if Coins(u, t) != [] {
      WithinHas(u, es, t, Coins(u, t)[0]);
      HasEntry(es, t);
    }
  }

  lemma ReplayShort(u: Utxo, a: seq<Entry>, b: seq<Entry>, keyHash: KeyHash, t: Bytes)
    requires ShortAt(u, a, t) && Ordered(a + b)
    ensures ShortAt(Replay(u, b, keyHash), a + b, t)
  {
    CoinsAfterReplay(u, b, keyHash, t);
    SpentAppend(a, b, t);
    if t in Ids(b) {
      OrderedSince(a, b, t);
      KeepNone(Unspent(a + b, t));
      assert Short(Replay(u, b, keyHash), a + b, t, {});
    } else {
      SinceIsSpent(b, t);
      var lost :| Short(u, a, t, lost);
      KeepTwice(Unspent(a, t), lost, SpentIn(b, t));
      KeepTwice(CoinsAt(a, t), SpentIn(a, t), SpentIn(b, t));
      KeepTwice(Unspent(a, t), SpentIn(b, t), lost);
      assert lost + SpentIn(b, t) == SpentIn(b, t) + lost;
      assert Short(Replay(u, b, keyHash), a + b, t, lost);
    }
  }

  lemma ReplayWithin(u: Utxo, a: seq<Entry>, b: seq<Entry>, keyHash: KeyHash)
    requires Within(u, a) && Ordered(a + b)
    ensures Within(Replay(u, b, keyHash), a + b)
  {
    forall t
      ensures ShortAt(Replay(u, b, keyHash), a + b, t)
    {
      assert ShortAt(u, a, t);
      ReplayShort(u, a, b, keyHash, t);
    }
  }

  // ----- cancelling

  lemma CancelShort(u: Utxo, u': Utxo, s: Store, g: Hash, m: Hash, sp: SpendLists, h: Hash, k: nat, t: Bytes)
    requires WellFormed(s, g) && m in s && h in s && k < s[h].height
    requires Ordered(UpTo(s, g, h, k + 1)) && CancelledAt(u, u', s, g, m, sp, h, k)
    requires ShortAt(u, UpTo(s, g, h, k + 1), t)
    ensures ShortAt(u', UpTo(s, g, h, k), t)
  {
    var es, be := UpTo(s, g, h, k), BlockEntries(BlockAt(s, g, h, k + 1));
    UpToStep(s, g, h, k + 1);
    OrderedFresh(es, be);
    SpentAppend(es, be, t);
    HasEntry(es, t);
    if t in Reached(be, Ids(es)) {
      var strays := Strays(s, g, m, sp, Path(s, g, h)[k], t);
      KeepTwice(CoinsAt(es, t), SpentIn(es, t), strays);
      assert Short(u', es, t, strays);
    } else if t in Ids(be) {
      assert Short(u', es, t, {});
    } else {
      var lost :| Short(u, es + be, t, lost);
      KeepTwice(CoinsAt(es, t), SpentIn(es, t), SpentIn(be, t));
      KeepTwice(Unspent(es, t), SpentIn(be, t), lost);
      assert Short(u', es, t, SpentIn(be, t) + lost);
    }
  }

  lemma CancelWithin(u: Utxo, u': Utxo, s: Store, g: Hash, m: Hash, sp: SpendLists, h: Hash, k: nat, k': nat)
    requires WellFormed(s, g) && m in s && h in s && k < s[h].height && k' == k + 1
    requires Ordered(PathEntries(s, g, h)) && CancelledAt(u, u', s, g, m, sp, h, k)
    requires Within(u, UpTo(s, g, h, k'))
    ensures Within(u', UpTo(s, g, h, k))
  {
    UpToOrdered(s, g, h, k');
    forall t
      ensures ShortAt(u', UpTo(s, g, h, k), t)
    {
      assert ShortAt(u, UpTo(s, g, h, k'), t);
      CancelShort(u, u', s, g, m, sp, h, k, t);
    }
  }

  lemma {:induction false} CachesWithin(us: Caches, s: Store, g: Hash, m: Hash, sp: SpendLists, h: Hash, k: nat, i: nat)
    requires WellFormed(s, g) && m in s && h in s && k <= i <= s[h].height
    requires Ordered(PathEntries(s, g, h)) && CancelCaches(us, s, g, m, sp, h, k)
    requires s[h].height in us && Within(us[s[h].height], PathEntries(s, g, h))
    ensures i in us && Within(us[i], UpTo(s, g, h, i))
    decreases s[h].height - i
  {
    if i < s[h].height {
      var k' := i + 1;
      assert CancelledNth(us, s, g, m, sp, h, i);
      CachesWithin(us, s, g, m, sp, h, k, k');
      CancelWithin(us[k'], us[i], s, g, m, sp, h, i, k');
    } else {
      assert UpTo(s, g, h, i) == PathEntries(s, g, h);
    }
  }

  // ----- steps

  lemma SwitchWithin(crypto: Crypto, st: State, g: Hash, st': State)
    requires WellFormed(st'.blocks, g) && st.top in st'.blocks && st'.top in st'.blocks
    requires Sound(PathEntries(st'.blocks, g, st.top)) && Sound(PathEntries(st'.blocks, g, st'.top))
    requires Within(st.unspent, PathEntries(st'.blocks, g, st.top)) && Switched(crypto, st, g, st')
    ensures Within(st'.unspent, PathEntries(st'.blocks, g, st'.top))
  {
    var s, f, b := st'.blocks, ForkHeight(st'.blocks, g, st.top, st'.top), NewEntriesOf(st, g, st');
    var u :| CancelledDown(st.unspent, u, s, g, st'.top, st'.spends, st.top, f)
             && st'.unspent == Replay(u, b, crypto.keyHash);
    var us :| CancelCaches(us, s, g, st'.top, st'.spends, st.top, f) && At(us, s[st.top].height, st.unspent)
              && At(us, f, u);
    CachesWithin(us, s, g, st'.top, st'.spends, st.top, f, f);
    NewBranch(s, g, st.top, st'.top);
    ReplayWithin(u, UpTo(s, g, st.top, f), b, crypto.keyHash);
  }

  /** Every step over a proper block keeps the cache within the unspent outputs, whatever it
      has lost before. */
  lemma StepWithin(crypto: Crypto, st: State, g: Hash, b: Block, st': State)
    requires Core(st, g) && Proper(st.blocks, g, b) && Step(crypto, g, st, b, st')
    requires Within(st.unspent, PathEntries(st.blocks, g, st.top))
    ensures Core(st', g) && Within(st'.unspent, PathEntries(st'.blocks, g, st'.top))
  {
    var r := Outcome(crypto, st, g, b);
    ProperKeepsCore(crypto, st, g, b, st');
    if Added(r) {
      StepPaths(crypto, st, g, b, st');
      assert Sound(PathEntries(st'.blocks, g, st'.top));
      if r.AddedToTop? {
        ReplayWithin(st.unspent, PathEntries(st.blocks, g, st.top), BlockEntries(b), crypto.keyHash);
      } else if r.AddedToParallelTop? {
        SwitchWithin(crypto, st, g, st');
      }
    }
  }
}
