/** Whole runs: any sequence of events from the genesis block on, in any order: blocks given
    to the node, transactions submitted, blocks prepared, transactions cancelled. */
module Runs {
  import opened Structures
  import opened Storage
  import opened Tree
  import opened LinkIndex
  import opened Ledger
  import opened ChainLedger
  import opened TxIndex
  import opened Blockchain
  import opened NodeState
  import opened Shortfall
  import opened Events

  /** A block that can be the first: height 0, nothing before it, a sound list of
      transactions. */
  ghost predicate GenesisOk(b: Block) {
    && |b.hash| > 0 && b.hash != Zeros(|b.hash|)
    && b.height == 0 && b.prevBlockHash == []
    && Sound(BlockEntries(b)) && [] !in Ids(BlockEntries(b))
  }

  /** The state of a node that has stored the genesis block and nothing else. */
  ghost predicate Initial(crypto: Crypto, b: Block, st: State) {
    && st.blocks == map[b.hash := b] && st.top == b.hash
    && st.chain == map[b.hash := Zeros(|b.hash|) + Zeros(|b.hash|)]
    && st.txBlocks == AddHashes(map[], BlockEntries(b))
    && st.spends == AddSpends(map[], BlockEntries(b))
    && st.unspent == Replay(map[], BlockEntries(b), crypto.keyHash)
    && st.pool == map[]
  }

  lemma GenesisTree(b: Block)
    requires GenesisOk(b)
    ensures var s: Store := map[b.hash := b];
            && WellFormed(s, b.hash) && TopIsHighest(s, b.hash)
            && Path(s, b.hash, b.hash) == [b.hash]
            && PathEntries(s, b.hash, b.hash) == BlockEntries(b)
  {
    var s: Store := map[b.hash := b];
    assert NodeOk(s, b.hash, b.hash);
  }

  lemma InitialCore(crypto: Crypto, b: Block, st: State)
    requires GenesisOk(b) && Initial(crypto, b, st)
    ensures Core(st, b.hash)
  {
    var g := b.hash;
    GenesisTree(b);
    assert [g][0] == g && HashAt([g], 0);
    FirstLink(g);
    assert st.chain == AddLink(map[], g, []);
    var empty: Store := map[];
    assert IndexMatches(empty, map[], map[]);
    IndexingKeepsMatch(empty, map[], map[], b);
    assert empty[g := b] == st.blocks;
  }

  lemma InitialCache(crypto: Crypto, b: Block, st: State)
    requires GenesisOk(b) && Initial(crypto, b, st)
    ensures Tracks(st.unspent, BlockEntries(b)) && Within(st.unspent, BlockEntries(b))
  {
    ReplayIsUnspent(BlockEntries(b), crypto.keyHash);
    TracksWithin(st.unspent, BlockEntries(b));
  }

  lemma InitialState(crypto: Crypto, b: Block, st: State)
    requires GenesisOk(b) && Initial(crypto, b, st)
    ensures StateOk(st, b.hash) && CacheOk(st, b.hash) && PoolOk(st, b.hash)
  {
    GenesisTree(b);
    InitialCore(crypto, b, st);
    InitialCache(crypto, b, st);
  }

  ghost predicate Ready(st: State, g: Hash) {
    WellFormed(st.blocks, g) && st.top in st.blocks
  }

  /** The i-th event is proper in the i-th state and leads to the next one. */
  ghost predicate StepAt(crypto: Crypto, g: Hash, sts: seq<State>, evs: seq<Event>, i: nat)
    requires |sts| == |evs| + 1 && i < |evs|
  {
    Ready(sts[i], g) && ProperEvent(sts[i], g, evs[i]) && EventStep(crypto, g, sts[i], evs[i], sts[i + 1])
  }

  ghost predicate Run(crypto: Crypto, first: Block, sts: seq<State>, evs: seq<Event>) {
    && |sts| == |evs| + 1
    && GenesisOk(first) && Initial(crypto, first, sts[0])
    && forall i {:trigger StepAt(crypto, first.hash, sts, evs, i)} | 0 <= i < |evs| ::
         StepAt(crypto, first.hash, sts, evs, i)
  }

  ghost predicate StateOkAt(g: Hash, sts: seq<State>, i: nat)
    requires i < |sts|
  {
    StateOk(sts[i], g)
  }

  ghost predicate CacheOkAt(g: Hash, sts: seq<State>, i: nat)
    requires i < |sts|
  {
    Ready(sts[i], g) && CacheOk(sts[i], g)
  }

  /** The i-th event moves the top to another branch. */
  ghost predicate SwitchAt(crypto: Crypto, g: Hash, sts: seq<State>, evs: seq<Event>, i: nat)
    requires |sts| == |evs| + 1 && i < |evs| && Ready(sts[i], g)
  {
    evs[i].BlockGiven? && Outcome(crypto, sts[i], g, evs[i].block).AddedToParallelTop?
  }

  /** The i-th event is no switch, or a harmless one. */
  ghost predicate HarmlessAt(crypto: Crypto, g: Hash, sts: seq<State>, evs: seq<Event>, i: nat)
    requires |sts| == |evs| + 1 && i < |evs|
  {
    && Ready(sts[i], g) && Ready(sts[i + 1], g) && sts[i].top in sts[i + 1].blocks
    && (SwitchAt(crypto, g, sts, evs, i) ==> Harmless(sts[i], g, sts[i + 1]))
  }

  ghost predicate SimpleAt(crypto: Crypto, g: Hash, sts: seq<State>, evs: seq<Event>, i: nat)
    requires |sts| == |evs| + 1 && i < |evs|
  {
    && Ready(sts[i], g) && Ready(sts[i + 1], g) && sts[i].top in sts[i + 1].blocks
    && (SwitchAt(crypto, g, sts, evs, i) ==> SimpleSwitch(sts[i], g, sts[i + 1]))
  }

  lemma StateStep(crypto: Crypto, first: Block, sts: seq<State>, evs: seq<Event>, i: nat, k: nat)
    requires Run(crypto, first, sts, evs) && i < |evs| && StateOkAt(first.hash, sts, i) && k == i + 1
    ensures StateOkAt(first.hash, sts, k)
  {
    assert StepAt(crypto, first.hash, sts, evs, i);
    EventKeepsOk(crypto, sts[i], first.hash, evs[i], sts[i + 1]);
  }

  /** In every state of every run tree, link index, transaction index and pool are right:
      in particular no two pooled transactions ever share an input. */
  lemma {:induction false} RunKeepsState(crypto: Crypto, first: Block, sts: seq<State>, evs: seq<Event>, i: nat)
    requires Run(crypto, first, sts, evs) && i < |sts|
    ensures StateOkAt(first.hash, sts, i)
  {
    if i == 0 {
      InitialState(crypto, first, sts[0]);
    } else {
      RunKeepsState(crypto, first, sts, evs, i - 1);
      StateStep(crypto, first, sts, evs, i - 1, i);
    }
  }

  /** Whatever undoing has lost, in every state of every run the cache holds nothing but
      outputs that are unspent on the primary branch. */
  lemma RunNeverOverstates(crypto: Crypto, first: Block, sts: seq<State>, evs: seq<Event>, i: nat, t: Bytes, c: Coin)
    requires Run(crypto, first, sts, evs) && i < |sts|
    ensures Ready(sts[i], first.hash)
    ensures c in Coins(sts[i].unspent, t) ==> c in Unspent(PathEntries(sts[i].blocks, first.hash, sts[i].top), t)
  {
    RunKeepsState(crypto, first, sts, evs, i);
    if c in Coins(sts[i].unspent, t) {
      WithinHas(sts[i].unspent, PathEntries(sts[i].blocks, first.hash, sts[i].top), t, c);
    }
  }

  // ----- the cache

  lemma EventCache(crypto: Crypto, st: State, g: Hash, ev: Event, st': State)
    requires StateOk(st, g) && ProperEvent(st, g, ev) && EventStep(crypto, g, st, ev, st') && CacheOk(st, g)
    ensures Ready(st', g) && st.top in st'.blocks
    ensures CacheOk(st', g) <==>
            (ev.BlockGiven? && Outcome(crypto, st, g, ev.block).AddedToParallelTop? ==> Harmless(st, g, st'))
  {
    if ev.BlockGiven? {
      ProperCache(crypto, st, g, ev.block, st');
    }
  }

  lemma CacheStep(crypto: Crypto, first: Block, sts: seq<State>, evs: seq<Event>, i: nat, k: nat)
    requires Run(crypto, first, sts, evs) && i < |evs| && k == i + 1
    requires CacheOkAt(first.hash, sts, i)
    ensures CacheOkAt(first.hash, sts, k) <==> HarmlessAt(crypto, first.hash, sts, evs, i)
  {
    RunKeepsState(crypto, first, sts, evs, i);
    assert StepAt(crypto, first.hash, sts, evs, i);
    EventCache(crypto, sts[i], first.hash, evs[i], sts[i + 1]);
  }

  lemma {:induction false} CacheUpTo(crypto: Crypto, first: Block, sts: seq<State>, evs: seq<Event>, n: nat)
    requires Run(crypto, first, sts, evs) && n < |sts|
    requires forall i {:trigger HarmlessAt(crypto, first.hash, sts, evs, i)} | 0 <= i < n ::
               HarmlessAt(crypto, first.hash, sts, evs, i)
    ensures CacheOkAt(first.hash, sts, n)
  {
    if n == 0 {
      InitialState(crypto, first, sts[0]);
    } else {
      var k := n - 1;
      CacheUpTo(crypto, first, sts, evs, k);
      assert HarmlessAt(crypto, first.hash, sts, evs, k);
      CacheStep(crypto, first, sts, evs, k, n);
    }
  }

  /** The cache is right throughout a run exactly when every switch of it is harmless. */
  lemma RunExact(crypto: Crypto, first: Block, sts: seq<State>, evs: seq<Event>)
    requires Run(crypto, first, sts, evs)
    ensures (forall i {:trigger CacheOkAt(first.hash, sts, i)} | 0 <= i < |sts| :: CacheOkAt(first.hash, sts, i))
            <==>
            (forall i {:trigger HarmlessAt(crypto, first.hash, sts, evs, i)} | 0 <= i < |evs| ::
               HarmlessAt(crypto, first.hash, sts, evs, i))
  {
    if forall i {:trigger CacheOkAt(first.hash, sts, i)} | 0 <= i < |sts| :: CacheOkAt(first.hash, sts, i) {
      forall i | 0 <= i < |evs|
        ensures HarmlessAt(crypto, first.hash, sts, evs, i)
      {
        assert CacheOkAt(first.hash, sts, i) && CacheOkAt(first.hash, sts, i + 1);
        CacheStep(crypto, first, sts, evs, i, i + 1);
      }
    }
    if forall i {:trigger HarmlessAt(crypto, first.hash, sts, evs, i)} | 0 <= i < |evs| ::
         HarmlessAt(crypto, first.hash, sts, evs, i)
    {
      forall n | 0 <= n < |sts|
        ensures CacheOkAt(first.hash, sts, n)
      {
        CacheUpTo(crypto, first, sts, evs, n);
      }
    }
  }

  /** Whatever block of the right shape a run is given next: a correct cache
      stays correct exactly when no spent output comes back and no lost one is missed. */
  lemma NextExact(crypto: Crypto, first: Block, sts: seq<State>, evs: seq<Event>, b: Block, st': State)
    requires Run(crypto, first, sts, evs) && CacheOkAt(first.hash, sts, |evs|)
    requires Shaped(sts[|evs|].blocks, first.hash, b) && Step(crypto, first.hash, sts[|evs|], b, st')
    ensures Ready(st', first.hash) && sts[|evs|].top in st'.blocks
    ensures CacheOk(st', first.hash) <==> KeepsCache(crypto, sts[|evs|], first.hash, b, st')
  {
    RunKeepsState(crypto, first, sts, evs, |evs|);
    StepCache(crypto, sts[|evs|], first.hash, b, st');
  }

  /** When at every switch side branches start at the fork or above and the inputs of the
      old branch stand in order, the cache always equals the replay of the primary branch
      from the genesis block. */
  lemma RunReplays(crypto: Crypto, first: Block, sts: seq<State>, evs: seq<Event>, n: nat, t: Bytes)
    requires Run(crypto, first, sts, evs) && n < |sts|
    requires forall i {:trigger SimpleAt(crypto, first.hash, sts, evs, i)} | 0 <= i < n ::
               SimpleAt(crypto, first.hash, sts, evs, i)
    ensures Ready(sts[n], first.hash)
    ensures Coins(sts[n].unspent, t)
            == Coins(Replay(map[], PathEntries(sts[n].blocks, first.hash, sts[n].top), crypto.keyHash), t)
  {
    forall i | 0 <= i < n
      ensures HarmlessAt(crypto, first.hash, sts, evs, i)
    {
      assert SimpleAt(crypto, first.hash, sts, evs, i);
      SimpleStepHarmless(crypto, first, sts, evs, i);
    }
    CacheUpTo(crypto, first, sts, evs, n);
    RunKeepsState(crypto, first, sts, evs, n);
    var es := PathEntries(sts[n].blocks, first.hash, sts[n].top);
    assert Sound(es);
    ReplayIsUnspent(es, crypto.keyHash);
  }

  lemma SimpleStepHarmless(crypto: Crypto, first: Block, sts: seq<State>, evs: seq<Event>, i: nat)
    requires Run(crypto, first, sts, evs) && i < |evs|
    requires SimpleAt(crypto, first.hash, sts, evs, i)
    ensures HarmlessAt(crypto, first.hash, sts, evs, i)
  {
    var g, st, st' := first.hash, sts[i], sts[i + 1];
    if SwitchAt(crypto, g, sts, evs, i) {
      RunKeepsState(crypto, first, sts, evs, i + 1);
      assert Sound(PathEntries(st'.blocks, g, st.top)) && Sound(PathEntries(st'.blocks, g, st'.top));
      SimpleIsHarmless(st, g, st');
    }
  }

  // ----- the pool and the primary branch

  ghost predicate ClearAt(g: Hash, sts: seq<State>, i: nat)
    requires i < |sts|
  {
    Ready(sts[i], g) && ClearOf(sts[i].pool, sts[i].blocks, g, sts[i].top)
  }

  /** The i-th event submits a payment of the primary branch that has no inputs. */
  ghost predicate ResubmitsEmpty(g: Hash, sts: seq<State>, evs: seq<Event>, i: nat)
    requires |sts| == |evs| + 1 && i < |evs|
  {
    Ready(sts[i], g) && evs[i].TxSubmitted? && Mined(sts[i], g, evs[i].tx) && evs[i].tx.vin == []
  }

  /** Where a transaction is submitted ids stand for one transaction. */
  ghost predicate SubmitsWell(g: Hash, sts: seq<State>, evs: seq<Event>, i: nat)
    requires |sts| == |evs| + 1 && i < |evs|
  {
    evs[i].TxSubmitted? ==> Ready(sts[i], g) && IdsAgree(sts[i], g, evs[i].tx)
  }

  lemma ClearStep(crypto: Crypto, first: Block, sts: seq<State>, evs: seq<Event>, i: nat)
    requires Run(crypto, first, sts, evs) && i < |evs| && SubmitsWell(first.hash, sts, evs, i)
    requires ClearAt(first.hash, sts, i)
    ensures ClearAt(first.hash, sts, i + 1) <==> !ResubmitsEmpty(first.hash, sts, evs, i)
  {
    var g := first.hash;
    RunKeepsState(crypto, first, sts, evs, i);
    assert StepAt(crypto, g, sts, evs, i);
    if evs[i].TxSubmitted? {
      SubmitClear(crypto, sts[i], g, evs[i].tx);
    } else {
      EventKeepsClear(crypto, sts[i], g, evs[i], sts[i + 1]);
    }
  }

  lemma {:induction false} ClearUpTo(crypto: Crypto, first: Block, sts: seq<State>, evs: seq<Event>, n: nat)
    requires Run(crypto, first, sts, evs) && n < |sts|
    requires forall i {:trigger SubmitsWell(first.hash, sts, evs, i)} | 0 <= i < |evs| ::
               SubmitsWell(first.hash, sts, evs, i)
    requires forall i {:trigger ResubmitsEmpty(first.hash, sts, evs, i)} | 0 <= i < n ::
               !ResubmitsEmpty(first.hash, sts, evs, i)
    ensures ClearAt(first.hash, sts, n)
  {
    if n == 0 {
      InitialState(crypto, first, sts[0]);
    } else {
      ClearUpTo(crypto, first, sts, evs, n - 1);
      assert SubmitsWell(first.hash, sts, evs, n - 1) && !ResubmitsEmpty(first.hash, sts, evs, n - 1);
      ClearStep(crypto, first, sts, evs, n - 1);
    }
  }

  /** No transaction of the primary branch is ever in the pool, exactly when no payment of
      that branch without inputs is submitted again. */
  lemma RunClear(crypto: Crypto, first: Block, sts: seq<State>, evs: seq<Event>)
    requires Run(crypto, first, sts, evs)
    requires forall i {:trigger SubmitsWell(first.hash, sts, evs, i)} | 0 <= i < |evs| ::
               SubmitsWell(first.hash, sts, evs, i)
    ensures (forall i {:trigger ClearAt(first.hash, sts, i)} | 0 <= i < |sts| :: ClearAt(first.hash, sts, i))
            <==>
            (forall i {:trigger ResubmitsEmpty(first.hash, sts, evs, i)} | 0 <= i < |evs| ::
               !ResubmitsEmpty(first.hash, sts, evs, i))
  {
    if forall i {:trigger ClearAt(first.hash, sts, i)} | 0 <= i < |sts| :: ClearAt(first.hash, sts, i) {
      forall i | 0 <= i < |evs|
        ensures !ResubmitsEmpty(first.hash, sts, evs, i)
      {
        assert ClearAt(first.hash, sts, i) && ClearAt(first.hash, sts, i + 1);
        assert SubmitsWell(first.hash, sts, evs, i);
        ClearStep(crypto, first, sts, evs, i);
      }
    }
    if forall i {:trigger ResubmitsEmpty(first.hash, sts, evs, i)} | 0 <= i < |evs| ::
         !ResubmitsEmpty(first.hash, sts, evs, i)
    {
      forall n | 0 <= n < |sts|
        ensures ClearAt(first.hash, sts, n)
      {
        ClearUpTo(crypto, first, sts, evs, n);
      }
    }
  }
}
