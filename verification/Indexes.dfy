/** The tree and the indexes over whole runs.  They do not depend on what the blocks hold, nor on
    how the checks answer: the blocks of these runs need not be proper, and each may be refused
    or stored. */
module Indexes {
  import opened Structures
  import opened Storage
  import opened Tree
  import opened LinkIndex
  import opened Branches
  import opened ChainLedger
  import opened TxIndex
  import opened Blockchain
  import opened NodeState
  import opened Events
  import opened Runs
  import Drop

  ghost predicate SameStore(st: State, st': State) {
    && st'.blocks == st.blocks && st'.top == st.top && st'.chain == st.chain
    && st'.txBlocks == st.txBlocks && st'.spends == st.spends
  }

  /** What storing and indexing a block does to the store. */
  ghost predicate Stored(g: Hash, st: State, b: Block, st': State)
    requires Ready(st, g)
  {
    var r := AddOutcome(st.blocks, st.top, b);
    && Added(r)
    && st'.blocks == st.blocks[b.hash := b]
    && st'.top == (if r.AddedToParallel? then st.top else b.hash)
    && Indexed(st'.blocks, g, st'.chain, st'.top)
    && st'.txBlocks == AddHashes(st.txBlocks, BlockEntries(b))
    && st'.spends == AddSpends(st.spends, BlockEntries(b))
  }

  /** An event leaves the store alone, or a given block that fits is stored. */
  ghost predicate StoreStep(g: Hash, st: State, ev: Event, st': State) {
    && Ready(st, g)
    && (SameStore(st, st') || (ev.BlockGiven? && Fits(st.blocks, g, ev.block) && Stored(g, st, ev.block, st')))
  }

  ghost predicate StoreStepAt(g: Hash, sts: seq<State>, evs: seq<Event>, i: nat)
    requires |sts| == |evs| + 1 && i < |evs|
  {
    StoreStep(g, sts[i], evs[i], sts[i + 1])
  }

  ghost predicate StoreRun(crypto: Crypto, first: Block, sts: seq<State>, evs: seq<Event>) {
    && |sts| == |evs| + 1
    && GenesisOk(first) && Initial(crypto, first, sts[0])
    && forall i {:trigger StoreStepAt(first.hash, sts, evs, i)} | 0 <= i < |evs| :: StoreStepAt(first.hash, sts, evs, i)
  }

  /** Every step over a block that fits is one of these steps. */
  lemma StepStores(crypto: Crypto, g: Hash, st: State, b: Block, st': State)
    requires Ready(st, g) && Fits(st.blocks, g, b) && Step(crypto, g, st, b, st')
    ensures StoreStep(g, st, BlockGiven(b), st')
  {
  }

  lemma EventStores(crypto: Crypto, g: Hash, st: State, ev: Event, st': State)
    requires Ready(st, g) && ProperEvent(st, g, ev) && EventStep(crypto, g, st, ev, st')
    ensures StoreStep(g, st, ev, st')
  {
    if ev.BlockGiven? {
      StepStores(crypto, g, st, ev.block, st');
    }
  }

  lemma RunStores(crypto: Crypto, first: Block, sts: seq<State>, evs: seq<Event>)
    requires Run(crypto, first, sts, evs)
    ensures StoreRun(crypto, first, sts, evs)
  {
    forall i | 0 <= i < |evs|
      ensures StoreStepAt(first.hash, sts, evs, i)
    {
      assert StepAt(crypto, first.hash, sts, evs, i);
      EventStores(crypto, first.hash, sts[i], evs[i], sts[i + 1]);
    }
  }

  /** Links and top follow the tree, and the transaction index is exact. */
  ghost predicate IndexesOk(st: State, g: Hash) {
    && Indexed(st.blocks, g, st.chain, st.top) && TopIsHighest(st.blocks, st.top)
    && IndexMatches(st.blocks, st.txBlocks, st.spends)
    && Drop.NoEmpty(st.txBlocks) && Drop.NoEmpty(st.spends)
  }

  lemma StoreKeeps(g: Hash, st: State, ev: Event, st': State)
    requires IndexesOk(st, g) && StoreStep(g, st, ev, st')
    ensures IndexesOk(st', g)
  {
    if !SameStore(st, st') {
      var b := ev.block;
      IndexingKeepsMatch(st.blocks, st.txBlocks, st.spends, b);
      Drop.AddNoEmpty(st.txBlocks, st.spends, BlockEntries(b));
    }
  }

  /** In every state of every such run the indexes agree with the tree, whatever the blocks
      hold. */
  lemma {:induction false} RunKeepsIndexes(crypto: Crypto, first: Block, sts: seq<State>, evs: seq<Event>, i: nat)
    requires StoreRun(crypto, first, sts, evs) && i < |sts|
    ensures IndexesOk(sts[i], first.hash)
  {
    if i == 0 {
      InitialCore(crypto, first, sts[0]);
      Drop.AddNoEmpty(map[], map[], BlockEntries(first));
    } else {
      var k := i - 1;
      RunKeepsIndexes(crypto, first, sts, evs, k);
      assert StoreStepAt(first.hash, sts, evs, k);
      StoreKeeps(first.hash, sts[k], evs[k], sts[i]);
    }
  }

  /** The link index of every state is the doubly linked list of the primary branch. */
  lemma RunLinks(crypto: Crypto, first: Block, sts: seq<State>, evs: seq<Event>, i: nat, h: Hash)
    requires StoreRun(crypto, first, sts, evs) && i < |sts|
    ensures Ready(sts[i], first.hash)
    ensures h in sts[i].chain <==> Ancestor(sts[i].blocks, first.hash, h, sts[i].top)
    ensures h in sts[i].chain ==> Uniform(sts[i].chain, |h|)
    ensures h in sts[i].chain ==>
              var c := sts[i].chain;
              && (PrevOf(c, h) == [] <==> h == first.hash)
              && (NextOf(c, h) == [] <==> h == sts[i].top)
              && (PrevOf(c, h) != [] ==> PrevOf(c, h) in c && NextOf(c, PrevOf(c, h)) == h)
              && (NextOf(c, h) != [] ==> NextOf(c, h) in c && PrevOf(c, NextOf(c, h)) == h)
  {
    RunKeepsIndexes(crypto, first, sts, evs, i);
    var st := sts[i];
    InIndex(st.blocks, first.hash, st.chain, st.top, h);
    if h in st.chain {
      LinksInverse(st.chain, Path(st.blocks, first.hash, st.top), h);
    }
  }
}
