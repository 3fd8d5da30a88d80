/** A run can always go on: whatever block a node is given, some state comes next. */
module Continuation {
  import opened Structures
  import opened Storage
  import opened Tree
  import opened LinkIndex
  import opened Branches
  import opened Ledger
  import opened ChainLedger
  import opened TxIndex
  import opened UnspentCache
  import opened Pending
  import opened Switch
  import opened Blockchain
  import opened NodeState
  import opened Events
  import opened Runs

  /** A record whose compared part is the coin. */
  ghost function OutputOf(c: Coin): Output {
    Output(c.value, c.owner, [], c.txid, c.index, false, c.block)
  }

  ghost function OutputsOf(cs: seq<Coin>): (r: seq<Output>)
    ensures Strip(r) == cs
  {
    seq(|cs|, i requires 0 <= i < |cs| => OutputOf(cs[i]))
  }

  /** The coins a cancel leaves of a transaction. */
  ghost function Left(u: Utxo, s: Store, g: Hash, m: Hash, sp: SpendLists, prev: Hash, gone: set<Bytes>,
                      back: set<Bytes>, t: Bytes): seq<Coin>
    requires WellFormed(s, g) && m in s && prev in s && back <= Ids(PathEntries(s, g, prev))
  {
    if t in back then Restored(s, g, m, sp, prev, t) else if t in gone then [] else Coins(u, t)
  }

  lemma CancelledToExists(u: Utxo, s: Store, g: Hash, m: Hash, sp: SpendLists, prev: Hash, gone: set<Bytes>,
                          back: set<Bytes>) returns (u': Utxo)
    requires WellFormed(s, g) && m in s && prev in s && back <= Ids(PathEntries(s, g, prev))
    ensures CancelledTo(u, u', s, g, m, sp, prev, gone, back)
  {
    u' := map t | t in u.Keys + back :: OutputsOf(Left(u, s, g, m, sp, prev, gone, back, t));
    forall t
      ensures Coins(u', t) == Left(u, s, g, m, sp, prev, gone, back, t)
    {
    }
  }

  lemma CancelledAtExists(u: Utxo, s: Store, g: Hash, m: Hash, sp: SpendLists, h: Hash, k: nat) returns (u': Utxo)
    requires WellFormed(s, g) && m in s && h in s && k < s[h].height
    ensures CancelledAt(u, u', s, g, m, sp, h, k)
  {
    var be, known := BlockEntries(BlockAt(s, g, h, k + 1)), Ids(UpTo(s, g, h, k));
    PathAt(s, g, h, k);
    ReachedKnown(be, known);
    u' := CancelledToExists(u, s, g, m, sp, Path(s, g, h)[k], Ids(be), Reached(be, known));
  }

  lemma {:induction false} CancelledDownExists(u0: Utxo, s: Store, g: Hash, m: Hash, sp: SpendLists, h: Hash, k: nat)
    returns (u: Utxo)
    requires WellFormed(s, g) && m in s && h in s && k <= s[h].height
    ensures CancelledDown(u0, u, s, g, m, sp, h, k)
    decreases s[h].height - k
  {
    if k == s[h].height {
      u := u0;
      CancelNone(u0, s, g, m, sp, h, k);
    } else {
      var u1 := CancelledDownExists(u0, s, g, m, sp, h, k + 1);
      u := CancelledAtExists(u1, s, g, m, sp, h, k);
      CancelOne(u0, u1, u, s, g, m, sp, h, k);
    }
  }

  lemma LinksExist(s: Store, g: Hash, m: Hash) returns (c: Links)
    requires WellFormed(s, g) && m in s
    ensures Indexed(s, g, c, m)
  {
    GoodPathOf(s, g, m);
    c := IndexOf(Path(s, g, m));
  }

  lemma SwitchExists(crypto: Crypto, st: State, g: Hash, st1: State) returns (st': State)
    requires WellFormed(st1.blocks, g) && st.top in st1.blocks && st1.top in st1.blocks
    ensures st' == st1.(unspent := st'.unspent, pool := st'.pool)
    ensures Switched(crypto, st, g, st')
  {
    var s, f := st1.blocks, ForkHeight(st1.blocks, g, st.top, st1.top);
    var u := CancelledDownExists(st.unspent, s, g, st1.top, st1.spends, st.top, f);
    st' := st1.(unspent := Replay(u, EntriesAbove(s, g, st1.top, f), crypto.keyHash),
                pool := PoolApprove(PoolCancel(st.pool, Down(s, g, st.top, f)), Reverse(Down(s, g, st1.top, f))));
  }

  /** Every block of the right shape leads from every good state to a next one. */
  lemma StepExists(crypto: Crypto, st: State, g: Hash, b: Block) returns (st': State)
    requires Core(st, g) && Shaped(st.blocks, g, b)
    ensures Step(crypto, g, st, b, st')
  {
    var r := Outcome(crypto, st, g, b);
    if !Added(r) {
      st' := st;
    } else {
      StoredTree(st, g, b);
      var s', top' := st.blocks[b.hash := b], if r.AddedToParallel? then st.top else b.hash;
      var c := LinksExist(s', g, top');
      st' := State(s', top', c, AddHashes(st.txBlocks, BlockEntries(b)), AddSpends(st.spends, BlockEntries(b)),
                   st.unspent, st.pool);
      if r.AddedToTop? {
        st' := st'.(unspent := Replay(st.unspent, BlockEntries(b), crypto.keyHash),
                    pool := st.pool - ApprovedIds(b.transactions));
      } else if r.AddedToParallelTop? {
        st' := SwitchExists(crypto, st, g, st');
      }
    }
  }

  // ----- runs

  lemma RunSnoc(crypto: Crypto, first: Block, sts: seq<State>, evs: seq<Event>, ev: Event, st': State)
    requires Run(crypto, first, sts, evs)
    requires Ready(sts[|evs|], first.hash) && ProperEvent(sts[|evs|], first.hash, ev)
    requires EventStep(crypto, first.hash, sts[|evs|], ev, st')
    ensures Run(crypto, first, sts + [st'], evs + [ev])
  {
    var sts', evs' := sts + [st'], evs + [ev];
    forall i | 0 <= i < |evs'|
      ensures StepAt(crypto, first.hash, sts', evs', i)
    {
      if i < |evs| {
        assert StepAt(crypto, first.hash, sts, evs, i);
      }
    }
  }

  /** Every run goes on with every proper block. */
  lemma RunGoesOn(crypto: Crypto, first: Block, sts: seq<State>, evs: seq<Event>, b: Block) returns (st': State)
    requires Run(crypto, first, sts, evs)
    requires Ready(sts[|evs|], first.hash) && Proper(sts[|evs|].blocks, first.hash, b)
    ensures Step(crypto, first.hash, sts[|evs|], b, st')
    ensures Run(crypto, first, sts + [st'], evs + [BlockGiven(b)])
  {
    RunKeepsState(crypto, first, sts, evs, |evs|);
    st' := StepExists(crypto, sts[|evs|], first.hash, b);
    RunSnoc(crypto, first, sts, evs, BlockGiven(b), st');
  }

  lemma RunStarts(crypto: Crypto, first: Block) returns (st: State)
    requires GenesisOk(first)
    ensures Run(crypto, first, [st], []) && Initial(crypto, first, st)
  {
    st := State(map[first.hash := first], first.hash,
                map[first.hash := Zeros(|first.hash|) + Zeros(|first.hash|)],
                AddHashes(map[], BlockEntries(first)), AddSpends(map[], BlockEntries(first)),
                Replay(map[], BlockEntries(first), crypto.keyHash), map[]);
  }
}
