/** The second run over accepted blocks in which a switch loses an unspent output: a third
    branch starts below the fork, and the height of its block lets the index take it for a
    block of the branch. */
module StrayLoss {
  import opened Structures
  import opened Tree
  import opened Branches
  import opened Ledger
  import opened ChainLedger
  import opened TxIndex
  import opened UnspentCache
  import opened Verification
  import opened Switch
  import opened Growth
  import opened Blockchain
  import opened NodeState
  import opened Events
  import opened Runs
  import opened Witnesses
  import opened Oddities
  import opened Losses

  const A2 := Transaction([1], [TXInput([], -1, [], [7])], [TXOutput(10.0, [7]), TXOutput(10.0, [7])], 0)
  const G2 := Block(0, [A2], [], [1], 0, 0)
  const P2 := Block(1, [Coinbase([2]), Pay([3], [In([2], 0)], 10.0)], [1], [2], 0, 1)
  /** The end of the old branch, which spends the second output of G2. */
  const X2 := Block(3, [Coinbase([4]), Pay([5], [In([4], 0)], 10.0), Pay([6], [In([1], 1)], 10.0)], [2], [4], 0, 2)
  /** The third branch, which spends the first output of G2. */
  const C2 := Block(2, [Coinbase([7]), Pay([8], [In([1], 0)], 10.0)], [1], [3], 0, 1)
  const Y2 := Block(4, [Coinbase([9]), Pay([10], [In([9], 0)], 10.0), Pay([11], [In([10], 0)], 10.0)],
                    [2], [5], 0, 2)
  const Z2 := Block(5, [Coinbase([12]), Pay([13], [In([12], 0)], 10.0), Pay([14], [In([13], 0)], 10.0),
                        Pay([15], [In([14], 0)], 10.0)], [5], [6], 0, 3)

  const T0: Store := map[[1] := G2]
  const T1: Store := T0[[2] := P2]
  const T2: Store := T1[[4] := X2]
  const T3: Store := T2[[3] := C2]
  const T4: Store := T3[[5] := Y2]

  const eA2 := Entry(A2, [1])

  // ----- the branches

  lemma HandsOnP2()
    ensures HandsOn(P2)
  {
    assert Handed(P2.transactions, 1);
  }

  lemma HandsOnY2()
    ensures HandsOn(Y2)
  {
    assert Handed(Y2.transactions, 1) && Handed(Y2.transactions, 2);
  }

  lemma HandsOnZ2()
    ensures HandsOn(Z2)
  {
    assert Handed(Z2.transactions, 1) && Handed(Z2.transactions, 2) && Handed(Z2.transactions, 3);
  }

  lemma PathG2(s: Store)
    requires WellFormed(s, [1]) && s[[1]] == G2
    ensures PathEntries(s, [1], [1]) == [eA2]
  {
    assert NodeOk(s, [1], [1]);
    assert BlockEntries(G2) == [eA2];
  }

  ghost predicate MapP2(s: Store) {
    [1] in s && s[[1]] == G2 && [2] in s && s[[2]] == P2
  }

  ghost predicate HasP2(s: Store) {
    WellFormed(s, [1]) && MapP2(s)
  }

  lemma PathP2(s: Store)
    requires HasP2(s)
    ensures PathEntries(s, [1], [2]) == [eA2] + BlockEntries(P2)
  {
    assert NodeOk(s, [1], [2]) && NodeOk(s, [1], [1]);
    PathG2(s);
  }

  lemma PathY2(s: Store)
    requires HasP2(s) && [5] in s && s[[5]] == Y2
    ensures PathEntries(s, [1], [5]) == ([eA2] + BlockEntries(P2)) + BlockEntries(Y2)
  {
    assert NodeOk(s, [1], [5]) && NodeOk(s, [1], [2]);
    PathP2(s);
  }

  lemma BlockIdsP2()
    ensures Ids(BlockEntries(P2)) <= {[2], [3]}
  {
    forall t | t in Ids(BlockEntries(P2))
      ensures t in {[2], [3]}
    {
      BlockIds(P2, t);
      var i :| 0 <= i < 2 && P2.transactions[i].id == t;
    }
  }

  lemma BlockIdsY2()
    ensures Ids(BlockEntries(Y2)) <= {[9], [10], [11]}
  {
    forall t | t in Ids(BlockEntries(Y2))
      ensures t in {[9], [10], [11]}
    {
      BlockIds(Y2, t);
      var i :| 0 <= i < 3 && Y2.transactions[i].id == t;
    }
  }

  lemma IdsP2(s: Store)
    requires HasP2(s)
    ensures Ids(PathEntries(s, [1], [2])) <= {[1], [2], [3]}
  {
    PathP2(s);
    OneTx(eA2, [1]);
    IdsAppend([eA2], BlockEntries(P2));
    BlockIdsP2();
  }

  lemma IdsY2(s: Store)
    requires HasP2(s) && [5] in s && s[[5]] == Y2
    ensures Ids(PathEntries(s, [1], [5])) <= {[1], [2], [3], [9], [10], [11]}
  {
    PathP2(s);
    PathY2(s);
    IdsP2(s);
    IdsAppend([eA2] + BlockEntries(P2), BlockEntries(Y2));
    BlockIdsY2();
  }

  // ----- what the blocks spend of the genesis block

  lemma SpentByG2()
    ensures SpentIn(BlockEntries(G2), [1]) == {}
  {
    assert BlockEntries(G2) == [eA2];
    OneTx(eA2, [1]);
  }

  lemma SpentByP2()
    ensures SpentIn(BlockEntries(P2), [1]) == {}
  {
    HandsOnP2();
    HandsOnSpares(P2, [1]);
  }

  const eC7 := Entry(Coinbase([7]), [3])
  const eC8 := Entry(Pay([8], [In([1], 0)], 10.0), [3])

  lemma SpentByC2()
    ensures SpentIn(BlockEntries(C2), [1]) == {0}
  {
    assert BlockEntries(C2) == [eC7, eC8];
    TwoTxs(eC7, eC8, [1], {});
    OneInput(In([1], 0), [1]);
  }

  const eX4 := Entry(Coinbase([4]), [4])
  const eX5 := Entry(Pay([5], [In([4], 0)], 10.0), [4])
  const eX6 := Entry(Pay([6], [In([1], 1)], 10.0), [4])

  lemma ThreeTxs(a: Entry, b: Entry, c: Entry, t: Bytes, known: set<Bytes>)
    ensures SpentIn([a, b, c], t) == SpentIn([a, b], t) + InputIndices(c.tx.Spends(), t)
    ensures Reached([a, b, c], known) == Reached([a, b], known) + ReachedTx(c.tx, known)
  {
    assert [a, b, c][..2] == [a, b];
  }

  lemma SpentByX2()
    ensures BlockEntries(X2) == [eX4, eX5, eX6] && SpentIn(BlockEntries(X2), [1]) == {1}
  {
    assert BlockEntries(X2) == [eX4, eX5, eX6];
    ThreeTxs(eX4, eX5, eX6, [1], {});
    TwoTxs(eX4, eX5, [1], {});
    OneInput(In([4], 0), [1]);
    OneInput(In([1], 1), [1]);
  }

  // ----- the blocks are welcome

  lemma WelcomeP2(st: State)
    requires StateOk(st, [1]) && st.blocks == T0
    ensures Welcome(st, [1], P2)
  {
    PathG2(T0);
    OneTx(eA2, [1]);
    HandsOnP2();
    HandsOnWelcome(st, [1], P2, T0);
  }

  lemma SourceG2(s: Store)
    requires HasP2(s)
    ensures EntryAt(PathEntries(s, [1], [1]), [1]) == Some(eA2)
  {
    PathG2(s);
    OneTx(eA2, [1]);
  }

  lemma SourceP2(s: Store)
    requires HasP2(s)
    ensures EntryAt(PathEntries(s, [1], [2]), [1]) == Some(eA2)
  {
    PathP2(s);
    OneTx(eA2, [1]);
    BlockIdsP2();
    SpentAppend([eA2], BlockEntries(P2), [1]);
  }

  /** No stored block spends that output of G2. */
  ghost predicate Spares(s: Store, v: int) {
    forall h | h in s :: v !in SpentIn(BlockEntries(s[h]), [1])
  }

  lemma SpareT1()
    ensures Spares(T1, 1)
  {
    SpentByG2();
    SpentByP2();
  }

  lemma SpareT2()
    ensures Spares(T2, 0)
  {
    SpentByG2();
    SpentByP2();
    SpentByX2();
  }

  /** A payment of one output of G2 passes where no stored block has spent it. */
  lemma PaysA2(s: Store, m: Hash, tb: HashLists, sp: SpendLists, tip: Hash, prevtxs: seq<Transaction>,
               id: Bytes, v: nat)
    requires HasP2(s) && m in s && IndexMatches(s, tb, sp) && (tip == [1] || tip == [2]) && v < 2
    requires Spares(s, v)
    ensures TxAccepted(Lenient(), s, [1], m, sp, tip, prevtxs, Pay(id, [In([1], v)], 10.0))
  {
    SourceG2(s);
    SourceP2(s);
    FundedByChain(s, [1], m, tb, sp, tip, prevtxs, eA2, v);
    OneAccepted(s, [1], m, sp, tip, prevtxs, id, In([1], v), A2);
  }

  lemma ProperX2(s: Store)
    requires HasP2(s) && Sound(PathEntries(s, [1], [2]))
    ensures Proper(s, [1], X2)
  {
    IdsP2(s);
    IsProper(s, [1], X2);
  }

  lemma AcceptedX2(s: Store, m: Hash, tb: HashLists, sp: SpendLists)
    requires HasP2(s) && m in s && IndexMatches(s, tb, sp)
    requires Spares(s, 1)
    ensures BlockAccepted(Lenient(), s, [1], m, sp, X2)
  {
    var txs := X2.transactions;
    IdsP2(s);
    assert Handed(txs, 1);
    HandedPasses(s, [1], m, sp, [2], txs, 1);
    PaysA2(s, m, tb, sp, [2], txs[..2], [6], 1);
    assert PassesAt(s, [1], m, sp, [2], txs, 2);
    BlockPasses(s, [1], m, sp, X2, [4]);
  }

  lemma WelcomeX2(st: State, s: Store)
    requires StateOk(st, [1]) && st.blocks == s && MapP2(s) && [4] !in s && Spares(s, 1)
    ensures Welcome(st, [1], X2)
  {
    assert Sound(PathEntries(s, [1], [2]));
    ProperX2(s);
    AcceptedX2(s, st.top, st.txBlocks, st.spends);
  }

  lemma ProperC2(s: Store)
    requires HasP2(s) && Sound(PathEntries(s, [1], [1]))
    ensures Proper(s, [1], C2)
  {
    PathG2(s);
    OneTx(eA2, [1]);
    IsProper(s, [1], C2);
  }

  lemma AcceptedC2(s: Store, m: Hash, tb: HashLists, sp: SpendLists)
    requires HasP2(s) && m in s && IndexMatches(s, tb, sp)
    requires Spares(s, 0)
    ensures BlockAccepted(Lenient(), s, [1], m, sp, C2)
  {
    PaysA2(s, m, tb, sp, [1], C2.transactions[..1], [8], 0);
    assert PassesAt(s, [1], m, sp, [1], C2.transactions, 1);
    BlockPasses(s, [1], m, sp, C2, [7]);
  }

  lemma WelcomeC2(st: State, s: Store)
    requires StateOk(st, [1]) && st.blocks == s && MapP2(s) && [3] !in s && Spares(s, 0)
    ensures Welcome(st, [1], C2)
  {
    assert Sound(PathEntries(s, [1], [1]));
    ProperC2(s);
    AcceptedC2(s, st.top, st.txBlocks, st.spends);
  }

  lemma WelcomeY2(st: State, s: Store)
    requires StateOk(st, [1]) && st.blocks == s && MapP2(s) && [5] !in s
    ensures Welcome(st, [1], Y2)
  {
    IdsP2(s);
    HandsOnY2();
    HandsOnWelcome(st, [1], Y2, s);
  }

  lemma FreshZ2(s: Store)
    requires HasP2(s) && [5] in s && s[[5]] == Y2
    ensures forall tx | tx in Z2.transactions :: tx.id !in Ids(PathEntries(s, [1], [5]))
  {
    IdsY2(s);
  }

  lemma WelcomeZ2(st: State, s: Store)
    requires StateOk(st, [1]) && st.blocks == s && MapP2(s) && [5] in s && s[[5]] == Y2 && [6] !in s
    ensures Welcome(st, [1], Z2)
  {
    FreshZ2(s);
    HandsOnZ2();
    HandsOnWelcome(st, [1], Z2, s);
  }

  // ----- what the switch loses

  /** The old branch ends in X2, the new one in Z2; C2 hangs under the genesis block. */
  ghost predicate ShapeT(s: Store) {
    && WellFormed(s, [1]) && MapT(s) && [6] in s && s[[6]] == Z2
  }

  ghost predicate MapT(s: Store) {
    && MapP2(s) && [4] in s && s[[4]] == X2 && [3] in s && s[[3]] == C2
    && [5] in s && s[[5]] == Y2
  }

  lemma PathsT(s: Store)
    requires ShapeT(s)
    ensures Path(s, [1], [2]) == [[1], [2]] && Path(s, [1], [4]) == [[1], [2], [4]]
    ensures Path(s, [1], [6]) == [[1], [2], [5], [6]]
  {
    assert NodeOk(s, [1], [1]) && NodeOk(s, [1], [2]);
    assert Path(s, [1], [1]) == [[1]];
    assert Path(s, [1], [5]) == [[1], [2], [5]];
  }

  lemma ForksT(s: Store)
    requires ShapeT(s)
    ensures ForkHeight(s, [1], [4], [6]) == 1 == ForkHeight(s, [1], [2], [6]) && Ancestor(s, [1], [2], [6])
  {
    PathsT(s);
    var a, p, q := Path(s, [1], [2]), Path(s, [1], [4]), Path(s, [1], [6]);
    assert p[2] != q[2] && p[..2] == q[..2] && a[..2] == q[..2];
    CommonUnique(p, q, 2);
    CommonUnique(a, q, 2);
  }

  lemma AboveT(s: Store)
    requires ShapeT(s)
    ensures EntriesAbove(s, [1], [6], 1) == BlockEntries(Y2) + BlockEntries(Z2)
  {
    assert NodeOk(s, [1], [2]);
    assert EntriesAbove(s, [1], [2], 1) == [];
    assert EntriesAbove(s, [1], [5], 1) == BlockEntries(Y2);
  }

  lemma SparesT()
    ensures SpentIn(BlockEntries(Y2) + BlockEntries(Z2), [1]) == {} && [1] !in Ids(BlockEntries(Y2) + BlockEntries(Z2))
  {
    HandsOnY2();
    HandsOnZ2();
    HandsOnSpares(Y2, [1]);
    HandsOnSpares(Z2, [1]);
    SpentAppend(BlockEntries(Y2), BlockEntries(Z2), [1]);
    IdsAppend(BlockEntries(Y2), BlockEntries(Z2));
  }

  lemma UnspentT(s: Store)
    requires ShapeT(s)
    ensures UpTo(s, [1], [4], 1) == PathEntries(s, [1], [2]) && BlockAt(s, [1], [4], 2) == X2
    ensures CoinsOf(eA2)[0] in Unspent(UpTo(s, [1], [4], 1), [1])
    ensures [1] in Ids(PathEntries(s, [1], [2]))
  {
    PathsT(s);
    PathP2(s);
    SourceP2(s);
    OneTx(eA2, [1]);
    IdsAppend([eA2], BlockEntries(P2));
    SpentByP2();
    SpentAppend([eA2], BlockEntries(P2), [1]);
    KeepNone(CoinsOf(eA2));
  }

  lemma HomeT(s: Store)
    requires ShapeT(s) && [1] in Ids(PathEntries(s, [1], [2]))
    ensures Home(s, [1], [2], [1]) == [1]
  {
    var a := Home(s, [1], [2], [1]);
    PathsT(s);
    BlockIdsP2();
    AncestorOnPath(s, [1], a, [2]);
  }

  lemma StrayT(s: Store, tb: HashLists, sp: SpendLists)
    requires ShapeT(s) && IndexMatches(s, tb, sp) && [1] in Ids(PathEntries(s, [1], [2]))
    ensures 0 in Strays(s, [1], [6], sp, [2], [1])
  {
    HomeT(s);
    PathsT(s);
    ForksT(s);
    SpentByC2();
    MarksIn(SpendsOf(sp, [1]), [3], 0);
    assert Stray(s, [1], [6], [3], [1], [2]);
  }

  lemma ReachedT(known: set<Bytes>)
    requires [1] in known
    ensures [1] in Reached(BlockEntries(X2), known)
  {
    SpentByX2();
    ThreeTxs(eX4, eX5, eX6, [1], known);
    var ins := eX6.tx.Spends();
    assert ins == [In([1], 1)] && ReachLen(ins, known) == 1;
    assert ins[..1] == ins && ins[0].txid in ReachedTx(eX6.tx, known);
  }

  lemma LostT(s: Store, tb: HashLists, sp: SpendLists)
    requires ShapeT(s) && IndexMatches(s, tb, sp)
    ensures 0 in Lost(s, [1], [6], sp, [4], 1, [1])
  {
    UnspentT(s);
    StrayT(s, tb, sp);
    ReachedT(Ids(UpTo(s, [1], [4], 1)));
    PathsT(s);
  }

  /** Whatever the index of such a tree holds, as long as it is exact: when the branch of X2 is
      replaced by that of Z2, the output that C2 spends is taken out of the cache. */
  lemma StrayLoses(s: Store, tb: HashLists, sp: SpendLists)
    requires ShapeT(s) && IndexMatches(s, tb, sp)
    ensures !LossesSpent(s, [1], [6], sp, [4], ForkHeight(s, [1], [4], [6]), EntriesAbove(s, [1], [6], 1))
  {
    ForksT(s);
    AboveT(s);
    SparesT();
    UnspentT(s);
    LostT(s, tb, sp);
    assert CoinsOf(eA2)[0].index == 0;
  }

  lemma AlwaysT(s: Store)
    requires ShapeT(s)
    ensures AlwaysLoses(s, [1], [4], [6])
  {
    ForksT(s);
    forall tb: HashLists, sp: SpendLists | IndexMatches(s, tb, sp)
      ensures !LossesSpent(s, [1], [6], sp, [4], ForkHeight(s, [1], [4], [6]), EntriesAbove(s, [1], [6], 1))
    {
      StrayLoses(s, tb, sp);
    }
  }

  // ----- the run

  lemma GenesisG2()
    ensures GenesisOk(G2)
  {
    assert BlockEntries(G2) == [eA2] && [] + [eA2] == [eA2];
    OneTx(eA2, [1]);
    SoundStep([], eA2);
    assert Zeros(1)[0] == 0;
  }

  /** A run over blocks that have not switched branches so far. */
  ghost predicate CameTo(sts: seq<State>, evs: seq<Event>, s: Store, top: Hash) {
    |sts| == |evs| + 1 && Reaches(G2, sts, evs, sts[|evs|], s, top)
  }

  lemma OnTop(sts: seq<State>, evs: seq<Event>, b: Block, s: Store) returns (sts': seq<State>)
    requires CameTo(sts, evs, s, b.prevBlockHash) && Welcome(sts[|evs|], [1], b)
    ensures CameTo(sts', evs + [BlockGiven(b)], s[b.hash := b], b.hash)
  {
    var st' := GiveOnward(G2, sts, evs, sts[|evs|], b, s, b.prevBlockHash, s[b.hash := b], b.hash);
    sts' := sts + [st'];
  }

  lemma Aside(sts: seq<State>, evs: seq<Event>, b: Block, s: Store, top: Hash) returns (sts': seq<State>)
    requires CameTo(sts, evs, s, top) && Welcome(sts[|evs|], [1], b) && b.height <= s[top].height
    ensures CameTo(sts', evs + [BlockGiven(b)], s[b.hash := b], top)
  {
    var st' := GiveOnward(G2, sts, evs, sts[|evs|], b, s, top, s[b.hash := b], top);
    sts' := sts + [st'];
  }

  const EP2 := [BlockGiven(P2)]
  const EX2 := EP2 + [BlockGiven(X2)]
  const EC2 := EX2 + [BlockGiven(C2)]
  const EY2 := EC2 + [BlockGiven(Y2)]

  lemma MapsT()
    ensures MapP2(T1) && [4] !in T1 && MapP2(T2) && [3] !in T2 && MapP2(T3) && [5] !in T3
    ensures MapT(T4) && [6] !in T4
  {
  }

  lemma UpToP2() returns (sts: seq<State>)
    ensures CameTo(sts, EP2, T1, [2])
  {
    GenesisG2();
    var st := StartRun(G2);
    WelcomeP2(st);
    sts := OnTop([st], [], P2, T0);
    assert [] + [BlockGiven(P2)] == EP2;
  }

  lemma UpToX2() returns (sts: seq<State>)
    ensures CameTo(sts, EX2, T2, [4])
  {
    sts := UpToP2();
    MapsT();
    SpareT1();
    WelcomeX2(sts[|EP2|], T1);
    sts := OnTop(sts, EP2, X2, T1);
  }

  lemma UpToC2() returns (sts: seq<State>)
    ensures CameTo(sts, EC2, T3, [4])
  {
    sts := UpToX2();
    MapsT();
    SpareT2();
    WelcomeC2(sts[|EX2|], T2);
    sts := Aside(sts, EX2, C2, T2, [4]);
  }

  lemma UpToY2() returns (sts: seq<State>)
    ensures CameTo(sts, EY2, T4, [4])
  {
    sts := UpToC2();
    MapsT();
    WelcomeY2(sts[|EC2|], T3);
    sts := Aside(sts, EC2, Y2, T3, [4]);
  }

  /** With Z2 in such a tree the branch of X2 gives way. */
  lemma SwitchT(sts: seq<State>, evs: seq<Event>, s: Store) returns (sts': seq<State>, evs': seq<Event>)
    requires CameTo(sts, evs, s, [4]) && Welcome(sts[|evs|], [1], Z2) && MapT(s) && [6] !in s
    ensures evs' == evs + [BlockGiven(Z2)] && TurnsWrong(G2, sts', evs', |evs|)
  {
    var s' := s[[6] := Z2];
    Extend(s, [1], Z2);
    assert [4] != Z2.prevBlockHash;
    assert AddOutcome(s, [4], Z2).AddedToParallelTop?;
    AlwaysT(s');
    sts', evs' := SwitchHarms(G2, sts, evs, sts[|evs|], Z2, s, [4], s');
  }

  /** A run of five accepted blocks whose last one switches branches and leaves a wrong cache. */
  lemma StrayRun() returns (sts: seq<State>, evs: seq<Event>)
    ensures evs == EY2 + [BlockGiven(Z2)]
    ensures TurnsWrong(G2, sts, evs, 4)
  {
    sts := UpToY2();
    MapsT();
    WelcomeZ2(sts[|EY2|], T4);
    sts, evs := SwitchT(sts, EY2, T4);
  }
}
