/** Two runs over accepted blocks in which a switch loses an unspent output: each shows one of
    the two ways in which cancelling a block may fail to undo adding it.  This one: an input
    from the same block stands before one from an earlier block. */
module Losses {
  import opened Structures
  import opened Tree
  import opened Ledger
  import opened ChainLedger
  import opened TxIndex
  import opened UnspentCache
  import opened Verification
  import opened Switch
  import opened Growth
  import opened Blockchain
  import opened NodeState
  import opened Events
  import opened Witnesses
  import opened Oddities

  /** The payment spends the coinbase of this block first, then that of the genesis block. */
  const X := Block(1, [Coinbase([2]), Both], [1], [2], 0, 1)
  const Y := Block(2, [Coinbase([4]), Pay([5], [In([4], 0)], 10.0)], [1], [3], 0, 1)
  const Z := Block(3, [Coinbase([6]), Pay([7], [In([6], 0)], 10.0), Pay([8], [In([7], 0)], 10.0)], [3], [4], 0, 2)

  const S1: Store := map[[1] := G, [2] := X]
  const S2: Store := map[[1] := G, [2] := X, [3] := Y]
  const S3: Store := map[[1] := G, [2] := X, [3] := Y, [4] := Z]

  // ----- the blocks are accepted

  lemma ProperX(st: State)
    requires OnlyG(st)
    ensures Proper(st.blocks, [1], X)
  {
    OneTx(eG, [1]);
    IsProper(st.blocks, [1], X);
  }

  lemma TwoIn(a: TXInput, b: TXInput, x: Transaction, y: Transaction)
    requires SourceHas(x, a) && SourceHas(y, b)
    ensures forall i | 0 <= i < 2 :: SourceHas([x, y][i], [a, b][i])
    ensures SumIn([a, b], [x, y]) == x.vout[a.vout].value + y.vout[b.vout].value
  {
    var ins, srcs := [a, b], [x, y];
    assert ins[..1] == [a] && srcs[..1] == [x];
    OneIn(a, x);
  }

  lemma FundedX(st: State, i: int)
    requires OnlyG(st) && 0 <= i < 2
    ensures FundedAt(st.blocks, [1], [1], st.spends, [1], [Coinbase([2])], [In([2], 0), In([1], 0)],
                     [Coinbase([2]), Coinbase([1])], i)
  {
    OneTx(eG, [1]);
    if i == 0 {
      var txs := [Coinbase([2])];
      assert txs[..1] == txs;
      FundedBefore(st.blocks, [1], [1], st.spends, [1], txs, 1, 0);
    } else {
      FundedG(st, [Coinbase([2])]);
    }
  }

  const Both := Pay([3], [In([2], 0), In([1], 0)], 20.0)

  lemma PaysX(st: State)
    requires OnlyG(st)
    ensures TxAccepted(Lenient(), st.blocks, [1], [1], st.spends, [1], [Coinbase([2])], Both)
  {
    var tx, srcs := Both, [Coinbase([2]), Coinbase([1])];
    FundedX(st, 0);
    FundedX(st, 1);
    TwoIn(In([2], 0), In([1], 0), Coinbase([2]), Coinbase([1]));
    OneOut(tx.vout[0]);
    PayAccepted(st.blocks, [1], [1], st.spends, [1], [Coinbase([2])], tx, srcs);
  }

  lemma AcceptedX(st: State)
    requires OnlyG(st)
    ensures BlockAccepted(Lenient(), st.blocks, [1], [1], st.spends, X)
  {
    PaysX(st);
    assert X.transactions[..1] == [Coinbase([2])];
    assert PassesAt(st.blocks, [1], [1], st.spends, [1], X.transactions, 1);
    BlockPasses(st.blocks, [1], [1], st.spends, X, [2]);
  }

  lemma HandsOnYZ()
    ensures HandsOn(Y) && HandsOn(Z)
  {
    assert Handed(Y.transactions, 1) && Handed(Z.transactions, 1) && Handed(Z.transactions, 2);
  }

  lemma IdsG(t: Bytes)
    requires WellFormed(S1, [1])
    ensures t in Ids(PathEntries(S1, [1], [1])) <==> t == [1]
  {
    assert NodeOk(S1, [1], [1]);
    GenesisG();
    OneTx(eG, [1]);
  }

  lemma FitsY(st: State)
    requires StateOk(st, [1]) && st.blocks == S1
    ensures Welcome(st, [1], Y)
  {
    IdsG([4]);
    IdsG([5]);
    HandsOnYZ();
    HandsOnWelcome(st, [1], Y, S1);
  }

  lemma IdsY(t: Bytes)
    requires WellFormed(S2, [1])
    ensures t in Ids(PathEntries(S2, [1], [3])) ==> t == [1] || t == [4] || t == [5]
  {
    assert NodeOk(S2, [1], [3]) && NodeOk(S2, [1], [1]);
    GenesisG();
    OneTx(eG, [1]);
    assert PathEntries(S2, [1], [3]) == [eG] + BlockEntries(Y);
    IdsAppend([eG], BlockEntries(Y));
    BlockIds(Y, t);
    if t in Ids(BlockEntries(Y)) {
      var i :| 0 <= i < 2 && Y.transactions[i].id == t;
    }
  }

  lemma FitsZ(st: State)
    requires StateOk(st, [1]) && st.blocks == S2
    ensures Welcome(st, [1], Z)
  {
    IdsY([6]);
    IdsY([7]);
    IdsY([8]);
    HandsOnYZ();
    HandsOnWelcome(st, [1], Z, S2);
  }

  // ----- what the switch loses

  lemma TreeS()
    ensures WellFormed(S3, [1])
    ensures Path(S3, [1], [1]) == [[1]] && Path(S3, [1], [2]) == [[1], [2]] && Path(S3, [1], [4]) == [[1], [3], [4]]
    ensures PathEntries(S3, [1], [1]) == BlockEntries(G)
    ensures EntriesAbove(S3, [1], [4], 0) == BlockEntries(Y) + BlockEntries(Z)
  {
    assert Zeros(1)[0] == 0;
    forall h | h in S3
      ensures NodeOk(S3, [1], h)
    {
      assert h[0] != 0;
    }
    assert NodeOk(S3, [1], [1]);
    assert Path(S3, [1], [3]) == [[1], [3]];
    assert EntriesAbove(S3, [1], [1], 0) == [];
    assert EntriesAbove(S3, [1], [3], 0) == BlockEntries(Y);
  }

  lemma ForkS()
    ensures WellFormed(S3, [1]) && ForkHeight(S3, [1], [2], [4]) == 0
    ensures UpTo(S3, [1], [2], 0) == BlockEntries(G) && BlockAt(S3, [1], [2], 1) == X
  {
    TreeS();
    var p, q := Path(S3, [1], [2]), Path(S3, [1], [4]);
    assert p[1] != q[1] && p[..1] == q[..1];
    CommonUnique(p, q, 1);
  }

  const eB := Entry(Coinbase([2]), [2])
  const eD := Entry(Both, [2])

  lemma TwoTxs(a: Entry, b: Entry, t: Bytes, known: set<Bytes>)
    ensures SpentIn([a, b], t) == InputIndices(a.tx.Spends(), t) + InputIndices(b.tx.Spends(), t)
    ensures Reached([a, b], known) == ReachedTx(a.tx, known) + ReachedTx(b.tx, known)
  {
    OneTx(a, t);
    assert [a, b][..1] == [a] && [a][..0] == [];
    assert Reached([a], known) == {} + ReachedTx(a.tx, known);
  }

  lemma OneInput(vin: TXInput, t: Bytes)
    ensures InputIndices([vin], t) == if vin.txid == t then {vin.vout} else {}
  {
    assert [vin][..0] == [];
  }

  lemma TwoInputs(a: TXInput, b: TXInput, t: Bytes)
    ensures InputIndices([a, b], t) == InputIndices([a], t) + InputIndices([b], t)
  {
    assert [a, b][..1] == [a];
    OneInput(a, t);
    OneInput(b, t);
  }

  lemma EntriesX()
    ensures BlockEntries(X) == [eB, eD] && SpentIn([eB, eD], [1]) == {0}
  {
    assert BlockEntries(X) == [eB, eD];
    TwoTxs(eB, eD, [1], {[1]});
    assert eD.tx.Spends() == [In([2], 0), In([1], 0)];
    TwoInputs(In([2], 0), In([1], 0), [1]);
    OneInput(In([2], 0), [1]);
    OneInput(In([1], 0), [1]);
    assert eB.tx.Spends() == [];
  }

  lemma NothingReached()
    ensures Reached([eB, eD], {[1]}) == {}
  {
    TwoTxs(eB, eD, [1], {[1]});
    var ins := eD.tx.Spends();
    assert ins[0].txid == [2] && ReachLen(ins, {[1]}) == 0;
    assert ins[..0] == [] && eB.tx.Spends() == [];
    assert ReachLen(eB.tx.Spends(), {[1]}) == 0;
  }

  lemma NewSpares()
    ensures SpentIn(BlockEntries(Y) + BlockEntries(Z), [1]) == {} && [1] !in Ids(BlockEntries(Y) + BlockEntries(Z))
  {
    HandsOnYZ();
    HandsOnSpares(Y, [1]);
    HandsOnSpares(Z, [1]);
    SpentAppend(BlockEntries(Y), BlockEntries(Z), [1]);
    IdsAppend(BlockEntries(Y), BlockEntries(Z));
  }

  /** Whatever the index of spends holds: when the branch of X is replaced by that of Z, the
      output of the genesis block that X spent stays out of the cache although nothing on
      the new branch spends it. */
  lemma SameBlockInputLoses(sp: SpendLists)
    ensures WellFormed(S3, [1])
    ensures !LossesSpent(S3, [1], [4], sp, [2], ForkHeight(S3, [1], [2], [4]), EntriesAbove(S3, [1], [4], 0))
  {
    var t: Bytes := [1];
    TreeS();
    EntriesX();
    NothingReached();
    ForkS();
    GenesisG();
    OneTx(eG, t);
    KeepNone(CoinsOf(eG));
    NewSpares();
    var c := CoinsOf(eG)[0];
    assert c in Unspent(UpTo(S3, [1], [2], 0), t);
    assert Lost(S3, [1], [4], sp, [2], 1, t) == {};
    assert 0 in Lost(S3, [1], [4], sp, [2], 0, t);
  }

  // ----- the run

  lemma TwoBlocks() returns (sts: seq<State>, evs: seq<Event>)
    ensures |evs| == 2 && evs == [BlockGiven(X), BlockGiven(Y)]
    ensures |sts| == 3 && Reaches(G, sts, evs, sts[2], S2, [2])
  {
    var st0 := StartG();
    ProperX(st0);
    AcceptedX(st0);
    var st1 := GiveOnward(G, [st0], [], st0, X, map[[1] := G], [1], S1, [2]);
    sts, evs := [st0] + [st1], [] + [BlockGiven(X)];
    FitsY(st1);
    var st2 := GiveOnward(G, sts, evs, st1, Y, S1, [2], S2, [2]);
    sts, evs := sts + [st2], evs + [BlockGiven(Y)];
  }

  lemma AlwaysS()
    ensures WellFormed(S3, [1]) && AlwaysLoses(S3, [1], [2], [4])
  {
    ForkS();
    forall tb: HashLists, sp: SpendLists | IndexMatches(S3, tb, sp)
      ensures !LossesSpent(S3, [1], [4], sp, [2], ForkHeight(S3, [1], [2], [4]), EntriesAbove(S3, [1], [4], 0))
    {
      SameBlockInputLoses(sp);
    }
  }

  lemma SwitchS()
    ensures AddOutcome(S2, [2], Z).AddedToParallelTop? && S3 == S2[Z.hash := Z] && Z.hash == [4]
  {
    assert [2] != Z.prevBlockHash;
  }

  /** A run of three accepted blocks whose last one switches branches and leaves a wrong cache. */
  lemma SameBlockInputRun() returns (sts: seq<State>, evs: seq<Event>)
    ensures evs == [BlockGiven(X), BlockGiven(Y)] + [BlockGiven(Z)] && TurnsWrong(G, sts, evs, 2)
  {
    var sts2, evs2 := TwoBlocks();
    FitsZ(sts2[2]);
    AlwaysS();
    SwitchS();
    sts, evs := SwitchHarms(G, sts2, evs2, sts2[2], Z, S2, [2], S3);
  }
}
