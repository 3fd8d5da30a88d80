/** Two short runs over accepted blocks: one in which an output is spent twice, and one in
    which a transaction without inputs stops the scan and comes back to the pool. */
module Oddities {
  import opened Structures
  import opened Tree
  import opened Ledger
  import opened ChainLedger
  import opened Pending
  import opened Verification
  import opened Growth
  import opened Supply
  import opened NodeState
  import opened Submission
  import opened Events
  import opened Runs
  import opened Continuation
  import opened Witnesses
  import Reindex

  const G := Block(0, [Coinbase([1])], [], [1], 0, 0)
  const eG := Entry(Coinbase([1]), [1])

  lemma OneTx(e: Entry, t: Bytes)
    ensures Ids([e]) == {e.tx.id} && SpentIn([e], t) == InputIndices(e.tx.Spends(), t)
    ensures EntryAt([e], t) == if e.tx.id == t then Some(e) else None
  {
    assert [e][..0] == [];
  }

  lemma GenesisG()
    ensures GenesisOk(G) && BlockEntries(G) == [eG]
    ensures WellFormed(map[[1] := G], [1]) && PathEntries(map[[1] := G], [1], [1]) == [eG]
  {
    assert BlockEntries(G) == [eG] && [] + [eG] == [eG];
    OneTx(eG, [1]);
    SoundStep([], eG);
    assert Zeros(1)[0] == 0;
    GenesisTree(G);
  }

  ghost predicate OnlyG(st: State) {
    && StateOk(st, [1]) && st.blocks == map[[1] := G] && st.top == [1]
    && PathEntries(st.blocks, [1], [1]) == [eG]
  }

  /** The run of the genesis block alone. */
  lemma StartG() returns (st: State)
    ensures Reaches(G, [st], [], st, map[[1] := G], [1]) && OnlyG(st) && PoolOk(st, [1])
  {
    GenesisG();
    st := StartRun(G);
    InitialState(Lenient(), G, st);
  }

  /** The output of the genesis block is unspent in the state after it. */
  lemma FundedG(st: State, prevtxs: seq<Transaction>)
    requires OnlyG(st)
    ensures FundedAt(st.blocks, [1], [1], st.spends, [1], prevtxs, [In([1], 0)], [Coinbase([1])], 0)
  {
    GenesisG();
    OneTx(eG, [1]);
    FundedByChain(st.blocks, [1], [1], st.txBlocks, st.spends, [1], prevtxs, eG, 0);
  }

  // ----- an output spent twice

  /** Both payments spend the output of the genesis block. */
  const W := Block(1, [Coinbase([2]), Pay([3], [In([1], 0)], 10.0), Pay([4], [In([1], 0)], 10.0)], [1], [2], 0, 1)

  lemma ProperW(st: State)
    requires OnlyG(st)
    ensures Proper(st.blocks, [1], W)
  {
    OneTx(eG, [1]);
    IsProper(st.blocks, [1], W);
  }

  lemma PassesW(st: State, i: int)
    requires OnlyG(st) && 1 <= i < |W.transactions|
    ensures PassesAt(st.blocks, [1], [1], st.spends, [1], W.transactions, i)
  {
    var before := W.transactions[..i];
    FundedG(st, before);
    OneAccepted(st.blocks, [1], [1], st.spends, [1], before, W.transactions[i].id, In([1], 0), Coinbase([1]));
  }

  lemma AcceptedW(st: State)
    requires OnlyG(st)
    ensures BlockAccepted(Lenient(), st.blocks, [1], [1], st.spends, W)
  {
    forall i | 1 <= i < |W.transactions|
      ensures PassesAt(st.blocks, [1], [1], st.spends, [1], W.transactions, i)
    {
      PassesW(st, i);
    }
    BlockPasses(st.blocks, [1], [1], st.spends, W, [2]);
  }

  lemma TwiceW()
    ensures !DistinctPlaces(AllInputs(BlockEntries(W)))
  {
    var es := BlockEntries(W);
    assert es[..3] == es && es[..3][..2] == es[..2] && es[..2][..1] == es[..1] && es[..1][..0] == [];
    assert AllInputs(es[..1]) == [];
    assert AllInputs(es[..2]) == [] + [In([1], 0)];
    assert AllInputs(es) == [In([1], 0)] + [In([1], 0)];
    assert PlaceOf(AllInputs(es)[0]) == PlaceOf(AllInputs(es)[1]);
  }

  lemma SpentTwice()
    ensures !NoDoubleSpend([eG] + BlockEntries(W))
  {
    TwiceW();
    AllInputsAppend([eG], BlockEntries(W));
    DistinctAppend(AllInputs([eG]), AllInputs(BlockEntries(W)));
  }

  /** The run that gives an accepted block to a node which has the genesis block only. */
  lemma GiveFirst(st: State, b: Block) returns (st': State)
    requires OnlyG(st) && Run(Lenient(), G, [st], []) && Proper(st.blocks, [1], b)
    requires b.hash != [1] && b.prevBlockHash == [1] && BlockAccepted(Lenient(), st.blocks, [1], [1], st.spends, b)
    ensures Run(Lenient(), G, [st] + [st'], [BlockGiven(b)]) && Step(Lenient(), [1], st, b, st')
    ensures Outcome(Lenient(), st, [1], b).AddedToTop?
    ensures Ready(st', [1]) && st'.top == b.hash
    ensures PathEntries(st'.blocks, [1], st'.top) == [eG] + BlockEntries(b)
  {
    st' := RunGoesOn(Lenient(), G, [st], [], b);
    assert [] + [BlockGiven(b)] == [BlockGiven(b)];
    StepPaths(Lenient(), st, [1], b, st');
  }

  /** One accepted block is enough: a run of one step after which the primary branch spends an
      output twice. */
  lemma DoubleSpendRun() returns (sts: seq<State>, evs: seq<Event>)
    ensures Run(Lenient(), G, sts, evs) && evs == [BlockGiven(W)]
    ensures Ready(sts[0], [1]) && Outcome(Lenient(), sts[0], [1], W).AddedToTop?
    ensures Ready(sts[1], [1]) && sts[1].top == W.hash
    ensures !NoDoubleSpend(PathEntries(sts[1].blocks, [1], sts[1].top))
  {
    var st := StartG();
    ProperW(st);
    AcceptedW(st);
    var st' := GiveFirst(st, W);
    sts, evs := [st] + [st'], [BlockGiven(W)];
    SpentTwice();
  }

  // ----- a payment listed twice

  const P := Pay([3], [In([1], 0)], 10.0)
  const Q := Pay([4], [In([3], 0)], 10.0)
  /** The payment P is listed again after Q has spent its output. */
  const R := Block(1, [Coinbase([2]), P, Q, P], [1], [2], 0, 1)

  lemma PassesR(st: State, i: int)
    requires OnlyG(st) && 1 <= i < |R.transactions|
    ensures PassesAt(st.blocks, [1], [1], st.spends, [1], R.transactions, i)
  {
    var before := R.transactions[..i];
    if i == 2 {
      OneTx(eG, [3]);
      assert before[..2] == before;
      FundedBefore(st.blocks, [1], [1], st.spends, [1], before, 2, 1);
      OneAccepted(st.blocks, [1], [1], st.spends, [1], before, [4], In([3], 0), P);
    } else {
      FundedG(st, before);
      OneAccepted(st.blocks, [1], [1], st.spends, [1], before, [3], In([1], 0), Coinbase([1]));
    }
  }

  lemma AcceptedR(st: State)
    requires OnlyG(st)
    ensures BlockAccepted(Lenient(), st.blocks, [1], [1], st.spends, R) && Shaped(st.blocks, [1], R)
  {
    forall i | 1 <= i < |R.transactions|
      ensures PassesAt(st.blocks, [1], [1], st.spends, [1], R.transactions, i)
    {
      PassesR(st, i);
    }
    BlockPasses(st.blocks, [1], [1], st.spends, R, [2]);
    BlockIds(R, []);
    assert Zeros(1)[0] == 0;
  }

  const eP := Entry(P, [2])
  const eQ := Entry(Q, [2])

  /** Of a list that ends with one transaction, another, and the first again. */
  lemma {:induction false} ListedTwice(c: Entry, p: Entry, q: Entry)
    requires q.tx.id != p.tx.id
    ensures var be := [c, p, q] + [p];
            && p.tx.id in Ids(be) && q.tx.id in Ids(be)
            && CoinsAt(be, p.tx.id) == CoinsOf(p) && CoinsAt(be, q.tx.id) == CoinsOf(q)
            && SpentSince(be, p.tx.id) == {} && SpentSince(be, q.tx.id) == InputIndices(p.tx.Spends(), q.tx.id)
            && InputIndices(q.tx.Spends(), p.tx.id) <= SpentIn(be, p.tx.id)
  {
    var be, before := [c, p, q] + [p], [c, p, q];
    assert be[..3] == before && before[..2] == [c, p];
    assert SpentIn(be, p.tx.id) == SpentIn(before, p.tx.id) + InputIndices(p.tx.Spends(), p.tx.id);
    assert SpentIn(before, p.tx.id) == SpentIn([c, p], p.tx.id) + InputIndices(q.tx.Spends(), p.tx.id);
    assert EntryAt(before, q.tx.id) == Some(q) && SpentSince(before, q.tx.id) == {};
    assert Ids(be) == Ids(before) + {p.tx.id} && Ids(before) == Ids([c, p]) + {q.tx.id};
  }

  lemma EntriesR()
    ensures BlockEntries(R) == [Entry(Coinbase([2]), [2]), eP, eQ] + [eP]
    ensures InputIndices(eQ.tx.Spends(), [3]) == {0} && InputIndices(eP.tx.Spends(), [4]) == {}
  {
    assert BlockEntries(R) == [Entry(Coinbase([2]), [2]), eP, eQ] + [eP];
    assert eQ.tx.Spends() == [In([3], 0)] && eP.tx.Spends() == [In([1], 0)];
    assert [In([3], 0)][..0] == [] && [In([1], 0)][..0] == [];
  }

  lemma SpentAgain(u: Utxo, be: seq<Entry>, e: Entry, keyHash: KeyHash)
    requires e.tx.id in Ids(be) && CoinsAt(be, e.tx.id) == CoinsOf(e) && SpentSince(be, e.tx.id) == {}
    ensures Coins(Replay(u, be, keyHash), e.tx.id) == CoinsOf(e)
  {
    CoinsAfterReplay(u, be, keyHash, e.tx.id);
    KeepNone(CoinsOf(e));
  }

  lemma {:induction false} BackAgain(es: seq<Entry>, be: seq<Entry>, e: Entry)
    requires e.tx.id in Ids(be) && CoinsAt(be, e.tx.id) == CoinsOf(e) && SpentSince(be, e.tx.id) == {}
    requires |e.tx.vout| == 1 && 0 in SpentIn(be, e.tx.id)
    ensures !NoneComesBack(es, be) && Unspent(es + be, e.tx.id) == []
  {
    var t, cs := e.tx.id, CoinsOf(e);
    SpentAppend(es, be, t);
    assert EntryAt(es + be, t) == EntryAt(be, t);
    assert CoinsAt(es + be, t) == cs && 0 in SpentIn(es + be, t);
    OneGone(cs, SpentIn(es + be, t));
    assert ComesBack(es, be, t, cs[0]);
    assert !NoneBackAt(es, be, t);
  }

  lemma OneGone(cs: seq<Coin>, spent: set<int>)
    requires |cs| == 1 && cs[0].index in spent
    ensures Keep(cs, spent) == []
  {
    assert cs[..0] == [];
  }

  lemma BackR(u: Utxo)
    ensures !NoneComesBack([eG], BlockEntries(R))
    ensures Coins(Replay(u, BlockEntries(R), Lenient().keyHash), [3]) == CoinsOf(eP)
    ensures Coins(Replay(u, BlockEntries(R), Lenient().keyHash), [4]) == CoinsOf(eQ)
    ensures Unspent([eG] + BlockEntries(R), [3]) == []
  {
    var be := BlockEntries(R);
    EntriesR();
    ListedTwice(Entry(Coinbase([2]), [2]), eP, eQ);
    SpentAgain(u, be, eP, Lenient().keyHash);
    SpentAgain(u, be, eQ, Lenient().keyHash);
    BackAgain([eG], be, eP);
  }

  /** One accepted block on top, without any switch, makes the cache wrong: the output of P is
      in it although Q has spent it, and that of Q as well.  Of all that a proper block must
      be, only the repetition is missing. */
  lemma RepeatRun() returns (st: State, st': State)
    ensures Run(Lenient(), G, [st], []) && OnlyG(st) && CacheOk(st, [1])
    ensures BlockAccepted(Lenient(), st.blocks, [1], st.top, st.spends, R) && Shaped(st.blocks, [1], R)
    ensures Step(Lenient(), [1], st, R, st') && Outcome(Lenient(), st, [1], R).AddedToTop?
    ensures Ready(st', [1]) && !CacheOk(st', [1])
    ensures Coins(st'.unspent, [3]) == CoinsOf(eP) && Coins(st'.unspent, [4]) == CoinsOf(eQ)
    ensures Unspent(PathEntries(st'.blocks, [1], st'.top), [3]) == []
  {
    st := StartG();
    AcceptedR(st);
    st' := StepExists(Lenient(), st, [1], R);
    StepPaths(Lenient(), st, [1], R, st');
    BackR(st.unspent);
    StepCache(Lenient(), st, [1], R, st');
  }

  // ----- a transaction without inputs

  const Nothing := Transaction([3], [], [], 0)
  const E := Block(1, [Coinbase([2]), Nothing], [1], [2], 0, 1)

  lemma ProperE(st: State)
    requires OnlyG(st)
    ensures Proper(st.blocks, [1], E)
  {
    OneTx(eG, [1]);
    IsProper(st.blocks, [1], E);
  }

  lemma AcceptedE(st: State)
    requires OnlyG(st)
    ensures BlockAccepted(Lenient(), st.blocks, [1], [1], st.spends, E)
  {
    PayAccepted(st.blocks, [1], [1], st.spends, [1], E.transactions[..1], Nothing, []);
    assert PassesAt(st.blocks, [1], [1], st.spends, [1], E.transactions, 1);
    BlockPasses(st.blocks, [1], [1], st.spends, E, [2]);
  }

  lemma HoldsNothing(st: State)
    requires Ready(st, [1]) && PathEntries(st.blocks, [1], st.top) == [eG] + BlockEntries(E)
    ensures Mined(st, [1], Nothing) && Reindex.SomeWithoutInputs(PathEntries(st.blocks, [1], st.top))
  {
    assert BlockEntries(E)[1] == Entry(Nothing, [2]);
    assert Entry(Nothing, [2]) in [eG] + BlockEntries(E);
  }

  /** A run after which the primary branch holds a transaction without inputs, so that the
      scan that rebuilds the cache crashes. */
  lemma EmptyTxRun() returns (sts: seq<State>, evs: seq<Event>)
    ensures Run(Lenient(), G, sts, evs) && evs == [BlockGiven(E)]
    ensures Ready(sts[1], [1]) && Mined(sts[1], [1], Nothing)
    ensures Reindex.SomeWithoutInputs(PathEntries(sts[1].blocks, [1], sts[1].top))
    ensures CacheOkAt([1], sts, 1) && ClearAt([1], sts, 1)
  {
    var st := StartG();
    ProperE(st);
    AcceptedE(st);
    var st' := GiveFirst(st, E);
    sts, evs := [st] + [st'], [BlockGiven(E)];
    HoldsNothing(st');
    ProperCache(Lenient(), st, [1], E, st');
    StepPool(Lenient(), st, [1], E, st');
  }

  lemma ReturnsNothing(st: State, st': State)
    requires StateOk(st, [1]) && Mined(st, [1], Nothing)
    requires st' == st.(pool := PoolSubmit(Lenient(), st.blocks, st.unspent, st.pool, Nothing))
    ensures !ClearOf(st'.pool, st'.blocks, [1], st'.top)
  {
    EmptyPasses(Lenient(), st, [1], Nothing);
    var e :| e in PathEntries(st.blocks, [1], st.top) && e.tx == Nothing;
    EntryOnPath(st.blocks, [1], st.top, e);
    assert Nothing.id in ApprovedIds(st.blocks[e.block].transactions) && Nothing.id in st'.pool;
  }

  /** Submitted again, that transaction is pooled although the primary branch holds it. */
  lemma EmptyTxReturns() returns (sts: seq<State>, evs: seq<Event>)
    ensures Run(Lenient(), G, sts, evs) && evs == [BlockGiven(E), TxSubmitted(Nothing)]
    ensures ResubmitsEmpty([1], sts, evs, 1) && !ClearAt([1], sts, 2)
  {
    var sts1, evs1 := EmptyTxRun();
    var st := sts1[1];
    RunKeepsState(Lenient(), G, sts1, evs1, 1);
    var st' := st.(pool := PoolSubmit(Lenient(), st.blocks, st.unspent, st.pool, Nothing));
    RunSnoc(Lenient(), G, sts1, evs1, TxSubmitted(Nothing), st');
    sts, evs := sts1 + [st'], evs1 + [TxSubmitted(Nothing)];
    ReturnsNothing(st, st');
  }
}
