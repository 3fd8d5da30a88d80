/** Concrete blocks that the checks accept, and what a run of a few of them shows. */
module Witnesses {
  import opened Structures
  import opened Tree
  import opened Ledger
  import opened ChainLedger
  import opened TxIndex
  import opened Pending
  import opened Verification
  import opened Growth
  import opened Blockchain
  import opened NodeState
  import opened Events
  import opened Runs
  import opened Continuation
  import opened Supply
  import opened Switch
  import SupplyBound

  // ----- building blocks

  /** Every signature verifies, every key is its own hash, every block meets its target. */
  function Lenient(): Crypto {
    Crypto((k: Bytes) => k, (tx: Transaction, i: int, owner: Bytes) => true,
           (prev: Hash, txs: seq<Transaction>, time: int, nonce: int) => 0)
  }

  function Coinbase(id: Bytes): Transaction {
    Transaction(id, [TXInput([], -1, [], [7])], [TXOutput(10.0, [7])], 0)
  }

  function In(txid: Bytes, vout: int): TXInput {
    TXInput(txid, vout, [], [7])
  }

  function Pay(id: Bytes, ins: seq<TXInput>, value: real): Transaction {
    Transaction(id, ins, [TXOutput(value, [7])], 0)
  }

  // ----- accepted payments

  /** An output that no stored block spends does not look spent on any branch. */
  lemma LooksFresh(s: Store, g: Hash, m: Hash, tb: HashLists, sp: SpendLists, tip: Hash, vin: TXInput)
    requires WellFormed(s, g) && m in s && tip in s && IndexMatches(s, tb, sp)
    requires forall h | h in s :: vin.vout !in SpentIn(BlockEntries(s[h]), vin.txid)
    ensures !LooksSpent(s, g, m, sp, tip, vin)
  {
    var es, t, v := PathEntries(s, g, tip), vin.txid, vin.vout;
    if t in Ids(es) {
      if v in SpentIn(es, t) {
        var a := FindSpender(s, g, tip, t, v);
      }
      forall r | r in SpendsOf(sp, t) && r.blockHash in s
        ensures r.outInd != v
      {
        MarksIn(SpendsOf(sp, t), r.blockHash, r.outInd);
      }
    }
  }

  ghost predicate FundedAt(s: Store, g: Hash, m: Hash, sp: SpendLists, tip: Hash, prevtxs: seq<Transaction>,
                           ins: seq<TXInput>, srcs: seq<Transaction>, i: int)
    requires WellFormed(s, g) && m in s && tip in s && 0 <= i < |ins| == |srcs|
  {
    && SourceOf(PathEntries(s, g, tip), prevtxs, ins[i].txid) == Some(srcs[i])
    && !LooksSpent(s, g, m, sp, tip, ins[i])
    && srcs[i].id != [] && SourceHas(srcs[i], ins[i])
    && srcs[i].vout[ins[i].vout].pubKeyHash == ins[i].pubKey
  }

  lemma FundedSources(s: Store, g: Hash, m: Hash, sp: SpendLists, tip: Hash, prevtxs: seq<Transaction>,
                      ins: seq<TXInput>, srcs: seq<Transaction>)
    requires WellFormed(s, g) && m in s && tip in s && |ins| == |srcs|
    requires forall i {:trigger FundedAt(s, g, m, sp, tip, prevtxs, ins, srcs, i)} | 0 <= i < |ins| ::
               FundedAt(s, g, m, sp, tip, prevtxs, ins, srcs, i)
    ensures HasSources(PathEntries(s, g, tip), prevtxs, ins)
    ensures SourcesOf(PathEntries(s, g, tip), prevtxs, ins) == srcs
  {
    var es := PathEntries(s, g, tip);
    forall i | 0 <= i < |ins|
      ensures SourceOf(es, prevtxs, ins[i].txid) == Some(srcs[i])
    {
      assert FundedAt(s, g, m, sp, tip, prevtxs, ins, srcs, i);
    }
    assert |SourcesOf(es, prevtxs, ins)| == |srcs|;
  }

  /** A payment whose inputs are funded, distinct and worth what it pays out is accepted. */
  lemma PayAccepted(s: Store, g: Hash, m: Hash, sp: SpendLists, tip: Hash, prevtxs: seq<Transaction>,
                    tx: Transaction, srcs: seq<Transaction>)
    requires WellFormed(s, g) && m in s && tip in s && !tx.IsCoinbase() && |tx.vin| == |srcs|
    requires forall i {:trigger FundedAt(s, g, m, sp, tip, prevtxs, tx.vin, srcs, i)} | 0 <= i < |tx.vin| ::
               FundedAt(s, g, m, sp, tip, prevtxs, tx.vin, srcs, i)
    requires forall i, j | 0 <= i < j < |tx.vin| :: PlaceOf(tx.vin[i]) != PlaceOf(tx.vin[j])
    requires forall i | 0 <= i < |tx.vin| :: SourceHas(srcs[i], tx.vin[i])
    requires SumIn(tx.vin, srcs) == SumOut(tx.vout)
    requires forall i | 0 <= i < |tx.vout| :: tx.vout[i].value >= SMALLEST_UNIT
    ensures TxAccepted(Lenient(), s, g, m, sp, tip, prevtxs, tx)
  {
    FundedSources(s, g, m, sp, tip, prevtxs, tx.vin, srcs);
    forall i | 0 <= i < |tx.vin|
      ensures !LooksSpent(s, g, m, sp, tip, tx.vin[i])
      ensures |srcs[i].id| > 0 && InputSigned(Lenient(), tx, srcs, i)
    {
      assert FundedAt(s, g, m, sp, tip, prevtxs, tx.vin, srcs, i);
    }
  }

  lemma OneIn(vin: TXInput, src: Transaction)
    requires SourceHas(src, vin)
    ensures SumIn([vin], [src]) == src.vout[vin.vout].value
  {
    assert [vin][..0] == [] && [src][..0] == [];
  }

  lemma OneOut(out: TXOutput)
    ensures SumOut([out]) == out.value
  {
    assert [out][..0] == [];
  }

  /** A payment of one funded output to one owner. */
  lemma OneAccepted(s: Store, g: Hash, m: Hash, sp: SpendLists, tip: Hash, prevtxs: seq<Transaction>,
                    id: Bytes, vin: TXInput, src: Transaction)
    requires WellFormed(s, g) && m in s && tip in s && vin.txid != []
    requires FundedAt(s, g, m, sp, tip, prevtxs, [vin], [src], 0) && src.vout[vin.vout].value >= SMALLEST_UNIT
    ensures TxAccepted(Lenient(), s, g, m, sp, tip, prevtxs, Pay(id, [vin], src.vout[vin.vout].value))
  {
    var tx := Pay(id, [vin], src.vout[vin.vout].value);
    OneIn(vin, src);
    OneOut(tx.vout[0]);
    PayAccepted(s, g, m, sp, tip, prevtxs, tx, [src]);
  }

  lemma {:induction false} FirstFound(txs: seq<Transaction>, j: nat)
    requires j < |txs| && forall i | 0 <= i < j :: txs[i].id != txs[j].id
    ensures FirstWithId(txs, txs[j].id) == Some(txs[j])
  {
    if j > 0 {
      FirstFound(txs[1..], j - 1);
    }
  }

  /** The first output of a transaction listed before is funded. */
  lemma FundedBefore(s: Store, g: Hash, m: Hash, sp: SpendLists, tip: Hash, txs: seq<Transaction>, i: nat, j: nat)
    requires WellFormed(s, g) && m in s && tip in s && j < i <= |txs| && OwnIds(txs)
    requires txs[j].id != [] && txs[j].id !in Ids(PathEntries(s, g, tip))
    requires |txs[j].vout| > 0 && txs[j].vout[0].pubKeyHash == [7]
    ensures FundedAt(s, g, m, sp, tip, txs[..i], [In(txs[j].id, 0)], [txs[j]], 0)
  {
    HasEntry(PathEntries(s, g, tip), txs[j].id);
    FirstFound(txs[..i], j);
  }

  /** An output of the branch that no stored block spends is funded. */
  lemma FundedByChain(s: Store, g: Hash, m: Hash, tb: HashLists, sp: SpendLists, tip: Hash, prevtxs: seq<Transaction>,
                      e: Entry, v: nat)
    requires WellFormed(s, g) && m in s && tip in s && IndexMatches(s, tb, sp)
    requires EntryAt(PathEntries(s, g, tip), e.tx.id) == Some(e) && e.tx.id != []
    requires v < |e.tx.vout| && e.tx.vout[v].pubKeyHash == [7]
    requires forall h | h in s :: v !in SpentIn(BlockEntries(s[h]), e.tx.id)
    ensures FundedAt(s, g, m, sp, tip, prevtxs, [In(e.tx.id, v)], [e.tx], 0)
  {
    LooksFresh(s, g, m, tb, sp, tip, In(e.tx.id, v));
  }

  // ----- accepted blocks

  ghost predicate PassesAt(s: Store, g: Hash, m: Hash, sp: SpendLists, tip: Hash, txs: seq<Transaction>, i: int)
    requires WellFormed(s, g) && m in s && tip in s && 0 <= i < |txs|
  {
    !txs[i].IsCoinbase() && TxAccepted(Lenient(), s, g, m, sp, tip, txs[..i], txs[i])
  }

  lemma {:induction false} OnlyFirst(txs: seq<Transaction>)
    requires txs != [] && txs[0].IsCoinbase() && forall i | 1 <= i < |txs| :: !txs[i].IsCoinbase()
    ensures CoinbaseCount(txs) == 1
  {
    var before := txs[..|txs| - 1];
    if before != [] {
      OnlyFirst(before);
    }
  }

  lemma {:induction false} TargetPositive(n: nat)
    ensures Pow2(n) > 0
  {
    if n > 0 {
      TargetPositive(n - 1);
    }
  }

  /** A coinbase followed by enough payments that pass is an accepted block. */
  lemma BlockPasses(s: Store, g: Hash, m: Hash, sp: SpendLists, b: Block, id: Bytes)
    requires WellFormed(s, g) && m in s && b.prevBlockHash in s
    requires 1 <= b.height < |b.transactions| <= 1000 && b.transactions[0] == Coinbase(id)
    requires forall i {:trigger PassesAt(s, g, m, sp, b.prevBlockHash, b.transactions, i)} |
               1 <= i < |b.transactions| ::
               PassesAt(s, g, m, sp, b.prevBlockHash, b.transactions, i)
    ensures BlockAccepted(Lenient(), s, g, m, sp, b)
  {
    var txs, tip := b.transactions, b.prevBlockHash;
    forall i | 1 <= i < |txs|
      ensures !txs[i].IsCoinbase()
    {
      assert PassesAt(s, g, m, sp, tip, txs, i);
    }
    OnlyFirst(txs);
    TargetPositive(240);
    forall i | 0 <= i < |txs|
      ensures TxAccepted(Lenient(), s, g, m, sp, tip, txs[..i], txs[i])
    {
      if i > 0 {
        assert PassesAt(s, g, m, sp, tip, txs, i);
      }
    }
  }

  /** A payment of the whole output of the transaction before it. */
  ghost predicate Handed(txs: seq<Transaction>, i: int)
    requires 1 <= i < |txs|
  {
    txs[i] == Pay(txs[i].id, [In(txs[i - 1].id, 0)], 10.0) && txs[i - 1].vout == [TXOutput(10.0, [7])]
  }

  lemma HandedPasses(s: Store, g: Hash, m: Hash, sp: SpendLists, tip: Hash, txs: seq<Transaction>, i: nat)
    requires WellFormed(s, g) && m in s && tip in s && 1 <= i < |txs| && OwnIds(txs)
    requires Handed(txs, i) && txs[i - 1].id != [] && txs[i - 1].id !in Ids(PathEntries(s, g, tip))
    ensures PassesAt(s, g, m, sp, tip, txs, i)
  {
    FundedBefore(s, g, m, sp, tip, txs, i, i - 1);
    OneAccepted(s, g, m, sp, tip, txs[..i], txs[i].id, In(txs[i - 1].id, 0), txs[i - 1]);
  }

  /** A block in which each payment hands on the whole output of the transaction before it. */
  ghost predicate HandsOn(b: Block) {
    && 1 <= b.height < |b.transactions| <= 1000 && OwnIds(b.transactions)
    && b.transactions[0] == Coinbase(b.transactions[0].id)
    && (forall tx | tx in b.transactions :: tx.id != [])
    && forall i {:trigger Handed(b.transactions, i)} | 1 <= i < |b.transactions| :: Handed(b.transactions, i)
  }

  lemma HandsOnPasses(s: Store, g: Hash, m: Hash, sp: SpendLists, b: Block)
    requires WellFormed(s, g) && m in s && b.prevBlockHash in s && HandsOn(b)
    requires forall tx | tx in b.transactions :: tx.id !in Ids(PathEntries(s, g, b.prevBlockHash))
    ensures BlockAccepted(Lenient(), s, g, m, sp, b)
  {
    var txs := b.transactions;
    forall i | 1 <= i < |txs|
      ensures PassesAt(s, g, m, sp, b.prevBlockHash, txs, i)
    {
      assert Handed(txs, i) && txs[i - 1] in txs;
      HandedPasses(s, g, m, sp, b.prevBlockHash, txs, i);
    }
    BlockPasses(s, g, m, sp, b, txs[0].id);
  }

  // ----- proper blocks

  /** A block one higher than its parent, with ids of its own, is proper. */
  lemma IsProper(s: Store, g: Hash, b: Block)
    requires WellFormed(s, g) && b.prevBlockHash in s && b.height == s[b.prevBlockHash].height + 1
    requires Sound(PathEntries(s, g, b.prevBlockHash))
    requires |b.hash| == 1 == |g| && b.hash[0] != 0 && OwnIds(b.transactions)
    requires forall tx | tx in b.transactions :: tx.id != [] && tx.id !in Ids(PathEntries(s, g, b.prevBlockHash))
    ensures Proper(s, g, b)
  {
    assert Zeros(1)[0] == 0;
    OwnIdsAreNew(PathEntries(s, g, b.prevBlockHash), b);
    NewAreProper(PathEntries(s, g, b.prevBlockHash), b);
  }

  // ----- going on with a run

  lemma RunReady(first: Block, sts: seq<State>, evs: seq<Event>)
    requires Run(Lenient(), first, sts, evs)
    ensures Ready(sts[|evs|], first.hash) && StateOk(sts[|evs|], first.hash)
  {
    RunKeepsState(Lenient(), first, sts, evs, |evs|);
  }

  /** A run that has come to a state with these blocks, this top and a correct cache. */
  ghost predicate Reaches(first: Block, sts: seq<State>, evs: seq<Event>, st: State, s: Store, top: Hash) {
    && Run(Lenient(), first, sts, evs) && st == sts[|evs|]
    && st.blocks == s && st.top == top
    && StateOk(st, first.hash) && CacheOk(st, first.hash)
  }

  /** What a node relies on, and what it checks, about a new block. */
  ghost predicate Welcome(st: State, g: Hash, b: Block)
    requires WellFormed(st.blocks, g) && st.top in st.blocks
  {
    && Proper(st.blocks, g, b) && b.hash !in st.blocks && b.prevBlockHash in st.blocks
    && BlockAccepted(Lenient(), st.blocks, g, st.top, st.spends, b)
  }

  lemma StartRun(first: Block) returns (st: State)
    requires GenesisOk(first)
    ensures Reaches(first, [st], [], st, map[first.hash := first], first.hash)
    ensures Initial(Lenient(), first, st)
  {
    st := RunStarts(Lenient(), first);
    InitialState(Lenient(), first, st);
  }

  /** An accepted block that is new continues a run, with the top by its height. */
  lemma GiveNext(first: Block, sts: seq<State>, evs: seq<Event>, st: State, b: Block) returns (st': State)
    requires Run(Lenient(), first, sts, evs) && st == sts[|evs|] && StateOk(st, first.hash)
    requires Welcome(st, first.hash, b)
    ensures Run(Lenient(), first, sts + [st'], evs + [BlockGiven(b)]) && Step(Lenient(), first.hash, st, b, st')
    ensures Outcome(Lenient(), st, first.hash, b) == AddOutcome(st.blocks, st.top, b)
    ensures st'.blocks == st.blocks[b.hash := b]
    ensures st'.top == if b.height <= st.blocks[st.top].height then st.top else b.hash
  {
    st' := RunGoesOn(Lenient(), first, sts, evs, b);
  }

  /** Without a switch the cache stays correct as well. */
  lemma GiveOnward(first: Block, sts: seq<State>, evs: seq<Event>, st: State, b: Block, s: Store, top: Hash,
                   s': Store, top': Hash) returns (st': State)
    requires Reaches(first, sts, evs, st, s, top) && Welcome(st, first.hash, b)
    requires !AddOutcome(s, top, b).AddedToParallelTop?
    requires s' == s[b.hash := b] && top' == if b.height <= s[top].height then top else b.hash
    ensures Reaches(first, sts + [st'], evs + [BlockGiven(b)], st', s', top')
  {
    st' := GiveNext(first, sts, evs, st, b);
    ProperCache(Lenient(), st, first.hash, b, st');
    RunReady(first, sts + [st'], evs + [BlockGiven(b)]);
  }

  /** At the n-th event of a run, with a correct cache, the top moves to another branch. */
  ghost predicate SwitchedTo(first: Block, sts: seq<State>, evs: seq<Event>, n: nat, s: Store, top: Hash, top': Hash) {
    && Run(Lenient(), first, sts, evs) && n < |evs|
    && CacheOkAt(first.hash, sts, n) && SwitchAt(Lenient(), first.hash, sts, evs, n)
    && sts[n].top == top && sts[n + 1].blocks == s && sts[n + 1].top == top'
  }

  /** A block that makes another branch the primary one. */
  lemma GiveSwitch(first: Block, sts: seq<State>, evs: seq<Event>, st: State, b: Block, s: Store, top: Hash)
    returns (sts': seq<State>, evs': seq<Event>)
    requires Reaches(first, sts, evs, st, s, top) && Welcome(st, first.hash, b)
    requires AddOutcome(s, top, b).AddedToParallelTop?
    ensures evs' == evs + [BlockGiven(b)] && SwitchedTo(first, sts', evs', |evs|, s[b.hash := b], top, b.hash)
  {
    var st' := GiveNext(first, sts, evs, st, b);
    sts', evs' := sts + [st'], evs + [BlockGiven(b)];
    assert evs'[|evs|] == BlockGiven(b) && sts'[|evs|] == st && sts'[|evs| + 1] == st';
  }

  /** Every index of such a tree makes the switch to `top'` lose an output. */
  ghost predicate AlwaysLoses(s: Store, g: Hash, top: Hash, top': Hash)
    requires WellFormed(s, g) && top in s && top' in s
  {
    var f := ForkHeight(s, g, top, top');
    forall tb, sp | IndexMatches(s, tb, sp) ::
      !LossesSpent(s, g, top', sp, top, f, EntriesAbove(s, g, top', f))
  }

  /** At the n-th event of a run a switch of branches turns a correct cache into a wrong one. */
  ghost predicate TurnsWrong(first: Block, sts: seq<State>, evs: seq<Event>, n: nat) {
    && Run(Lenient(), first, sts, evs) && n < |evs|
    && CacheOkAt(first.hash, sts, n) && SwitchAt(Lenient(), first.hash, sts, evs, n)
    && !HarmlessAt(Lenient(), first.hash, sts, evs, n) && !CacheOkAt(first.hash, sts, n + 1)
  }

  lemma NotHarmless(st: State, g: Hash, st': State)
    requires Core(st', g) && st.top in st'.blocks && AlwaysLoses(st'.blocks, g, st.top, st'.top)
    ensures !Harmless(st, g, st')
  {
    assert IndexMatches(st'.blocks, st'.txBlocks, st'.spends);
  }

  lemma EndsWrong(first: Block, sts: seq<State>, evs: seq<Event>, n: nat, s: Store, top: Hash, top': Hash)
    requires SwitchedTo(first, sts, evs, n, s, top, top')
    requires WellFormed(s, first.hash) && top in s && top' in s && AlwaysLoses(s, first.hash, top, top')
    ensures TurnsWrong(first, sts, evs, n)
  {
    RunKeepsState(Lenient(), first, sts, evs, n + 1);
    NotHarmless(sts[n], first.hash, sts[n + 1]);
    CacheStep(Lenient(), first, sts, evs, n, n + 1);
  }

  /** A block that makes such a branch the primary one turns the cache wrong. */
  lemma SwitchHarms(first: Block, sts: seq<State>, evs: seq<Event>, st: State, b: Block, s: Store, top: Hash,
                    s': Store)
    returns (sts': seq<State>, evs': seq<Event>)
    requires Reaches(first, sts, evs, st, s, top) && Welcome(st, first.hash, b)
    requires AddOutcome(s, top, b).AddedToParallelTop? && s' == s[b.hash := b]
    requires WellFormed(s', first.hash) && top in s' && AlwaysLoses(s', first.hash, top, b.hash)
    ensures evs' == evs + [BlockGiven(b)] && TurnsWrong(first, sts', evs', |evs|)
  {
    sts', evs' := GiveSwitch(first, sts, evs, st, b, s, top);
    EndsWrong(first, sts', evs', |evs|, s', top, b.hash);
  }

  /** A block that hands on, with ids of its own, is welcome in every state. */
  lemma HandsOnWelcome(st: State, g: Hash, b: Block, s: Store)
    requires StateOk(st, g) && st.blocks == s && b.hash !in s && b.prevBlockHash in s && HandsOn(b)
    requires |b.hash| == 1 == |g| && b.hash[0] != 0 && b.height == s[b.prevBlockHash].height + 1
    requires forall tx | tx in b.transactions :: tx.id !in Ids(PathEntries(s, g, b.prevBlockHash))
    ensures Welcome(st, g, b)
  {
    IsProper(s, g, b);
    HandsOnPasses(s, g, st.top, st.spends, b);
  }

  /** A block that hands on spends no output of another transaction. */
  lemma HandsOnSpares(b: Block, t: Bytes)
    requires HandsOn(b) && forall tx | tx in b.transactions :: tx.id != t
    ensures SpentIn(BlockEntries(b), t) == {} && t !in Ids(BlockEntries(b))
  {
    BlockIds(b, t);
    var es, txs := BlockEntries(b), b.transactions;
    forall v
      ensures v !in SpentIn(es, t)
    {
      forall j | 0 <= j < |es|
        ensures (t, v) !in Places(es[j].tx.Spends())
      {
        if j > 0 {
          assert Handed(txs, j) && txs[j - 1] in txs;
        }
      }
      SpentArePlaces(es, t, v);
      SupplyBound.InputsIn(es, (t, v));
    }
  }
}
