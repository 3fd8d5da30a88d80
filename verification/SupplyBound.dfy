/** How much money a chain of accepted blocks can hold. */
module SupplyBound {
  import opened Structures
  import opened Tree
  import opened Ledger
  import opened ChainLedger
  import opened TxIndex
  import opened Pending
  import opened Verification
  import opened Growth
  import opened Supply
  import opened NodeState
  import opened Shortfall
  import opened Runs
  import opened Events
  import Blockchain

  ghost predicate AmountOk(es: seq<Entry>, tx: Transaction) {
    if tx.IsCoinbase() then CoinbaseOk(tx)
    else
      && Abs(InputsValue(es, tx.vin, None) - SumOut(tx.vout)) < SMALLEST_UNIT
      && forall i | 0 <= i < |tx.vout| :: tx.vout[i].value >= SMALLEST_UNIT
  }

  /** Every coinbase pays the reward, every other transaction pays out what it takes in,
      up to less than the smallest amount, and no output is below that amount. */
  ghost predicate AmountsOk(es: seq<Entry>) {
    es == [] || (AmountsOk(es[..|es| - 1]) && AmountOk(es[..|es| - 1], es[|es| - 1].tx))
  }

  ghost function Coinbases(es: seq<Entry>): nat {
    if es == [] then 0 else Coinbases(es[..|es| - 1]) + (if es[|es| - 1].tx.IsCoinbase() then 1 else 0)
  }

  ghost function Payments(es: seq<Entry>): nat {
    if es == [] then 0 else Payments(es[..|es| - 1]) + (if es[|es| - 1].tx.IsCoinbase() then 0 else 1)
  }

  lemma {:induction false} CoinSumIs(cs: seq<Coin>, outs: seq<TXOutput>)
    requires |cs| == |outs| && forall i | 0 <= i < |cs| :: cs[i].value == outs[i].value
    ensures CoinSum(cs, None) == SumOut(outs)
  {
    if cs != [] {
      CoinSumIs(cs[..|cs| - 1], outs[..|cs| - 1]);
    }
  }

  /** The balance of one step. */
  ghost function Surplus(es: seq<Entry>, e: Entry): real {
    CoinSum(CoinsOf(e), None) - InputsValue(es, e.tx.Spends(), None)
  }

  lemma SurplusIs(es: seq<Entry>, e: Entry)
    requires AmountOk(es, e.tx)
    ensures e.tx.IsCoinbase() ==> Surplus(es, e) == PAYMENT_FOR_BLOCK_MADE
    ensures !e.tx.IsCoinbase() ==> -SMALLEST_UNIT < Surplus(es, e) < SMALLEST_UNIT
  {
    CoinSumIs(CoinsOf(e), e.tx.vout);
    if e.tx.IsCoinbase() {
      assert e.tx.vout[..0] == [];
    }
  }

  /** Received less spent stays near the rewards. */
  lemma {:induction false} NearRewards(es: seq<Entry>)
    requires AmountsOk(es)
    ensures var d := Received(es, None) - SpentValue(es, None) - Coinbases(es) as real * PAYMENT_FOR_BLOCK_MADE;
            -(Payments(es) as real * SMALLEST_UNIT) <= d <= Payments(es) as real * SMALLEST_UNIT
  {
    if es != [] {
      NearRewards(es[..|es| - 1]);
      SurplusIs(es[..|es| - 1], es[|es| - 1]);
    }
  }

  /** The unspent outputs of a chain differ from the rewards of its coinbases by at most one
      smallest amount for each other transaction. */
  lemma SupplyNear(u: Utxo, es: seq<Entry>)
    requires Sound(es) && NoDoubleSpend(es) && AmountsOk(es) && Tracks(u, es)
    ensures Abs(Total(u, None) - Coinbases(es) as real * PAYMENT_FOR_BLOCK_MADE) <= Payments(es) as real * SMALLEST_UNIT
  {
    CacheTotal(u, es, None);
    NearRewards(es);
  }

  // ----- a cache that lacks outputs

  lemma {:induction false} KeepLess(cs: seq<Coin>, lost: set<int>)
    requires forall c | c in cs :: c.value >= 0.0
    ensures 0.0 <= CoinSum(Keep(cs, lost), None) <= CoinSum(cs, None)
    ensures forall c | c in Keep(cs, lost) :: c.value >= 0.0
  {
    if cs != [] {
      var n := |cs| - 1;
      var k := Keep(cs[..n], lost);
      assert cs[n] in cs && forall c | c in cs[..n] :: c in cs;
      KeepLess(cs[..n], lost);
      assert (k + [cs[n]])[..|k|] == k && k + [] == k;
    }
  }

  lemma {:induction false} TotalLess(u: Utxo, u': Utxo, ks: set<Bytes>)
    requires forall k | k in ks :: CoinSum(Coins(u, k), None) <= CoinSum(Coins(u', k), None)
    ensures TotalOver(u, ks, None) <= TotalOver(u', ks, None)
  {
    if k :| k in ks {
      TotalTake(u, ks, None, k);
      TotalTake(u', ks, None, k);
      TotalLess(u, u', ks - {k});
    }
  }

  lemma {:induction false} OutputsPositive(es: seq<Entry>, t: Bytes)
    requires AmountsOk(es)
    ensures forall c | c in CoinsAt(es, t) :: c.value >= 0.0
  {
    if es != [] {
      var e := es[|es| - 1];
      OutputsPositive(es[..|es| - 1], t);
      forall c | c in CoinsOf(e)
        ensures c.value >= 0.0
      {
        assert e.tx.vout[c.index].value == c.value;
      }
    }
  }

  lemma ShortIsLess(u: Utxo, es: seq<Entry>, t: Bytes)
    requires AmountsOk(es) && ShortAt(u, es, t)
    ensures CoinSum(Coins(u, t), None) <= CoinSum(Unspent(es, t), None)
  {
    var lost :| Short(u, es, t, lost);
    OutputsPositive(es, t);
    KeepLess(CoinsAt(es, t), SpentIn(es, t));
    KeepLess(Unspent(es, t), lost);
  }

  /** A cache that lacks some outputs holds at most what the chain leaves. */
  lemma WithinTotal(u: Utxo, es: seq<Entry>)
    requires Sound(es) && NoDoubleSpend(es) && AmountsOk(es) && Within(u, es)
    ensures Total(u, None) <= Received(es, None) - SpentValue(es, None)
  {
    var keyHash: KeyHash := (b: Bytes) => b;
    var u' := Replay(map[], es, keyHash);
    ReplayIsUnspent(es, keyHash);
    CacheTotal(u', es, None);
    forall t
      ensures CoinSum(Coins(u, t), None) <= CoinSum(Coins(u', t), None)
    {
      assert ShortAt(u, es, t);
      ShortIsLess(u, es, t);
    }
    var ks := u.Keys + u'.Keys;
    TotalMore(u, ks, None);
    TotalMore(u', ks, None);
    TotalLess(u, u', ks);
  }

  /** Whatever such a cache lacks, it never holds more than the rewards and one smallest amount
      for each payment. */
  lemma SupplyAtMost(u: Utxo, es: seq<Entry>)
    requires Sound(es) && NoDoubleSpend(es) && AmountsOk(es) && Within(u, es)
    ensures Total(u, None) <= Coinbases(es) as real * PAYMENT_FOR_BLOCK_MADE + Payments(es) as real * SMALLEST_UNIT
    ensures WholeAmounts(es) ==> Total(u, None) <= Coinbases(es) as real * PAYMENT_FOR_BLOCK_MADE
  {
    WithinTotal(u, es);
    NearRewards(es);
    if WholeAmounts(es) {
      ExactRewards(es);
    }
  }

  // ----- whole units

  ghost predicate Whole(x: real) {
    exists k: int :: x == Units(k)
  }

  function Units(k: int): real {
    k as real * SMALLEST_UNIT
  }

  lemma WholeSum(x: real, y: real)
    requires Whole(x) && Whole(y)
    ensures Whole(x + y) && Whole(x - y)
  {
    var k :| x == Units(k);
    var l :| y == Units(l);
    assert x + y == Units(k + l) && x - y == Units(k - l);
  }

  lemma WholeSmall(x: real)
    requires Whole(x) && -SMALLEST_UNIT < x < SMALLEST_UNIT
    ensures x == 0.0
  {
    var k :| x == Units(k);
    assert -1 < k < 1;
  }

  ghost predicate WholeAmounts(es: seq<Entry>) {
    forall e | e in es :: forall o | o in e.tx.vout :: Whole(o.value)
  }

  lemma {:induction false} WholeCoins(cs: seq<Coin>)
    requires forall c | c in cs :: Whole(c.value)
    ensures Whole(CoinSum(cs, None))
  {
    if cs == [] {
      assert 0.0 == Units(0);
    } else {
      assert cs[|cs| - 1] in cs && forall c | c in cs[..|cs| - 1] :: c in cs;
      WholeCoins(cs[..|cs| - 1]);
      WholeSum(CoinSum(cs[..|cs| - 1], None), cs[|cs| - 1].value);
    }
  }

  lemma WholeOutputs(e: Entry)
    requires forall o | o in e.tx.vout :: Whole(o.value)
    ensures forall c | c in CoinsOf(e) :: Whole(c.value)
  {
    forall c | c in CoinsOf(e)
      ensures Whole(c.value)
    {
      var i :| 0 <= i < |CoinsOf(e)| && CoinsOf(e)[i] == c;
      assert e.tx.vout[i] in e.tx.vout;
    }
  }

  lemma {:induction false} WholeInputs(es: seq<Entry>, ins: seq<TXInput>)
    requires WholeAmounts(es)
    ensures Whole(InputsValue(es, ins, None))
  {
    if ins == [] {
      assert 0.0 == Units(0);
    } else {
      var vin := ins[|ins| - 1];
      WholeInputs(es, ins[..|ins| - 1]);
      HasEntry(es, vin.txid);
      if EntryAt(es, vin.txid).Some? {
        WholeOutputs(EntryAt(es, vin.txid).value);
      }
      assert 0.0 == Units(0);
      WholeSum(InputsValue(es, ins[..|ins| - 1], None), InputValue(es, vin, None));
    }
  }

  lemma {:induction false} ExactRewards(es: seq<Entry>)
    requires AmountsOk(es) && WholeAmounts(es)
    ensures Received(es, None) - SpentValue(es, None) == Coinbases(es) as real * PAYMENT_FOR_BLOCK_MADE
  {
    if es != [] {
      var before, e := es[..|es| - 1], es[|es| - 1];
      assert e in es && forall x | x in before :: x in es;
      ExactRewards(before);
      SurplusIs(before, e);
      WholeOutputs(e);
      WholeCoins(CoinsOf(e));
      WholeInputs(before, e.tx.Spends());
      WholeSum(CoinSum(CoinsOf(e), None), InputsValue(before, e.tx.Spends(), None));
      if !e.tx.IsCoinbase() {
        WholeSmall(Surplus(before, e));
      }
    }
  }

  /** With whole amounts the unspent outputs are worth exactly the rewards. */
  lemma SupplyExact(u: Utxo, es: seq<Entry>)
    requires Sound(es) && NoDoubleSpend(es) && AmountsOk(es) && WholeAmounts(es) && Tracks(u, es)
    ensures Total(u, None) == Coinbases(es) as real * PAYMENT_FOR_BLOCK_MADE
  {
    CacheTotal(u, es, None);
    ExactRewards(es);
  }

  // ----- accepted blocks

  lemma {:induction false} InputsIn(es: seq<Entry>, p: Place)
    ensures p in Places(AllInputs(es)) ==> exists j :: 0 <= j < |es| && p in Places(es[j].tx.Spends())
  {
    if es != [] {
      var n := |es| - 1;
      InputsIn(es[..n], p);
      PlacesAppend(AllInputs(es[..n]), es[n].tx.Spends());
      if p in Places(AllInputs(es[..n])) {
        var j :| 0 <= j < n && p in Places(es[..n][j].tx.Spends());
        assert p in Places(es[j].tx.Spends());
      }
    }
  }

  /** An accepted block spends nothing that its branch has spent. */
  lemma AcceptedSpendsFresh(crypto: Crypto, s: Store, g: Hash, m: Hash, sp: SpendLists, block: Block, p: Place)
    requires WellFormed(s, g) && m in s && block.prevBlockHash in s
    requires Sound(PathEntries(s, g, block.prevBlockHash))
    requires BlockAccepted(crypto, s, g, m, sp, block)
    requires p in Places(AllInputs(PathEntries(s, g, block.prevBlockHash)))
    ensures p !in Places(AllInputs(BlockEntries(block)))
  {
    var tip, txs, be := block.prevBlockHash, block.transactions, BlockEntries(block);
    var es := PathEntries(s, g, tip);
    if p in Places(AllInputs(be)) {
      InputsIn(be, p);
      var j :| 0 <= j < |be| && p in Places(be[j].tx.Spends());
      var i :| 0 <= i < |be[j].tx.Spends()| && PlaceOf(be[j].tx.Spends()[i]) == p;
      assert TxAccepted(crypto, s, g, m, sp, tip, txs[..j], txs[j]);
      var vin := txs[j].vin[i];
      SpentArePlaces(es, vin.txid, vin.vout);
      SpentNeedsRef(es, vin.txid);
      ResolvedRefs(es);
      assert LooksSpent(s, g, m, sp, tip, txs[j].vin[i]);
    }
  }

  /** Accepted blocks keep a branch free of double spends exactly when the inputs of each
      block spend different outputs: the block's own inputs are the one thing the checks
      do not compare across its transactions. */
  lemma AcceptedSpends(crypto: Crypto, s: Store, g: Hash, m: Hash, sp: SpendLists, block: Block)
    requires WellFormed(s, g) && m in s && block.prevBlockHash in s
    requires Sound(PathEntries(s, g, block.prevBlockHash)) && NoDoubleSpend(PathEntries(s, g, block.prevBlockHash))
    requires BlockAccepted(crypto, s, g, m, sp, block)
    ensures NoDoubleSpend(PathEntries(s, g, block.prevBlockHash) + BlockEntries(block))
            <==> DistinctPlaces(AllInputs(BlockEntries(block)))
  {
    var es, be := PathEntries(s, g, block.prevBlockHash), BlockEntries(block);
    AllInputsAppend(es, be);
    DistinctAppend(AllInputs(es), AllInputs(be));
    forall p | p in Places(AllInputs(es))
      ensures p !in Places(AllInputs(be))
    {
      AcceptedSpendsFresh(crypto, s, g, m, sp, block, p);
    }
  }

  lemma {:induction false} SumInIs(es: seq<Entry>, ins: seq<TXInput>, srcs: seq<Transaction>)
    requires |srcs| == |ins| && forall i | 0 <= i < |ins| :: SourceHas(srcs[i], ins[i])
    requires forall i | 0 <= i < |ins| :: TxAt(es, ins[i].txid) == Some(srcs[i])
    ensures SumIn(ins, srcs) == InputsValue(es, ins, None)
  {
    if ins != [] {
      var n := |ins| - 1;
      assert SourceHas(srcs[n], ins[n]);
      SumInIs(es, ins[..n], srcs[..n]);
    }
  }

  lemma AcceptedAmount(crypto: Crypto, s: Store, g: Hash, m: Hash, sp: SpendLists, tip: Hash,
                       be: seq<Entry>, txs: seq<Transaction>, tx: Transaction)
    requires WellFormed(s, g) && m in s && tip in s
    requires |be| == |txs| && forall j | 0 <= j < |be| :: be[j].tx == txs[j]
    requires Ordered(PathEntries(s, g, tip) + be)
    requires TxAccepted(crypto, s, g, m, sp, tip, txs, tx)
    ensures AmountOk(PathEntries(s, g, tip) + be, tx)
  {
    var es := PathEntries(s, g, tip);
    if !tx.IsCoinbase() {
      var srcs := SourcesOf(es, txs, tx.vin);
      forall i | 0 <= i < |tx.vin|
        ensures TxAt(es + be, tx.vin[i].txid) == Some(srcs[i])
      {
        SourceInChain(es, be, txs, tx.vin[i].txid);
      }
      SumInIs(es + be, tx.vin, srcs);
    }
  }

  lemma AmountsSnoc(es: seq<Entry>, be: seq<Entry>, k: nat)
    requires k < |be| && AmountsOk(es + be[..k]) && AmountOk(es + be[..k], be[k].tx)
    ensures AmountsOk(es + be[..k + 1])
  {
    var all := es + be[..k + 1];
    assert all[..|all| - 1] == es + be[..k] && all[|all| - 1] == be[k];
  }

  lemma OrderedPart(es: seq<Entry>, be: seq<Entry>, k: nat)
    requires k <= |be| && Ordered(es + be)
    ensures Ordered(es + be[..k])
  {
    assert es + be == (es + be[..k]) + be[k..];
    OrderedPrefix(es + be[..k], be[k..]);
  }

  lemma {:induction false} AcceptedAmounts(crypto: Crypto, s: Store, g: Hash, m: Hash, sp: SpendLists, block: Block,
                                           n: nat)
    requires WellFormed(s, g) && m in s && block.prevBlockHash in s && n <= |block.transactions|
    requires AmountsOk(PathEntries(s, g, block.prevBlockHash))
    requires Sound(PathEntries(s, g, block.prevBlockHash) + BlockEntries(block))
    requires TxsAccepted(crypto, s, g, m, sp, block.prevBlockHash, block.transactions, |block.transactions|)
    ensures AmountsOk(PathEntries(s, g, block.prevBlockHash) + BlockEntries(block)[..n])
  {
    var tip := block.prevBlockHash;
    var es, be, txs := PathEntries(s, g, tip), BlockEntries(block), block.transactions;
    if n == 0 {
      assert es + be[..0] == es;
    } else {
      var k := n - 1;
      AcceptedAmounts(crypto, s, g, m, sp, block, k);
      assert TxAccepted(crypto, s, g, m, sp, tip, txs[..k], txs[k]);
      OrderedPart(es, be, k);
      AcceptedAmount(crypto, s, g, m, sp, tip, be[..k], txs[..k], txs[k]);
      AmountsSnoc(es, be, k);
    }
  }

  lemma {:induction false} OneCoinbase(b: Block, n: nat)
    requires n <= |b.transactions|
    ensures Coinbases(BlockEntries(b)[..n]) == CoinbaseCount(b.transactions[..n])
  {
    if n > 0 {
      OneCoinbase(b, n - 1);
      assert BlockEntries(b)[..n][..n - 1] == BlockEntries(b)[..n - 1];
      assert b.transactions[..n][..n - 1] == b.transactions[..n - 1];
    }
  }

  lemma {:induction false} CoinbasesAppend(a: seq<Entry>, b: seq<Entry>)
    ensures Coinbases(a + b) == Coinbases(a) + Coinbases(b)
  {
    if b == [] {
      assert a + b == a;
    } else {
      assert (a + b)[..|a + b| - 1] == a + b[..|b| - 1];
      CoinbasesAppend(a, b[..|b| - 1]);
    }
  }

  // ----- runs

  /** A branch on which nothing is spent twice, amounts balance and every block paid one reward. */
  ghost predicate Balanced(s: Store, g: Hash, h: Hash)
    requires WellFormed(s, g) && h in s
  {
    var es := PathEntries(s, g, h);
    NoDoubleSpend(es) && AmountsOk(es) && Coinbases(es) == s[h].height + 1
  }

  ghost predicate AllBalanced(s: Store, g: Hash)
    requires WellFormed(s, g)
  {
    forall h {:trigger Balanced(s, g, h)} | h in s :: Balanced(s, g, h)
  }

  lemma AcceptedBalanced(crypto: Crypto, st: State, g: Hash, b: Block)
    requires Core(st, g) && Proper(st.blocks, g, b)
    requires b.hash !in st.blocks && b.prevBlockHash in st.blocks && Balanced(st.blocks, g, b.prevBlockHash)
    requires BlockAccepted(crypto, st.blocks, g, st.top, st.spends, b)
    requires DistinctPlaces(AllInputs(BlockEntries(b)))
    ensures WellFormed(st.blocks[b.hash := b], g) && Balanced(st.blocks[b.hash := b], g, b.hash)
  {
    var s, es, be := st.blocks, PathEntries(st.blocks, g, b.prevBlockHash), BlockEntries(b);
    StoredTree(st, g, b);
    ProperIsNew(crypto, st, g, b);
    assert Sound(es);
    AcceptedSpends(crypto, s, g, st.top, st.spends, b);
    AcceptedSound(crypto, s, g, st.top, st.spends, b);
    AcceptedAmounts(crypto, s, g, st.top, st.spends, b, |be|);
    assert be[..|be|] == be && b.transactions[..|be|] == b.transactions;
    OneCoinbase(b, |be|);
    CoinbasesAppend(es, be);
  }

  lemma BalancedStays(st: State, g: Hash, b: Block, h: Hash)
    requires WellFormed(st.blocks, g) && h in st.blocks && Balanced(st.blocks, g, h)
    requires b.hash !in st.blocks && WellFormed(st.blocks[b.hash := b], g)
    ensures Balanced(st.blocks[b.hash := b], g, h)
  {
    EntriesStable(st.blocks, g, st.blocks[b.hash := b], h);
  }

  lemma StepBalanced(crypto: Crypto, st: State, g: Hash, b: Block, st': State)
    requires Core(st, g) && Proper(st.blocks, g, b) && Step(crypto, g, st, b, st')
    requires AllBalanced(st.blocks, g) && DistinctPlaces(AllInputs(BlockEntries(b)))
    ensures WellFormed(st'.blocks, g) && AllBalanced(st'.blocks, g)
  {
    if Blockchain.Added(Outcome(crypto, st, g, b)) {
      assert Balanced(st.blocks, g, b.prevBlockHash);
      AcceptedBalanced(crypto, st, g, b);
      forall h | h in st'.blocks
        ensures Balanced(st'.blocks, g, h)
      {
        if h != b.hash {
          assert Balanced(st.blocks, g, h);
          BalancedStays(st, g, b, h);
        }
      }
    }
  }

  /** A block given by the i-th event spends different outputs. */
  ghost predicate SpendsOnce(evs: seq<Event>, i: nat)
    requires i < |evs|
  {
    evs[i].BlockGiven? ==> DistinctPlaces(AllInputs(BlockEntries(evs[i].block)))
  }

  ghost predicate BalancedGenesis(b: Block) {
    && NoDoubleSpend(BlockEntries(b)) && AmountsOk(BlockEntries(b)) && Coinbases(BlockEntries(b)) == 1
  }

  lemma EventBalanced(crypto: Crypto, st: State, g: Hash, ev: Event, st': State)
    requires Core(st, g) && ProperEvent(st, g, ev) && EventStep(crypto, g, st, ev, st') && AllBalanced(st.blocks, g)
    requires ev.BlockGiven? ==> DistinctPlaces(AllInputs(BlockEntries(ev.block)))
    ensures WellFormed(st'.blocks, g) && AllBalanced(st'.blocks, g)
  {
    if ev.BlockGiven? {
      StepBalanced(crypto, st, g, ev.block, st');
    }
  }

  lemma {:induction false} RunBalanced(crypto: Crypto, first: Block, sts: seq<State>, evs: seq<Event>, n: nat)
    requires Run(crypto, first, sts, evs) && n < |sts| && BalancedGenesis(first)
    requires forall i {:trigger SpendsOnce(evs, i)} | 0 <= i < n :: SpendsOnce(evs, i)
    ensures WellFormed(sts[n].blocks, first.hash) && AllBalanced(sts[n].blocks, first.hash)
  {
    if n == 0 {
      GenesisTree(first);
    } else {
      RunBalanced(crypto, first, sts, evs, n - 1);
      RunKeepsState(crypto, first, sts, evs, n - 1);
      assert StepAt(crypto, first.hash, sts, evs, n - 1) && SpendsOnce(evs, n - 1);
      EventBalanced(crypto, sts[n - 1], first.hash, evs[n - 1], sts[n]);
    }
  }

  /** What the unspent outputs of a state are worth. */
  ghost predicate WorthRewards(st: State, g: Hash)
    requires WellFormed(st.blocks, g) && st.top in st.blocks
  {
    var es := PathEntries(st.blocks, g, st.top);
    var rewards := (st.blocks[st.top].height + 1) as real * PAYMENT_FOR_BLOCK_MADE;
    && Abs(Total(st.unspent, None) - rewards) <= Payments(es) as real * SMALLEST_UNIT
    && (WholeAmounts(es) ==> Total(st.unspent, None) == rewards)
  }

  lemma StateSupply(st: State, g: Hash)
    requires WellFormed(st.blocks, g) && st.top in st.blocks
    requires BranchesSound(st.blocks, g) && AllBalanced(st.blocks, g) && CacheOk(st, g)
    ensures WorthRewards(st, g)
  {
    var es := PathEntries(st.blocks, g, st.top);
    assert Sound(es) && Balanced(st.blocks, g, st.top);
    SupplyNear(st.unspent, es);
    if WholeAmounts(es) {
      SupplyExact(st.unspent, es);
    }
  }

  /** The unspent outputs of a state are worth no more than the rewards allow. */
  ghost predicate WorthAtMost(st: State, g: Hash)
    requires WellFormed(st.blocks, g) && st.top in st.blocks
  {
    var es := PathEntries(st.blocks, g, st.top);
    var rewards := (st.blocks[st.top].height + 1) as real * PAYMENT_FOR_BLOCK_MADE;
    && Total(st.unspent, None) <= rewards + Payments(es) as real * SMALLEST_UNIT
    && (WholeAmounts(es) ==> Total(st.unspent, None) <= rewards)
  }

  /** In every state of a run in which no block given to the node spends an output twice,
      whatever undoing has lost, the cache is worth at most ten coins for each block of the
      primary branch and one smallest amount for each payment. */
  lemma RunSupplyAtMost(crypto: Crypto, first: Block, sts: seq<State>, evs: seq<Event>, n: nat)
    requires Run(crypto, first, sts, evs) && n < |sts| && BalancedGenesis(first)
    requires forall i {:trigger SpendsOnce(evs, i)} | 0 <= i < n :: SpendsOnce(evs, i)
    ensures Runs.Ready(sts[n], first.hash) && WorthAtMost(sts[n], first.hash)
  {
    RunBalanced(crypto, first, sts, evs, n);
    RunKeepsState(crypto, first, sts, evs, n);
    var st, g := sts[n], first.hash;
    assert Sound(PathEntries(st.blocks, g, st.top)) && Balanced(st.blocks, g, st.top);
    SupplyAtMost(st.unspent, PathEntries(st.blocks, g, st.top));
  }

  /** In every state of a run with a correct cache, when no block given to the node spends an
      output twice, the unspent outputs are worth ten coins for each block of the primary
      branch, up to one smallest amount for each payment, and exactly when amounts are whole. */
  lemma RunSupply(crypto: Crypto, first: Block, sts: seq<State>, evs: seq<Event>, n: nat)
    requires Run(crypto, first, sts, evs) && n < |sts| && BalancedGenesis(first)
    requires forall i {:trigger SpendsOnce(evs, i)} | 0 <= i < n :: SpendsOnce(evs, i)
    requires CacheOkAt(first.hash, sts, n)
    ensures WorthRewards(sts[n], first.hash)
  {
    RunBalanced(crypto, first, sts, evs, n);
    RunKeepsState(crypto, first, sts, evs, n);
    StateSupply(sts[n], first.hash);
  }
}
