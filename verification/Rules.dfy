/** The rules of an accepted block in numbers, and who must have signed its payments. */
module Rules {
  import opened Structures
  import opened Tree
  import opened Ledger
  import opened ChainLedger
  import opened TxIndex
  import opened Verification
  import opened Growth
  import opened Submission
  import opened Blockchain
  import opened NodeState
  import opened Events
  import opened Runs

  // ----- blocks

  /** One input that refers to no transaction and to output -1. */
  predicate MintsOnly(tx: Transaction) {
    |tx.vin| == 1 && tx.vin[0].txid == [] && tx.vin[0].vout == -1
  }

  ghost predicate OnlyAt(txs: seq<Transaction>, k: int) {
    0 <= k < |txs| && forall i | 0 <= i < |txs| :: MintsOnly(txs[i]) <==> i == k
  }

  lemma {:induction false} NoCoinbase(txs: seq<Transaction>)
    ensures CoinbaseCount(txs) == 0 <==> forall i | 0 <= i < |txs| :: !MintsOnly(txs[i])
  {
    if txs != [] {
      NoCoinbase(txs[..|txs| - 1]);
    }
  }

  lemma {:induction false} OneCoinbase(txs: seq<Transaction>)
    ensures CoinbaseCount(txs) == 1 <==> exists k :: OnlyAt(txs, k)
  {
    if txs != [] {
      var n := |txs| - 1;
      var before := txs[..n];
      OneCoinbase(before);
      NoCoinbase(before);
      if MintsOnly(txs[n]) {
        if CoinbaseCount(txs) == 1 {
          assert OnlyAt(txs, n);
        }
        if k :| OnlyAt(txs, k) {
          assert MintsOnly(txs[n]) && k == n;
        }
      } else {
        if k :| OnlyAt(before, k) {
          assert OnlyAt(txs, k);
        }
        if k :| OnlyAt(txs, k) {
          assert OnlyAt(before, k);
        }
      }
    }
  }

  /** A block is accepted exactly when: the number of its proof of work has 16 leading zero
      bits of 256, or 24 from height 1000 on; it holds at least one payment, at least as many as
      its height or 1000, and at most 10000; exactly one transaction is a coinbase; and each
      transaction is accepted after those before it. */
  lemma BlockRules(crypto: Crypto, s: Store, g: Hash, m: Hash, sp: SpendLists, b: Block)
    requires WellFormed(s, g) && m in s && b.prevBlockHash in s
    ensures BlockAccepted(crypto, s, g, m, sp, b) <==>
            var txs, payments := b.transactions, |b.transactions| - 1;
            && crypto.powHash(b.prevBlockHash, txs, b.timestamp, b.nonce)
               < (if b.height >= 1000 then 0x10000000000000000000000000000000000000000000000000000000000
                  else 0x1000000000000000000000000000000000000000000000000000000000000)
            && 1 <= payments <= 10000 && (b.height <= payments || 1000 <= payments)
            && (exists k :: OnlyAt(txs, k))
            && TxsAccepted(crypto, s, g, m, sp, b.prevBlockHash, txs, |txs|)
  {
    TargetIs(b.height);
    OneCoinbase(b.transactions);
  }

  // ----- payments

  /** The output that input i spends stands in the chain, and its owner has signed: the key of
      the input hashes to the owner, for whom the signature verifies. */
  ghost predicate PaidBy(crypto: Crypto, es: seq<Entry>, tx: Transaction, i: nat, e: Entry)
    requires i < |tx.vin|
  {
    var vin := tx.vin[i];
    && e in es && e.tx.id == vin.txid && 0 <= vin.vout < |e.tx.vout|
    && e.tx.vout[vin.vout].pubKeyHash == crypto.keyHash(vin.pubKey)
    && crypto.sigOk(tx, i, e.tx.vout[vin.vout].pubKeyHash)
  }

  ghost predicate SignedInput(crypto: Crypto, es: seq<Entry>, tx: Transaction, i: nat)
    requires i < |tx.vin|
  {
    exists e :: PaidBy(crypto, es, tx, i, e)
  }

  ghost predicate SignedTx(crypto: Crypto, es: seq<Entry>, tx: Transaction) {
    MintsOnly(tx) || forall i {:trigger SignedInput(crypto, es, tx, i)} | 0 <= i < |tx.vin| ::
                       SignedInput(crypto, es, tx, i)
  }

  /** Each entry from the k-th on is signed, with respect to the entries before it. */
  ghost predicate SignedFrom(crypto: Crypto, es: seq<Entry>, k: nat) {
    forall j {:trigger SignedTx(crypto, es[..j], es[j].tx)} | k <= j < |es| :: SignedTx(crypto, es[..j], es[j].tx)
  }

  lemma FindSource(es: seq<Entry>, be: seq<Entry>, txs: seq<Transaction>, t: Bytes) returns (e: Entry)
    requires |be| == |txs| && forall j | 0 <= j < |be| :: be[j].tx == txs[j]
    requires SourceOf(es, txs, t).Some?
    ensures e in es + be && e.tx.id == t && SourceOf(es, txs, t) == Some(e.tx)
  {
    HasEntry(es, t);
    if TxAt(es, t).Some? {
      e := EntryAt(es, t).value;
    } else {
      var j := FirstWithIdIn(txs, t);
      e := be[j];
    }
  }

  lemma AcceptedInput(crypto: Crypto, s: Store, g: Hash, m: Hash, sp: SpendLists, tip: Hash,
                      be: seq<Entry>, txs: seq<Transaction>, tx: Transaction, i: nat)
    requires WellFormed(s, g) && m in s && tip in s
    requires |be| == |txs| && forall j | 0 <= j < |be| :: be[j].tx == txs[j]
    requires TxAccepted(crypto, s, g, m, sp, tip, txs, tx) && !tx.IsCoinbase() && i < |tx.vin|
    ensures SignedInput(crypto, PathEntries(s, g, tip) + be, tx, i)
  {
    var es := PathEntries(s, g, tip);
    var srcs := SourcesOf(es, txs, tx.vin);
    assert SourceHas(srcs[i], tx.vin[i]) && InputSigned(crypto, tx, srcs, i);
    var e := FindSource(es, be, txs, tx.vin[i].txid);
    assert PaidBy(crypto, es + be, tx, i, e);
  }

  /** Every payment of an accepted block carries a valid signature of the owner of each output
      that it spends, and names that owner's key; each output is there to be spent. */
  lemma AcceptedSigned(crypto: Crypto, s: Store, g: Hash, m: Hash, sp: SpendLists, b: Block, j: nat)
    requires WellFormed(s, g) && m in s && b.prevBlockHash in s && j < |b.transactions|
    requires BlockAccepted(crypto, s, g, m, sp, b)
    ensures SignedTx(crypto, PathEntries(s, g, b.prevBlockHash) + BlockEntries(b)[..j], b.transactions[j])
  {
    var es, be, txs := PathEntries(s, g, b.prevBlockHash), BlockEntries(b), b.transactions;
    assert TxAccepted(crypto, s, g, m, sp, b.prevBlockHash, txs[..j], txs[j]);
    if !txs[j].IsCoinbase() {
      forall i | 0 <= i < |txs[j].vin|
        ensures SignedInput(crypto, es + be[..j], txs[j], i)
      {
        AcceptedInput(crypto, s, g, m, sp, b.prevBlockHash, be[..j], txs[..j], txs[j], i);
      }
    }
  }

  /** Amounts of an accepted transaction: a coinbase has one output of ten coins; of a payment
      no output is below 0.00000001, and what goes in differs from what goes out by less. */
  lemma AcceptedAmount(crypto: Crypto, s: Store, g: Hash, m: Hash, sp: SpendLists, tip: Hash,
                       prevtxs: seq<Transaction>, tx: Transaction)
    requires WellFormed(s, g) && m in s && tip in s && TxAccepted(crypto, s, g, m, sp, tip, prevtxs, tx)
    ensures MintsOnly(tx) ==> |tx.vout| == 1 && tx.vout[0].value == 10.0
    ensures !MintsOnly(tx) ==>
              && (forall i | 0 <= i < |tx.vout| :: tx.vout[i].value >= 0.00000001)
              && HasSources(PathEntries(s, g, tip), prevtxs, tx.vin)
              && var srcs := SourcesOf(PathEntries(s, g, tip), prevtxs, tx.vin);
                 && (forall i | 0 <= i < |tx.vin| :: 0 <= tx.vin[i].vout < |srcs[i].vout|)
                 && (forall i | 0 <= i < |tx.vin| :: SourceHas(srcs[i], tx.vin[i]))
                 && -0.00000001 < SumIn(tx.vin, srcs) - SumOut(tx.vout) < 0.00000001
  {
    if !tx.IsCoinbase() {
      var srcs := SourcesOf(PathEntries(s, g, tip), prevtxs, tx.vin);
      forall i | 0 <= i < |tx.vin|
        ensures 0 <= tx.vin[i].vout < |srcs[i].vout|
      {
        assert SourceHas(srcs[i], tx.vin[i]);
      }
    }
  }

  /** An accepted payment spends nothing that its branch has spent, and no output of a
      transaction before it in its block twice. */
  lemma AcceptedInputs(crypto: Crypto, s: Store, g: Hash, m: Hash, sp: SpendLists, tip: Hash,
                       prevtxs: seq<Transaction>, tx: Transaction, i: nat, k: nat)
    requires WellFormed(s, g) && m in s && tip in s && TxAccepted(crypto, s, g, m, sp, tip, prevtxs, tx)
    requires !MintsOnly(tx) && i < k < |tx.vin|
    ensures tx.vin[i].txid in Ids(PathEntries(s, g, tip)) ==>
              tx.vin[i].vout !in SpentIn(PathEntries(s, g, tip), tx.vin[i].txid)
    ensures tx.vin[i].txid !in Ids(PathEntries(s, g, tip)) ==>
              tx.vin[i].txid != tx.vin[k].txid || tx.vin[i].vout != tx.vin[k].vout
  {
    assert !LooksSpent(s, g, m, sp, tip, tx.vin[i]);
  }

  /** A submitted payment that passes the quick check is signed as well, for each input. */
  lemma QuickSigned(crypto: Crypto, s: Store, u: Utxo, pool: map<Bytes, Transaction>, tx: Transaction, i: nat)
    requires QuickOk(crypto, s, u, pool, tx) && !MintsOnly(tx) && i < |tx.vin|
    ensures var src := QuickSource(s, u, pool, tx.vin[i]);
            && src.Some? && 0 <= tx.vin[i].vout < |src.value.vout|
            && src.value.vout[tx.vin[i].vout].pubKeyHash == crypto.keyHash(tx.vin[i].pubKey)
            && crypto.sigOk(tx, i, src.value.vout[tx.vin[i].vout].pubKeyHash)
  {
    var srcs := QuickSources(s, u, pool, tx.vin);
    assert SourceHas(srcs[i], tx.vin[i]) && InputSigned(crypto, tx, srcs, i);
  }

  // ----- runs

  ghost predicate BranchSigned(crypto: Crypto, s: Store, g: Hash, k: nat, h: Hash)
    requires WellFormed(s, g) && h in s
  {
    SignedFrom(crypto, PathEntries(s, g, h), k)
  }

  ghost predicate AllSigned(crypto: Crypto, st: State, g: Hash, k: nat) {
    WellFormed(st.blocks, g)
    && forall h {:trigger BranchSigned(crypto, st.blocks, g, k, h)} | h in st.blocks ::
         BranchSigned(crypto, st.blocks, g, k, h)
  }

  lemma SignedMore(crypto: Crypto, es: seq<Entry>, be: seq<Entry>, k: nat)
    requires SignedFrom(crypto, es, k)
    requires forall j {:trigger SignedTx(crypto, es + be[..j], be[j].tx)} | 0 <= j < |be| ::
               SignedTx(crypto, es + be[..j], be[j].tx)
    ensures SignedFrom(crypto, es + be, k)
  {
    var all := es + be;
    forall j | k <= j < |all|
      ensures SignedTx(crypto, all[..j], all[j].tx)
    {
      if j < |es| {
        assert all[..j] == es[..j];
        assert SignedTx(crypto, es[..j], es[j].tx);
      } else {
        var i := j - |es|;
        assert all[..j] == es + be[..i];
        assert SignedTx(crypto, es + be[..i], be[i].tx);
      }
    }
  }

  lemma StoredSigned(crypto: Crypto, st: State, g: Hash, k: nat, b: Block)
    requires Core(st, g) && Shaped(st.blocks, g, b) && b.hash !in st.blocks && b.prevBlockHash in st.blocks
    requires AllSigned(crypto, st, g, k) && BlockAccepted(crypto, st.blocks, g, st.top, st.spends, b)
    ensures SignedFrom(crypto, PathEntries(st.blocks, g, b.prevBlockHash) + BlockEntries(b), k)
  {
    var es, be := PathEntries(st.blocks, g, b.prevBlockHash), BlockEntries(b);
    assert BranchSigned(crypto, st.blocks, g, k, b.prevBlockHash);
    forall j | 0 <= j < |be|
      ensures SignedTx(crypto, es + be[..j], be[j].tx)
    {
      AcceptedSigned(crypto, st.blocks, g, st.top, st.spends, b, j);
    }
    SignedMore(crypto, es, be, k);
  }

  lemma StepSigned(crypto: Crypto, st: State, g: Hash, k: nat, b: Block, st': State)
    requires Core(st, g) && Shaped(st.blocks, g, b) && Step(crypto, g, st, b, st') && AllSigned(crypto, st, g, k)
    ensures AllSigned(crypto, st', g, k)
  {
    if Added(Outcome(crypto, st, g, b)) {
      StoredTree(st, g, b);
      StoredSigned(crypto, st, g, k, b);
      forall h | h in st'.blocks
        ensures BranchSigned(crypto, st'.blocks, g, k, h)
      {
        assert h in st.blocks ==> BranchSigned(crypto, st.blocks, g, k, h);
      }
    }
  }

  lemma EventSigned(crypto: Crypto, st: State, g: Hash, k: nat, ev: Event, st': State)
    requires StateOk(st, g) && ProperEvent(st, g, ev) && EventStep(crypto, g, st, ev, st')
    requires AllSigned(crypto, st, g, k)
    ensures AllSigned(crypto, st', g, k)
  {
    if ev.BlockGiven? {
      StepSigned(crypto, st, g, k, ev.block, st');
    }
  }

  lemma InitialSigned(crypto: Crypto, first: Block, st: State)
    requires GenesisOk(first) && Initial(crypto, first, st)
    ensures AllSigned(crypto, st, first.hash, |first.transactions|)
  {
    GenesisTree(first);
    assert SignedFrom(crypto, BlockEntries(first), |first.transactions|);
  }

  lemma SignedStep(crypto: Crypto, first: Block, sts: seq<State>, evs: seq<Event>, i: nat, n: nat)
    requires Run(crypto, first, sts, evs) && i < |evs| && n == i + 1
    requires AllSigned(crypto, sts[i], first.hash, |first.transactions|)
    ensures AllSigned(crypto, sts[n], first.hash, |first.transactions|)
  {
    RunKeepsState(crypto, first, sts, evs, i);
    assert StepAt(crypto, first.hash, sts, evs, i);
    EventSigned(crypto, sts[i], first.hash, |first.transactions|, evs[i], sts[n]);
  }

  /** In every state of every run, each payment that a stored block above the genesis block holds
      is signed by the owner of every output it spends. */
  lemma {:induction false} RunSigned(crypto: Crypto, first: Block, sts: seq<State>, evs: seq<Event>, n: nat)
    requires Run(crypto, first, sts, evs) && n < |sts|
    ensures AllSigned(crypto, sts[n], first.hash, |first.transactions|)
  {
    if n == 0 {
      InitialSigned(crypto, first, sts[n]);
    } else {
      RunSigned(crypto, first, sts, evs, n - 1);
      SignedStep(crypto, first, sts, evs, n - 1, n);
    }
  }
}
