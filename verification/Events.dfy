/** Everything that changes the state of a node: blocks it is given, transactions that are
    submitted, blocks that are prepared and transactions that are cancelled; and what all
    of these keep. */
module Events {
  import opened Structures
  import opened Tree
  import Branches
  import opened Ledger
  import opened ChainLedger
  import opened TxIndex
  import opened Pending
  import opened ConflictDetection
  import opened Growth
  import opened Shortfall
  import opened Blockchain
  import opened NodeState
  import opened Prepare
  import opened Submission

  datatype Event =
    | BlockGiven(block: Block)
    | TxSubmitted(tx: Transaction)
    | BlockPrepared(list: seq<Transaction>)
    | TxCancelled(id: Bytes)

  /** What one event does.  A block is prepared from a list of pooled transactions. */
  ghost predicate EventStep(crypto: Crypto, g: Hash, st: State, ev: Event, st': State)
    requires WellFormed(st.blocks, g) && st.top in st.blocks
  {
    match ev
    case BlockGiven(b) => Step(crypto, g, st, b, st')
    case TxSubmitted(tx) => st' == st.(pool := PoolSubmit(crypto, st.blocks, st.unspent, st.pool, tx))
    case BlockPrepared(list) =>
      st' == st.(pool := st'.pool)
      && PoolPrepared(crypto, st.blocks, g, st.spends, st.top, list, st.pool, st'.pool)
    case TxCancelled(id) => st' == st.(pool := st.pool - {id})
  }

  /** What a node relies on and does not check about what it is given. */
  ghost predicate ProperEvent(st: State, g: Hash, ev: Event)
    requires WellFormed(st.blocks, g)
  {
    ev.BlockGiven? ==> Proper(st.blocks, g, ev.block)
  }

  /** No stored transaction has an empty id. */
  ghost predicate Named(s: Store) {
    forall h | h in s :: !Holds(s, h, [])
  }

  /** What holds in every state of every run. */
  ghost predicate StateOk(st: State, g: Hash) {
    && Core(st, g) && Named(st.blocks) && PoolSound(st.pool)
    && Within(st.unspent, PathEntries(st.blocks, g, st.top))
  }

  lemma NamedPath(s: Store, g: Hash, h: Hash)
    requires WellFormed(s, g) && h in s && Named(s)
    ensures [] !in Ids(PathEntries(s, g, h))
  {
    if [] in Ids(PathEntries(s, g, h)) {
      var a := FindHolder(s, g, h, []);
    }
  }

  /** A given block keeps everything that holds in every state. */
  lemma BlockKeepsOk(crypto: Crypto, st: State, g: Hash, b: Block, st': State)
    requires StateOk(st, g) && Proper(st.blocks, g, b) && Step(crypto, g, st, b, st')
    ensures StateOk(st', g)
  {
    var r := Outcome(crypto, st, g, b);
    StepWithin(crypto, st, g, b, st');
    if Added(r) {
      assert Named(st'.blocks);
      if r.AddedToTop? {
        RemoveKeepsSound(st.pool, ApprovedIds(b.transactions));
      } else if r.AddedToParallelTop? {
        var f := ForkHeight(st'.blocks, g, st.top, st'.top);
        SwitchKeepsSound(st.pool, Branches.Down(st'.blocks, g, st.top, f),
                         Reverse(Branches.Down(st'.blocks, g, st'.top, f)));
      }
    }
  }

  /** The quick check refuses every coinbase: its input refers to no transaction. */
  lemma QuickNoCoinbase(crypto: Crypto, s: Store, u: Utxo, pool: Pool, tx: Transaction)
    requires Coins(u, []) == [] && [] !in pool
    ensures tx.IsCoinbase() ==> !QuickOk(crypto, s, u, pool, tx)
  {
    if tx.IsCoinbase() {
      assert tx.vin[0].txid == [];
      assert CachedIn(u, tx.vin[0]).None?;
      assert QuickSource(s, u, pool, tx.vin[0]).None?;
    }
  }

  /** Preparing a block only takes transactions out of the pool. */
  lemma PreparedRemoves(crypto: Crypto, s: Store, g: Hash, sp: SpendLists, top: Hash, list: seq<Transaction>,
                        p0: Pool, p: Pool)
    returns (ids: set<Bytes>)
    requires WellFormed(s, g) && top in s && PoolPrepared(crypto, s, g, sp, top, list, p0, p)
    ensures p == p0 - ids
  {
    if SomeCrashes(crypto, s, g, sp, top, list) {
      var i :| 0 <= i < |list| && CrashedAt(crypto, s, g, sp, top, list, i, p0, p);
      ids := OthersIds(list[..i], Passed(crypto, s, g, sp, top, list[..i]));
    } else {
      var passed := Passed(crypto, s, g, sp, top, list);
      ids := OthersIds(list, passed) + set tx | tx in Part(passed, false) :: tx.id;
    }
  }

  /** Every event keeps what holds in every state. */
  lemma EventKeepsOk(crypto: Crypto, st: State, g: Hash, ev: Event, st': State)
    requires StateOk(st, g) && ProperEvent(st, g, ev) && EventStep(crypto, g, st, ev, st')
    ensures StateOk(st', g)
  {
    match ev
    case BlockGiven(b) => BlockKeepsOk(crypto, st, g, b, st');
    case TxSubmitted(tx) =>
      if QuickOk(crypto, st.blocks, st.unspent, st.pool, tx) {
        NamedPath(st.blocks, g, st.top);
        WithinUnknown(st.unspent, PathEntries(st.blocks, g, st.top), []);
        QuickNoCoinbase(crypto, st.blocks, st.unspent, st.pool, tx);
        AddKeepsSound(st.pool, tx);
      }
    case BlockPrepared(list) =>
      var ids := PreparedRemoves(crypto, st.blocks, g, st.spends, st.top, list, st.pool, st'.pool);
      RemoveKeepsSound(st.pool, ids);
    case TxCancelled(id) => RemoveKeepsSound(st.pool, {id});
  }

  // ----- which submissions bring a transaction of the primary branch back

  /** A payment of the primary branch. */
  ghost predicate Mined(st: State, g: Hash, tx: Transaction)
    requires WellFormed(st.blocks, g) && st.top in st.blocks
  {
    !tx.IsCoinbase() && exists e :: e in PathEntries(st.blocks, g, st.top) && e.tx == tx
  }

  /** What is presumed of ids: one of the primary branch stands for one transaction. */
  ghost predicate IdsAgree(st: State, g: Hash, tx: Transaction)
    requires WellFormed(st.blocks, g) && st.top in st.blocks
  {
    && (forall e | e in PathEntries(st.blocks, g, st.top) && e.tx.id == tx.id :: e.tx == tx)
    && (forall e | e in PathEntries(st.blocks, g, st.top) && e.tx.id in st.pool :: st.pool[e.tx.id] == e.tx)
  }

  lemma {:induction false} BlockOfCoin(outs: seq<Output>, v: int)
    ensures BlockOf(outs, v).Some? ==> exists c :: c in Strip(outs) && c.index == v
  {
    if outs != [] {
      if outs[0].oIndex == v {
        assert Strip(outs)[0] in Strip(outs);
      } else {
        BlockOfCoin(outs[1..], v);
        if BlockOf(outs[1..], v).Some? {
          var c :| c in Strip(outs[1..]) && c.index == v;
          var i :| 0 <= i < |outs[1..]| && Strip(outs[1..])[i] == c;
          assert Strip(outs)[i + 1] == c;
        }
      }
    }
  }

  /** An output that the branch has spent is not in its cache. */
  lemma SpentNotCached(u: Utxo, es: seq<Entry>, vin: TXInput)
    requires Within(u, es) && vin.vout in SpentIn(es, vin.txid)
    ensures CachedIn(u, vin).None?
  {
    if CachedIn(u, vin).Some? {
      BlockOfCoin(u[vin.txid], vin.vout);
      var c :| c in Coins(u, vin.txid) && c.index == vin.vout;
      WithinHas(u, es, vin.txid, c);
    }
  }

  /** A payment of the primary branch that has an input does not pass the quick check again:
      its first input is spent, and its source is not in the pool. */
  lemma MinedRefused(crypto: Crypto, st: State, g: Hash, tx: Transaction)
    requires StateOk(st, g) && ClearOf(st.pool, st.blocks, g, st.top)
    requires IdsAgree(st, g, tx) && Mined(st, g, tx) && tx.vin != []
    ensures !QuickOk(crypto, st.blocks, st.unspent, st.pool, tx)
  {
    var es := PathEntries(st.blocks, g, st.top);
    var e :| e in es && e.tx == tx;
    var vin := tx.vin[0];
    MinedInput(es, e);
    SpentNotCached(st.unspent, es, vin);
    assert Sound(es);
    SourceOnPath(st, g, e);
    assert QuickSource(st.blocks, st.unspent, st.pool, tx.vin[0]).None?;
  }

  /** The source of a mined input is a transaction of the branch, so it is not pooled. */
  lemma SourceOnPath(st: State, g: Hash, e: Entry)
    requires StateOk(st, g) && ClearOf(st.pool, st.blocks, g, st.top)
    requires e in PathEntries(st.blocks, g, st.top) && !e.tx.IsCoinbase() && e.tx.vin != []
    requires forall x | x in PathEntries(st.blocks, g, st.top) && x.tx.id in st.pool :: st.pool[x.tx.id] == x.tx
    ensures e.tx.vin[0].txid !in st.pool
  {
    var es, t := PathEntries(st.blocks, g, st.top), e.tx.vin[0].txid;
    assert Sound(es);
    SourceListed(es, e);
    HasEntry(es, t);
    var x := EntryAt(es, t).value;
    EntryOnPath(st.blocks, g, st.top, x);
    if !x.tx.IsCoinbase() {
      assert t in ApprovedIds(st.blocks[x.block].transactions);
    }
  }

  /** A mined payment without inputs passes the quick check again. */
  lemma EmptyPasses(crypto: Crypto, st: State, g: Hash, tx: Transaction)
    requires StateOk(st, g) && Mined(st, g, tx) && tx.vin == []
    ensures QuickOk(crypto, st.blocks, st.unspent, st.pool, tx)
    ensures PoolAdd(st.pool, tx) == st.pool[tx.id := tx]
  {
    var es := PathEntries(st.blocks, g, st.top);
    var e :| e in es && e.tx == tx;
    assert Sound(es);
    ResolvedHas(es, e);
    EmptyTx(crypto, tx);
    assert QuickSources(st.blocks, st.unspent, st.pool, tx.vin) == [];
    NamedPath(st.blocks, g, st.top);
    var i :| 0 <= i < |es| && es[i] == e;
    IdsIn(es, tx.id);
    assert Places(tx.vin) == {};
  }

  lemma MinedIs(st: State, g: Hash, tx: Transaction, a: Hash)
    requires WellFormed(st.blocks, g) && st.top in st.blocks && IdsAgree(st, g, tx)
    requires Ancestor(st.blocks, g, a, st.top) && tx.id in ApprovedIds(st.blocks[a].transactions)
    ensures Mined(st, g, tx)
  {
    var x :| x in st.blocks[a].transactions && !x.IsCoinbase() && x.id == tx.id;
    EntryOnPath(st.blocks, g, st.top, Entry(x, a));
    assert Entry(x, a) in PathEntries(st.blocks, g, st.top);
  }

  /** Exactly when a submission keeps the pool clear of the primary branch: unless the
      transaction is on that branch already and has no inputs. */
  lemma SubmitClear(crypto: Crypto, st: State, g: Hash, tx: Transaction)
    requires StateOk(st, g) && ClearOf(st.pool, st.blocks, g, st.top) && IdsAgree(st, g, tx)
    ensures ClearOf(PoolSubmit(crypto, st.blocks, st.unspent, st.pool, tx), st.blocks, g, st.top)
            <==> !(Mined(st, g, tx) && tx.vin == [])
  {
    var s, pool' := st.blocks, PoolSubmit(crypto, st.blocks, st.unspent, st.pool, tx);
    if Mined(st, g, tx) && tx.vin == [] {
      EmptyPasses(crypto, st, g, tx);
      var e :| e in PathEntries(s, g, st.top) && e.tx == tx;
      EntryOnPath(s, g, st.top, e);
      assert tx.id in ApprovedIds(s[e.block].transactions) && tx.id in pool';
    } else {
      if Mined(st, g, tx) {
        MinedRefused(crypto, st, g, tx);
      }
      forall a | Ancestor(s, g, a, st.top)
        ensures pool'.Keys !! ApprovedIds(s[a].transactions)
      {
        if tx.id in ApprovedIds(s[a].transactions) {
          MinedIs(st, g, tx, a);
        }
      }
    }
  }

  /** All other events keep the pool clear of the primary branch. */
  lemma EventKeepsClear(crypto: Crypto, st: State, g: Hash, ev: Event, st': State)
    requires StateOk(st, g) && ProperEvent(st, g, ev) && EventStep(crypto, g, st, ev, st') && !ev.TxSubmitted?
    requires ClearOf(st.pool, st.blocks, g, st.top)
    ensures WellFormed(st'.blocks, g) && st'.top in st'.blocks && ClearOf(st'.pool, st'.blocks, g, st'.top)
  {
    match ev
    case BlockGiven(b) => StepPool(crypto, st, g, b, st');
    case BlockPrepared(list) =>
      var ids := PreparedRemoves(crypto, st.blocks, g, st.spends, st.top, list, st.pool, st'.pool);
    case TxCancelled(id) =>
  }
}
