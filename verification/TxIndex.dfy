/** The index of transactions (node/transactions/index.go): for each transaction the
    blocks that hold it, and the records of where its outputs were spent, over all
    branches. */
module TxIndex {
  import opened Structures
  import opened Storage
  import opened Tree
  import opened Branches
  import opened Ledger
  import opened ChainLedger
  import Blockchain

  type HashLists = map<Bytes, seq<Hash>>
  type SpendLists = map<Bytes, seq<Spend>>

  function HashesOf(m: HashLists, t: Bytes): seq<Hash> {
    if t in m then m[t] else []
  }

  function SpendsOf(m: SpendLists, t: Bytes): seq<Spend> {
    if t in m then m[t] else []
  }

  // ----- what adding a block does to the index

  ghost function AddHashes(m: HashLists, es: seq<Entry>): HashLists {
    if es == [] then m else
      var e, before := es[|es| - 1], AddHashes(m, es[..|es| - 1]);
      before[e.tx.id := HashesOf(before, e.tx.id) + [e.block]]
  }

  /** Records for the first k inputs of an entry. */
  ghost function AddInputs(m: SpendLists, e: Entry, k: nat): SpendLists
    requires k <= |e.tx.Spends()|
  {
    if k == 0 then m else
      var vin, before := e.tx.Spends()[k - 1], AddInputs(m, e, k - 1);
      before[vin.txid := SpendsOf(before, vin.txid) + [Spend(vin.vout, e.tx.id, k - 1, e.block)]]
  }

  ghost function AddSpends(m: SpendLists, es: seq<Entry>): SpendLists {
    if es == [] then m else
      var e := es[|es| - 1];
      AddInputs(AddSpends(m, es[..|es| - 1]), e, |e.tx.Spends()|)
  }

  /** The inner loop of BlockAdded: one record for every input. */
  method RecordInputs(db: Database, tx: Transaction, blockHash: Hash)
    requires !tx.IsCoinbase()
    modifies db`spends
    ensures db.spends == AddInputs(old(db.spends), Entry(tx, blockHash), |tx.vin|)
  {
    for inInd := 0 to |tx.vin|
      invariant db.spends == AddInputs(old(db.spends), Entry(tx, blockHash), inInd)
    {
      var vin := tx.vin[inInd];
      var outs := SpendsOf(db.spends, vin.txid);
      outs := outs + [Spend(vin.vout, tx.id, inInd, blockHash)];
      db.spends := db.spends[vin.txid := outs];
    }
  }

  method BlockAdded(db: Database, block: Block)
    modifies db`txBlocks, db`spends
    ensures db.txBlocks == AddHashes(old(db.txBlocks), BlockEntries(block))
    ensures db.spends == AddSpends(old(db.spends), BlockEntries(block))
  {
    ghost var es := BlockEntries(block);
    for i := 0 to |block.transactions|
      invariant db.txBlocks == AddHashes(old(db.txBlocks), es[..i])
      invariant db.spends == AddSpends(old(db.spends), es[..i])
    {
      var tx := block.transactions[i];
      assert es[..i + 1][..i] == es[..i] && es[i] == Entry(tx, block.hash);
      var hashes := HashesOf(db.txBlocks, tx.id);
      hashes := hashes + [block.hash];
      db.txBlocks := db.txBlocks[tx.id := hashes];
      if tx.IsCoinbase() {
        continue;
      }
      RecordInputs(db, tx, block.hash);
    }
    assert es[..|es|] == es;
  }

  // ----- what the index says about the stored blocks

  /** Output indices recorded as spent in block `h`. */
  ghost function Marks(sps: seq<Spend>, h: Hash): set<int> {
    if sps == [] then {} else
      var r := sps[|sps| - 1];
      Marks(sps[..|sps| - 1], h) + (if r.blockHash == h then {r.outInd} else {})
  }

  /** The index lists, for every transaction, exactly the stored blocks that hold it
      and exactly the outputs that stored blocks spend. */
  ghost predicate IndexMatches(s: Store, tb: HashLists, sp: SpendLists) {
    && (forall t, h :: h in HashesOf(tb, t) <==> h in s && Holds(s, h, t))
    && (forall t, h | h in s :: Marks(SpendsOf(sp, t), h) == SpentIn(BlockEntries(s[h]), t))
    && (forall t, r | r in SpendsOf(sp, t) :: r.blockHash in s)
  }

  lemma {:induction false} MarksIn(sps: seq<Spend>, h: Hash, v: int)
    ensures v in Marks(sps, h) <==> exists r :: r in sps && r.blockHash == h && r.outInd == v
  {
    if sps != [] {
      MarksIn(sps[..|sps| - 1], h, v);
      assert sps == sps[..|sps| - 1] + [sps[|sps| - 1]];
    }
  }

  lemma {:induction false} HashesAfter(m: HashLists, es: seq<Entry>, bh: Hash, t: Bytes, h: Hash)
    requires forall e | e in es :: e.block == bh
    ensures h in HashesOf(AddHashes(m, es), t) <==> h in HashesOf(m, t) || (h == bh && t in Ids(es))
  {
    if es != [] {
      assert forall e | e in es[..|es| - 1] :: e in es;
      assert es[|es| - 1] in es;
      HashesAfter(m, es[..|es| - 1], bh, t, h);
    }
  }

  lemma {:induction false} MarksAppend(a: seq<Spend>, b: seq<Spend>, h: Hash)
    ensures Marks(a + b, h) == Marks(a, h) + Marks(b, h)
  {
    if b == [] {
      assert a + b == a;
    } else {
      assert (a + b)[..|a + b| - 1] == a + b[..|b| - 1];
      MarksAppend(a, b[..|b| - 1], h);
    }
  }

  /** The records of spends of `t` that the first k inputs of an entry add. */
  ghost function InputRecords(e: Entry, k: nat, t: Bytes): seq<Spend>
    requires k <= |e.tx.Spends()|
  {
    if k == 0 then [] else
      var vin := e.tx.Spends()[k - 1];
      InputRecords(e, k - 1, t)
      + (if vin.txid == t then [Spend(vin.vout, e.tx.id, k - 1, e.block)] else [])
  }

  ghost function Records(es: seq<Entry>, t: Bytes): seq<Spend> {
    if es == [] then [] else
      Records(es[..|es| - 1], t) + InputRecords(es[|es| - 1], |es[|es| - 1].tx.Spends()|, t)
  }

  lemma {:induction false} AddInputsRecords(m: SpendLists, e: Entry, k: nat, t: Bytes)
    requires k <= |e.tx.Spends()|
    ensures SpendsOf(AddInputs(m, e, k), t) == SpendsOf(m, t) + InputRecords(e, k, t)
  {
    if k > 0 {
      AddInputsRecords(m, e, k - 1, t);
      var before := SpendsOf(m, t) + InputRecords(e, k - 1, t);
      var vin := e.tx.Spends()[k - 1];
      var new_ := if vin.txid == t then [Spend(vin.vout, e.tx.id, k - 1, e.block)] else [];
      assert before + new_ == SpendsOf(m, t) + (InputRecords(e, k - 1, t) + new_);
    }
  }

  lemma {:induction false} AddSpendsRecords(m: SpendLists, es: seq<Entry>, t: Bytes)
    ensures SpendsOf(AddSpends(m, es), t) == SpendsOf(m, t) + Records(es, t)
  {
    if es != [] {
      var e, before := es[|es| - 1], es[..|es| - 1];
      AddSpendsRecords(m, before, t);
      AddInputsRecords(AddSpends(m, before), e, |e.tx.Spends()|, t);
    }
  }

  /** Input i of an entry spends an output of `t`, and this is the record of it: the output, the
      spending transaction, the position of the input and the block. */
  ghost predicate RecordOf(e: Entry, t: Bytes, r: Spend, i: int) {
    && 0 <= i < |e.tx.Spends()| && e.tx.Spends()[i].txid == t
    && r.outInd == e.tx.Spends()[i].vout && r.txWhereUsed == e.tx.id && r.inInd == i && r.blockHash == e.block
  }

  lemma {:induction false} InputRecordsAre(e: Entry, k: nat, t: Bytes, r: Spend)
    requires k <= |e.tx.Spends()|
    ensures r in InputRecords(e, k, t) <==> exists i :: i < k && RecordOf(e, t, r, i)
  {
    if k > 0 {
      InputRecordsAre(e, k - 1, t, r);
      if RecordOf(e, t, r, k - 1) {
        assert r == Spend(e.tx.Spends()[k - 1].vout, e.tx.id, k - 1, e.block);
      }
    }
  }

  ghost predicate RecordAt(es: seq<Entry>, t: Bytes, r: Spend, j: int, i: int) {
    0 <= j < |es| && RecordOf(es[j], t, r, i)
  }

  lemma RecordsMore(before: seq<Entry>, e: Entry, t: Bytes, r: Spend)
    ensures (exists j, i :: RecordAt(before + [e], t, r, j, i))
            <==> (exists j, i :: RecordAt(before, t, r, j, i)) || exists i :: RecordOf(e, t, r, i)
  {
    var es := before + [e];
    if j, i :| RecordAt(before, t, r, j, i) {
      assert RecordAt(es, t, r, j, i);
    }
    if i :| RecordOf(e, t, r, i) {
      assert RecordAt(es, t, r, |before|, i);
    }
    if j, i :| RecordAt(es, t, r, j, i) {
      assert if j < |before| then RecordAt(before, t, r, j, i) else RecordOf(e, t, r, i);
    }
  }

  lemma {:induction false} RecordsAre(es: seq<Entry>, t: Bytes, r: Spend)
    ensures r in Records(es, t) <==> exists j, i :: RecordAt(es, t, r, j, i)
  {
    if es != [] {
      var e, before := es[|es| - 1], es[..|es| - 1];
      assert es == before + [e];
      RecordsAre(before, t, r);
      InputRecordsAre(e, |e.tx.Spends()|, t, r);
      RecordsMore(before, e, t, r);
    }
  }

  /** The records that indexing a block adds are those of its inputs, each with all its fields,
      behind the records there were. */
  lemma IndexedSpends(sp: SpendLists, b: Block, t: Bytes, r: Spend)
    ensures SpendsOf(sp, t) <= SpendsOf(AddSpends(sp, BlockEntries(b)), t)
    ensures r in SpendsOf(AddSpends(sp, BlockEntries(b)), t)[|SpendsOf(sp, t)|..] <==>
            exists j, i :: RecordAt(BlockEntries(b), t, r, j, i)
  {
    AddSpendsRecords(sp, BlockEntries(b), t);
    RecordsAre(BlockEntries(b), t, r);
    assert (SpendsOf(sp, t) + Records(BlockEntries(b), t))[|SpendsOf(sp, t)|..] == Records(BlockEntries(b), t);
  }

  lemma OneMark(r: Spend, h: Hash)
    ensures Marks([r], h) == if r.blockHash == h then {r.outInd} else {}
  {
    assert [r][..0] == [];
  }

  lemma InputMark(sps: seq<Spend>, r: Spend, listed: bool, h: Hash)
    ensures Marks(sps + (if listed then [r] else []), h)
            == Marks(sps, h) + (if listed && r.blockHash == h then {r.outInd} else {})
  {
    OneMark(r, h);
    MarksAppend(sps, if listed then [r] else [], h);
  }

  lemma InputIndicesStep(ins: seq<TXInput>, k: nat, j: nat, t: Bytes)
    requires k == j + 1 && k <= |ins|
    ensures InputIndices(ins[..k], t) == InputIndices(ins[..j], t) + (if ins[j].txid == t then {ins[j].vout} else {})
  {
    assert ins[..k][..j] == ins[..j];
  }

  lemma {:induction false} InputRecordsMarks(e: Entry, k: nat, t: Bytes, h: Hash)
    requires k <= |e.tx.Spends()|
    ensures Marks(InputRecords(e, k, t), h) == if h == e.block then InputIndices(e.tx.Spends()[..k], t) else {}
    ensures forall r | r in InputRecords(e, k, t) :: r.blockHash == e.block
  {
    if k > 0 {
      var j, ins := k - 1, e.tx.Spends();
      var vin := ins[j];
      var r := Spend(vin.vout, e.tx.id, j, e.block);
      InputRecordsMarks(e, j, t, h);
      assert InputRecords(e, k, t) == InputRecords(e, j, t) + (if vin.txid == t then [r] else []);
      InputMark(InputRecords(e, j, t), r, vin.txid == t, h);
      InputIndicesStep(ins, k, j, t);
    }
  }

  lemma {:induction false} RecordsMarks(es: seq<Entry>, bh: Hash, t: Bytes, h: Hash)
    requires forall e | e in es :: e.block == bh
    ensures Marks(Records(es, t), h) == if h == bh then SpentIn(es, t) else {}
    ensures forall r | r in Records(es, t) :: r.blockHash == bh
  {
    if es != [] {
      var e, before := es[|es| - 1], es[..|es| - 1];
      assert e in es && forall x | x in before :: x in es;
      RecordsMarks(before, bh, t, h);
      var n := |e.tx.Spends()|;
      InputRecordsMarks(e, n, t, h);
      assert e.tx.Spends()[..n] == e.tx.Spends();
      MarksAppend(Records(before, t), InputRecords(e, n, t), h);
    }
  }

  lemma {:induction false} NoMarks(sps: seq<Spend>, h: Hash)
    requires forall r | r in sps :: r.blockHash != h
    ensures Marks(sps, h) == {}
  {
    if sps != [] {
      assert sps[|sps| - 1] in sps && forall r | r in sps[..|sps| - 1] :: r in sps;
      NoMarks(sps[..|sps| - 1], h);
    }
  }

  lemma MatchMarks(s: Store, tb: HashLists, sp: SpendLists, b: Block, t: Bytes, h: Hash)
    requires IndexMatches(s, tb, sp) && b.hash !in s && h in s[b.hash := b]
    ensures Marks(SpendsOf(AddSpends(sp, BlockEntries(b)), t), h)
            == SpentIn(BlockEntries(s[b.hash := b][h]), t)
  {
    var es := BlockEntries(b);
    AddSpendsRecords(sp, es, t);
    MarksAppend(SpendsOf(sp, t), Records(es, t), h);
    RecordsMarks(es, b.hash, t, h);
    if h == b.hash {
      NoMarks(SpendsOf(sp, t), h);
    }
  }

  lemma MatchHashes(s: Store, tb: HashLists, sp: SpendLists, b: Block, t: Bytes, h: Hash)
    requires IndexMatches(s, tb, sp) && b.hash !in s
    ensures h in HashesOf(AddHashes(tb, BlockEntries(b)), t) <==>
            h in s[b.hash := b] && Holds(s[b.hash := b], h, t)
  {
    HashesAfter(tb, BlockEntries(b), b.hash, t, h);
    assert h in HashesOf(tb, t) <==> h in s && Holds(s, h, t);
  }

  /** Indexing a newly stored block keeps the index exact. */
  lemma IndexingKeepsMatch(s: Store, tb: HashLists, sp: SpendLists, b: Block)
    requires IndexMatches(s, tb, sp) && b.hash !in s
    ensures IndexMatches(s[b.hash := b], AddHashes(tb, BlockEntries(b)), AddSpends(sp, BlockEntries(b)))
  {
    var s', es := s[b.hash := b], BlockEntries(b);
    forall t, h
      ensures h in HashesOf(AddHashes(tb, es), t) <==> h in s' && Holds(s', h, t)
    {
      MatchHashes(s, tb, sp, b, t, h);
    }
    forall t, h | h in s'
      ensures Marks(SpendsOf(AddSpends(sp, es), t), h) == SpentIn(BlockEntries(s'[h]), t)
    {
      MatchMarks(s, tb, sp, b, t, h);
    }
    forall t, r | r in SpendsOf(AddSpends(sp, es), t)
      ensures r.blockHash in s'
    {
      AddSpendsRecords(sp, es, t);
      RecordsMarks(es, b.hash, t, b.hash);
    }
  }

  // ----- queries

  ghost function Indices(sps: seq<Spend>): set<int> {
    set r | r in sps :: r.outInd
  }

  /** Outputs that a record of a stray block makes look spent under `tip`. */
  ghost function StrayIndices(s: Store, g: Hash, m: Hash, sps: seq<Spend>, b: Hash, tip: Hash): set<int>
    requires WellFormed(s, g) && m in s && b in s && tip in s
  {
    set r | r in sps && r.blockHash in s && Stray(s, g, m, r.blockHash, b, tip) :: r.outInd
  }

  /** The branch whose top a query names; no name means the primary branch. */
  ghost function Tip(db: Database, topHash: Hash): Hash
    reads db`topHash
  {
    if topHash == [] then db.topHash else topHash
  }

  /** A state in which the queries below work under `tip`: the link index holds the path to
      `m`, the transaction index matches the stored blocks, the branch of `tip` is ordered. */
  ghost predicate Queryable(db: Database, g: Hash, m: Hash, tip: Hash)
    reads db`blocks, db`chain, db`topHash, db`txBlocks, db`spends
  {
    && Blockchain.Indexing(db, g, m)
    && IndexMatches(db.blocks, db.txBlocks, db.spends)
    && tip in db.blocks && Ordered(PathEntries(db.blocks, g, tip))
  }

  ghost predicate KnownTip(db: Database, m: Hash, topHash: Hash)
    reads db`blocks, db`topHash
  {
    if topHash == [] then m == db.topHash else topHash in db.blocks
  }

  /** The filtered records are those of the branch, and those of stray blocks. */
  lemma RangeIndices(s: Store, g: Hash, m: Hash, tb: HashLists, sp: SpendLists, t: Bytes,
                     b: Hash, tip: Hash, res: seq<Spend>)
    requires WellFormed(s, g) && m in s && tip in s && Ancestor(s, g, b, tip) && Holds(s, b, t)
    requires IndexMatches(s, tb, sp) && Ordered(PathEntries(s, g, tip))
    requires forall r :: r in res <==>
               r in SpendsOf(sp, t) && RangeAnswer(s, g, m, r.blockHash, b, tip) == Some(true)
    ensures Indices(res) ==
            SpentIn(PathEntries(s, g, tip), t) + StrayIndices(s, g, m, SpendsOf(sp, t), b, tip)
  {
    var sps := SpendsOf(sp, t);
    forall r | r in sps
      ensures r in res <==> Between(s, g, r.blockHash, b, tip) || Stray(s, g, m, r.blockHash, b, tip)
    {
      RangeTrue(s, g, m, r.blockHash, b, tip);
    }
    forall r | r in res && !Stray(s, g, m, r.blockHash, b, tip)
      ensures r.outInd in SpentIn(PathEntries(s, g, tip), t)
    {
      MarksIn(sps, r.blockHash, r.outInd);
      OnPath(s, g, tip, r.blockHash, t);
    }
    forall v | v in SpentIn(PathEntries(s, g, tip), t)
      ensures v in Indices(res)
    {
      var a := FindSpender(s, g, tip, t, v);
      MarksIn(sps, a, v);
      HomeOnPath(s, g, tip, b, t);
      BetweenByHeight(s, g, a, b, tip);
    }
  }

  lemma RangeTrue(s: Store, g: Hash, m: Hash, c: Hash, b: Hash, tip: Hash)
    requires WellFormed(s, g) && m in s && c in s && tip in s && Ancestor(s, g, b, tip)
    ensures RangeAnswer(s, g, m, c, b, tip) == Some(true)
            <==> Between(s, g, c, b, tip) || Stray(s, g, m, c, b, tip)
  {
    RangeExact(s, g, m, c, b, tip);
  }

  /** filterTranactionOutputsSpent */
  method FilterOutputsSpent(db: Database, ghost g: Hash, ghost m: Hash, outPuts: seq<Spend>,
                            blockHash: Hash, topHash: Hash)
    returns (res: seq<Spend>, err: bool)
    requires Blockchain.Indexing(db, g, m) && KnownTip(db, m, topHash)
    requires blockHash in db.blocks && forall r | r in outPuts :: r.blockHash in db.blocks
    ensures !err
    ensures forall r :: r in res <==>
              r in outPuts && RangeAnswer(db.blocks, g, m, r.blockHash, blockHash, Tip(db, topHash)) == Some(true)
  {
    res := [];
    assert topHash != [] ==> NodeOk(db.blocks, g, topHash);
    for i := 0 to |outPuts|
      invariant forall r :: r in res <==>
                  r in outPuts[..i]
                  && RangeAnswer(db.blocks, g, m, r.blockHash, blockHash, Tip(db, topHash)) == Some(true)
    {
      var o := outPuts[i];
      var present, e := Blockchain.CheckBlockIsInRange(db, g, m, o.blockHash, blockHash, topHash);
      if e {
        return [], true;
      }
      if present {
        res := res + [o];
      }
      assert outPuts[..i + 1] == outPuts[..i] + [o];
    }
    assert outPuts[..|outPuts|] == outPuts;
    err := false;
  }

  method GetTranactionOutputsSpent(db: Database, ghost g: Hash, ghost m: Hash, txID: Bytes,
                                   blockHash: Hash, topHash: Hash)
    returns (res: seq<Spend>, err: bool)
    requires Queryable(db, g, m, Tip(db, topHash)) && KnownTip(db, m, topHash)
    requires Ancestor(db.blocks, g, blockHash, Tip(db, topHash)) && Holds(db.blocks, blockHash, txID)
    ensures !err
    ensures Indices(res) ==
            SpentIn(PathEntries(db.blocks, g, Tip(db, topHash)), txID)
            + StrayIndices(db.blocks, g, m, SpendsOf(db.spends, txID), blockHash, Tip(db, topHash))
  {
    res, err := FilterOutputsSpent(db, g, m, SpendsOf(db.spends, txID), blockHash, topHash);
    RangeIndices(db.blocks, g, m, db.txBlocks, db.spends, txID, blockHash, Tip(db, topHash), res);
  }

  /** The first of the listed transactions that bears the id. */
  ghost function FirstWithId(txs: seq<Transaction>, t: Bytes): Option<Transaction> {
    if txs == [] then None
    else if txs[0].id == t then Some(txs[0])
    else FirstWithId(txs[1..], t)
  }

  /** GetTransactionFromBlock: none stands for the error of an unknown block or transaction. */
  method GetTransactionFromBlock(db: Database, txID: Bytes, blockHash: Hash) returns (tx: Option<Transaction>)
    ensures tx == if blockHash in db.blocks then FirstWithId(db.blocks[blockHash].transactions, txID) else None
    ensures tx.Some? <==> blockHash in db.blocks && Holds(db.blocks, blockHash, txID)
    ensures tx.Some? ==> tx.value in db.blocks[blockHash].transactions && tx.value.id == txID
  {
    if blockHash !in db.blocks {
      return None;
    }
    var block := db.blocks[blockHash];
    IdsIn(BlockEntries(block), txID);
    assert block.transactions[0..] == block.transactions;
    for i := 0 to |block.transactions|
      invariant forall j | 0 <= j < i :: block.transactions[j].id != txID
      invariant FirstWithId(block.transactions, txID) == FirstWithId(block.transactions[i..], txID)
    {
      if block.transactions[i].id == txID {
        assert BlockEntries(block)[i].tx.id == txID;
        return Some(block.transactions[i]);
      }
    }
    return None;
  }

  lemma TxInBlock(s: Store, g: Hash, tip: Hash, b: Hash, tx: Transaction)
    requires WellFormed(s, g) && tip in s && Ordered(PathEntries(s, g, tip))
    requires Ancestor(s, g, b, tip) && Holds(s, b, tx.id) && tx in s[b].transactions
    ensures EntryAt(PathEntries(s, g, tip), tx.id) == Some(Entry(tx, b))
  {
    var i :| 0 <= i < |s[b].transactions| && s[b].transactions[i] == tx;
    assert NodeOk(s, g, b);
    SplitAt(s, g, b, tip);
    OrderedPrefix(PathEntries(s, g, b), EntriesAbove(s, g, tip, s[b].height));
    var below := if b == g then [] else PathEntries(s, g, s[b].prevBlockHash);
    assert PathEntries(s, g, b) == below + BlockEntries(s[b]);
    EntryAtIndex(below, BlockEntries(s[b]), i);
    HomeOnPath(s, g, tip, b, tx.id);
  }

  /** The transaction under a given top, the block that holds it and the outputs
      spent there: exact, but for the outputs a stray record makes look spent. */
  method GetTransactionAllInfo(db: Database, ghost g: Hash, ghost m: Hash, txID: Bytes, topHash: Hash)
    returns (tx: Option<Transaction>, spentOuts: seq<Spend>, blockHash: Hash, err: bool)
    requires Queryable(db, g, m, Tip(db, topHash)) && KnownTip(db, m, topHash)
    ensures !err
    ensures tx.Some? <==> txID in Ids(PathEntries(db.blocks, g, Tip(db, topHash)))
    ensures tx.Some? ==>
              && Ancestor(db.blocks, g, blockHash, Tip(db, topHash)) && Holds(db.blocks, blockHash, txID)
              && tx.value in db.blocks[blockHash].transactions
              && EntryAt(PathEntries(db.blocks, g, Tip(db, topHash)), txID) == Some(Entry(tx.value, blockHash))
              && Indices(spentOuts) ==
                 SpentIn(PathEntries(db.blocks, g, Tip(db, topHash)), txID)
                 + StrayIndices(db.blocks, g, m, SpendsOf(db.spends, txID), blockHash, Tip(db, topHash))
  {
    ghost var s, tip := db.blocks, Tip(db, topHash);
    var blockHashes := HashesOf(db.txBlocks, txID);
    forall h | h in blockHashes
      ensures |h| == |g|
    {
      assert NodeOk(s, g, h);
    }
    var chosen, e := Blockchain.ChooseHashUnderTip(db, g, m, blockHashes, topHash);
    HeldUnderTip(s, g, tip, txID, blockHashes, chosen);
    if e {
      return None, [], [], true;
    }
    if chosen.None? {
      return None, [], [], false;
    }
    blockHash := chosen.value;
    spentOuts, e := GetTranactionOutputsSpent(db, g, m, txID, blockHash, topHash);
    if e {
      return None, [], [], true;
    }
    tx := GetTransactionFromBlock(db, txID, blockHash);
    TxInBlock(s, g, tip, blockHash, tx.value);
    return tx, spentOuts, blockHash, tx.None?;
  }

  /** Choosing among the listed blocks tells whether the branch holds the transaction. */
  lemma HeldUnderTip(s: Store, g: Hash, tip: Hash, t: Bytes, hashes: seq<Hash>, chosen: Option<Hash>)
    requires WellFormed(s, g) && tip in s
    requires forall h :: h in hashes <==> h in s && Holds(s, h, t)
    requires Blockchain.UnderTip(s, g, hashes, tip, chosen)
    ensures chosen.Some? <==> t in Ids(PathEntries(s, g, tip))
  {
    if chosen.Some? {
      OnPath(s, g, tip, chosen.value, t);
    } else if t in Ids(PathEntries(s, g, tip)) {
      var a := FindHolder(s, g, tip, t);
    }
  }
}
