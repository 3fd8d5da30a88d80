/** Balances of an address: from the cache (GetAddressBalance in
    node/transactions/unspent.go) and from the history that an iterator collects over the
    chain (GetAddressHistory in node/blockchain/iterator.go).  An address is represented
    by the hash of its key. */
module History {
  import opened Structures
  import opened Storage
  import opened Tree
  import opened Ledger
  import opened ChainLedger
  import opened TxIndex
  import opened Growth
  import opened Verification
  import opened Supply
  import Blockchain

  // ----- from the cache

  method LockedWithKey(outs: seq<Output>, pubKeyHash: Bytes, list0: seq<Output>, ghost sum: real)
    returns (list: seq<Output>)
    requires CoinSum(Strip(list0), Some(pubKeyHash)) == sum
    requires forall o | o in list0 :: o.destPubKeyHash == pubKeyHash
    ensures CoinSum(Strip(list), Some(pubKeyHash)) == sum + CoinSum(Strip(outs), Some(pubKeyHash))
    ensures forall o | o in list :: o.destPubKeyHash == pubKeyHash
  {
    list := list0;
    for i := 0 to |outs|
      invariant CoinSum(Strip(list), Some(pubKeyHash)) == sum + CoinSum(Strip(outs[..i]), Some(pubKeyHash))
      invariant forall o | o in list :: o.destPubKeyHash == pubKeyHash
    {
      StripStep(outs, i);
      if outs[i].destPubKeyHash == pubKeyHash {
        StripSnoc(list, outs[i]);
        list := list + [outs[i]];
      }
    }
    assert outs[..|outs|] == outs;
  }

  lemma StripStep(outs: seq<Output>, i: nat)
    requires i < |outs|
    ensures Strip(outs[..i + 1])[..i] == Strip(outs[..i]) && Strip(outs[..i + 1])[i] == CoinOf(outs[i])
  {
  }

  lemma StripSnoc(outs: seq<Output>, o: Output)
    ensures Strip(outs + [o])[..|outs|] == Strip(outs) && Strip(outs + [o])[|outs|] == CoinOf(o)
  {
  }

  /** GetunspentTransactionsOutputs: goes over the whole bucket. */
  method GetUnspentOutputs(db: Database, pubKeyHash: Bytes) returns (list: seq<Output>)
    ensures CoinSum(Strip(list), Some(pubKeyHash)) == Total(db.unspent, Some(pubKeyHash))
    ensures forall o | o in list :: o.destPubKeyHash == pubKeyHash
  {
    list := [];
    var keys := db.unspent.Keys;
    while keys != {}
      invariant keys <= db.unspent.Keys
      invariant CoinSum(Strip(list), Some(pubKeyHash)) + TotalOver(db.unspent, keys, Some(pubKeyHash))
                == Total(db.unspent, Some(pubKeyHash))
      invariant forall o | o in list :: o.destPubKeyHash == pubKeyHash
      decreases keys
    {
      var txID :| txID in keys;
      TotalTake(db.unspent, keys, Some(pubKeyHash), txID);
      list := LockedWithKey(db.unspent[txID], pubKeyHash, list, CoinSum(Strip(list), Some(pubKeyHash)));
      keys := keys - {txID};
    }
  }

  method GetAddressBalance(db: Database, pubKeyHash: Bytes) returns (balance: real)
    ensures balance == Total(db.unspent, Some(pubKeyHash))
  {
    balance := 0.0;
    var list := GetUnspentOutputs(db, pubKeyHash);
    for i := 0 to |list|
      invariant balance == CoinSum(Strip(list[..i]), Some(pubKeyHash))
    {
      StripStep(list, i);
      balance := balance + list[i].value;
    }
    assert list[..|list|] == list;
  }

  // ----- from the chain

  datatype Party = Key(hash: Bytes) | CoinBase | Nobody

  datatype HistoryRecord = HistoryRecord(income: bool, txid: Bytes, party: Party, value: real)

  /** Value of the outputs that go to others. */
  ghost function ToOthers(outs: seq<TXOutput>, a: Bytes): real {
    if outs == [] then 0.0 else
      ToOthers(outs[..|outs| - 1], a) + (if outs[|outs| - 1].pubKeyHash == a then 0.0 else outs[|outs| - 1].value)
  }

  ghost function ToKey(outs: seq<TXOutput>, a: Bytes): real {
    if outs == [] then 0.0 else
      ToKey(outs[..|outs| - 1], a) + (if outs[|outs| - 1].pubKeyHash == a then outs[|outs| - 1].value else 0.0)
  }

  ghost predicate SpendsFrom(tx: Transaction, a: Bytes, keyHash: KeyHash) {
    exists i :: 0 <= i < |tx.vin| && keyHash(tx.vin[i].pubKey) == a
  }

  /** Incoming less outgoing values. */
  ghost function Net(rs: seq<HistoryRecord>): real {
    if rs == [] then 0.0 else
      Net(rs[..|rs| - 1]) + (if rs[|rs| - 1].income then rs[|rs| - 1].value else -rs[|rs| - 1].value)
  }

  lemma {:induction false} NetAppend(a: seq<HistoryRecord>, b: seq<HistoryRecord>)
    ensures Net(a + b) == Net(a) + Net(b)
  {
    if b == [] {
      assert a + b == a;
    } else {
      assert (a + b)[..|a + b| - 1] == a + b[..|b| - 1];
      NetAppend(a, b[..|b| - 1]);
    }
  }

  lemma NetOne(r: HistoryRecord)
    ensures Net([r]) == if r.income then r.value else -r.value
  {
    assert [r][..0] == [];
  }

  /** Who received last among the others. */
  ghost function LastOther(outs: seq<TXOutput>, a: Bytes): Party {
    if outs == [] then Nobody
    else if outs[|outs| - 1].pubKeyHash != a then Key(outs[|outs| - 1].pubKeyHash)
    else LastOther(outs[..|outs| - 1], a)
  }

  /** Who signed last. */
  ghost function LastSigner(tx: Transaction, keyHash: KeyHash): Party {
    if tx.vin == [] then Nobody else Key(keyHash(tx.vin[|tx.vin| - 1].pubKey))
  }

  /** What comes in by a transaction that spends nothing of the address; of a coinbase only the
      first output counts. */
  ghost function Income(tx: Transaction, a: Bytes): real {
    ToKey(if tx.IsCoinbase() && tx.vout != [] then [tx.vout[0]] else tx.vout, a)
  }

  /** The records of one transaction: what left the address and to whom, or what came in and
      from whom; a payment to itself shows as two records without value. */
  ghost function TxRecords(tx: Transaction, a: Bytes, keyHash: KeyHash): seq<HistoryRecord> {
    if SpendsFrom(tx, a, keyHash) then
      if ToOthers(tx.vout, a) > 0.0 then
        [HistoryRecord(false, tx.id, LastOther(tx.vout, a), ToOthers(tx.vout, a))]
      else [HistoryRecord(false, tx.id, Key(a), 0.0), HistoryRecord(true, tx.id, Key(a), 0.0)]
    else
      if Income(tx, a) > 0.0 then
        [HistoryRecord(true, tx.id, if tx.IsCoinbase() then CoinBase else LastSigner(tx, keyHash), Income(tx, a))]
      else []
  }

  /** What one transaction adds to the balance that a history shows. */
  ghost function TxNet(tx: Transaction, a: Bytes, keyHash: KeyHash): real {
    if SpendsFrom(tx, a, keyHash) then (if ToOthers(tx.vout, a) > 0.0 then -ToOthers(tx.vout, a) else 0.0)
    else if Income(tx, a) > 0.0 then Income(tx, a) else 0.0
  }

  lemma RecordsNet(tx: Transaction, a: Bytes, keyHash: KeyHash)
    ensures Net(TxRecords(tx, a, keyHash)) == TxNet(tx, a, keyHash)
  {
    var rs := TxRecords(tx, a, keyHash);
    if |rs| == 1 {
      NetOne(rs[0]);
    } else if |rs| == 2 {
      assert rs == [rs[0]] + [rs[1]];
      NetOne(rs[0]);
      NetOne(rs[1]);
      NetAppend([rs[0]], [rs[1]]);
    }
  }

  lemma {:induction false} LastOtherIs(outs: seq<TXOutput>, a: Bytes)
    ensures ToOthers(outs, a) != 0.0 ==>
              exists i :: 0 <= i < |outs| && outs[i].pubKeyHash != a && LastOther(outs, a) == Key(outs[i].pubKeyHash)
                          && forall k | i < k < |outs| :: outs[k].pubKeyHash == a
  {
    if outs != [] {
      var n := |outs| - 1;
      LastOtherIs(outs[..n], a);
      if outs[n].pubKeyHash == a && ToOthers(outs, a) != 0.0 {
        var i :| 0 <= i < n && outs[..n][i].pubKeyHash != a && LastOther(outs[..n], a) == Key(outs[..n][i].pubKeyHash)
                 && forall k | i < k < n :: outs[..n][k].pubKeyHash == a;
        assert outs[i] == outs[..n][i] && forall k | i < k < n :: outs[k] == outs[..n][k];
      }
    }
  }

  /** Whom a record names: of what left, the owner of the last output to another; of what came
      in, the owner of the key of the last input, or the coinbase; without value the address. */
  lemma RecordNames(tx: Transaction, a: Bytes, keyHash: KeyHash, r: HistoryRecord)
    requires r in TxRecords(tx, a, keyHash)
    ensures r.txid == tx.id && r.value >= 0.0
    ensures r.value == 0.0 ==> r.party == Key(a)
    ensures r.value > 0.0 && !r.income ==>
              exists i :: 0 <= i < |tx.vout| && tx.vout[i].pubKeyHash != a && r.party == Key(tx.vout[i].pubKeyHash)
                          && forall k | i < k < |tx.vout| :: tx.vout[k].pubKeyHash == a
    ensures r.value > 0.0 && r.income ==>
              r.party == if tx.IsCoinbase() then CoinBase
                         else if tx.vin == [] then Nobody else Key(keyHash(tx.vin[|tx.vin| - 1].pubKey))
  {
    LastOtherIs(tx.vout, a);
  }

  /** How many records a transaction has: one for what left or came in, none when nothing came
      in, and two for a payment to itself, which leaves and comes in. */
  lemma RecordCount(tx: Transaction, a: Bytes, keyHash: KeyHash)
    ensures var rs := TxRecords(tx, a, keyHash);
            if exists i :: 0 <= i < |tx.vin| && keyHash(tx.vin[i].pubKey) == a then
              if ToOthers(tx.vout, a) > 0.0 then |rs| == 1 && !rs[0].income && rs[0].value == ToOthers(tx.vout, a)
              else |rs| == 2 && !rs[0].income && rs[1].income && rs[0].value == 0.0 == rs[1].value
            else |rs| <= 1 && forall r | r in rs :: r.income && r.value > 0.0
  {
  }

  // ----- the order of the records

  lemma {:induction false} RecordsInOrder(es: seq<Entry>, i: nat, a: Bytes, keyHash: KeyHash)
    requires i <= |es|
    ensures RecordsOf(es[..i], a, keyHash) <= RecordsOf(es, a, keyHash)
  {
    if i < |es| {
      var before := es[..|es| - 1];
      assert before[..i] == es[..i];
      RecordsInOrder(before, i, a, keyHash);
    } else {
      assert es[..i] == es;
    }
  }

  /** The history goes from the top down: that of an older block is the end of that of a newer. */
  lemma {:induction false} OlderRecordsLast(s: Store, g: Hash, h: Hash, older: Hash, a: Bytes, keyHash: KeyHash)
    requires WellFormed(s, g) && h in s && Ancestor(s, g, older, h)
    ensures var all, last := BranchRecords(s, g, h, a, keyHash), BranchRecords(s, g, older, a, keyHash);
            |last| <= |all| && all[|all| - |last|..] == last
    decreases s[h].height
  {
    assert NodeOk(s, g, h);
    if h == g {
      AncestorOfGenesis(s, g, older);
    } else if older != h {
      AncestorStep(s, g, older, h);
      OlderRecordsLast(s, g, s[h].prevBlockHash, older, a, keyHash);
      var below := BranchRecords(s, g, s[h].prevBlockHash, a, keyHash);
      var last := BranchRecords(s, g, older, a, keyHash);
      var all := RecordsOf(BlockEntries(s[h]), a, keyHash) + below;
      assert all[|all| - |last|..] == below[|below| - |last|..];
    }
  }

  method FindSigner(tx: Transaction, a: Bytes, keyHash: KeyHash) returns (spent: bool, signer: Party)
    ensures spent <==> SpendsFrom(tx, a, keyHash)
    ensures !spent ==> signer == LastSigner(tx, keyHash)
  {
    signer := Nobody;
    for i := 0 to |tx.vin|
      invariant forall j | 0 <= j < i :: keyHash(tx.vin[j].pubKey) != a
      invariant signer == if i == 0 then Nobody else Key(keyHash(tx.vin[i - 1].pubKey))
    {
      signer := Key(keyHash(tx.vin[i].pubKey));
      if keyHash(tx.vin[i].pubKey) == a {
        return true, signer;
      }
    }
    return false, signer;
  }

  method SumToOthers(outs: seq<TXOutput>, a: Bytes) returns (spentvalue: real, dest: Party)
    ensures spentvalue == ToOthers(outs, a) && dest == LastOther(outs, a)
  {
    spentvalue, dest := 0.0, Nobody;
    for i := 0 to |outs|
      invariant spentvalue == ToOthers(outs[..i], a) && dest == LastOther(outs[..i], a)
    {
      assert outs[..i + 1][..i] == outs[..i];
      if outs[i].pubKeyHash != a {
        spentvalue := spentvalue + outs[i].value;
        dest := Key(outs[i].pubKeyHash);
      }
    }
    assert outs[..|outs|] == outs;
  }

  method SumToKey(outs: seq<TXOutput>, a: Bytes) returns (income: real)
    ensures income == ToKey(outs, a)
  {
    income := 0.0;
    for i := 0 to |outs|
      invariant income == ToKey(outs[..i], a)
    {
      assert outs[..i + 1][..i] == outs[..i];
      if outs[i].pubKeyHash == a {
        income := income + outs[i].value;
      }
    }
    assert outs[..|outs|] == outs;
  }

  /** When reading the first output of a coinbase ends beyond the list. */
  ghost predicate Unpaid(tx: Transaction, a: Bytes, keyHash: KeyHash) {
    tx.IsCoinbase() && tx.vout == [] && !SpendsFrom(tx, a, keyHash)
  }

  ghost predicate SomeUnpaid(es: seq<Entry>, a: Bytes, keyHash: KeyHash) {
    exists i :: 0 <= i < |es| && Unpaid(es[i].tx, a, keyHash)
  }

  method TxHistory(tx: Transaction, a: Bytes, keyHash: KeyHash) returns (rs: seq<HistoryRecord>, crashed: bool)
    ensures crashed <==> Unpaid(tx, a, keyHash)
    ensures !crashed ==> rs == TxRecords(tx, a, keyHash)
  {
    crashed := false;
    var spent, signer := FindSigner(tx, a, keyHash);
    rs := [];
    if spent {
      var spentvalue, dest := SumToOthers(tx.vout, a);
      if spentvalue > 0.0 {
        rs := [HistoryRecord(false, tx.id, dest, spentvalue)];
      } else {
        rs := [HistoryRecord(false, tx.id, Key(a), 0.0), HistoryRecord(true, tx.id, Key(a), 0.0)];
      }
      return;
    }
    var income := 0.0;
    if tx.IsCoinbase() {
      if |tx.vout| == 0 {
        return rs, true;
      }
      assert [tx.vout[0]][..0] == [] && tx.vout != [];
      assert ToKey([tx.vout[0]], a) == ToKey([], a) + (if tx.vout[0].pubKeyHash == a then tx.vout[0].value else 0.0);
      if tx.vout[0].pubKeyHash == a {
        signer := CoinBase;
        income := tx.vout[0].value;
      }
      assert income == Income(tx, a);
    } else {
      income := SumToKey(tx.vout, a);
    }
    if income > 0.0 {
      rs := [HistoryRecord(true, tx.id, signer, income)];
    }
  }

  /** What the history of a chain adds up to. */
  ghost function ChainNet(es: seq<Entry>, a: Bytes, keyHash: KeyHash): real {
    if es == [] then 0.0 else
      ChainNet(es[..|es| - 1], a, keyHash) + TxNet(es[|es| - 1].tx, a, keyHash)
  }

  lemma {:induction false} ChainNetAppend(x: seq<Entry>, y: seq<Entry>, a: Bytes, keyHash: KeyHash)
    ensures ChainNet(x + y, a, keyHash) == ChainNet(x, a, keyHash) + ChainNet(y, a, keyHash)
  {
    if y == [] {
      assert x + y == x;
    } else {
      var y' := y[..|y| - 1];
      assert (x + y)[..|x + y| - 1] == x + y';
      ChainNetAppend(x, y', a, keyHash);
    }
  }

  /** The records of a list of entries, in order. */
  ghost function RecordsOf(es: seq<Entry>, a: Bytes, keyHash: KeyHash): seq<HistoryRecord> {
    if es == [] then [] else
      RecordsOf(es[..|es| - 1], a, keyHash) + TxRecords(es[|es| - 1].tx, a, keyHash)
  }

  /** The records of a branch: from its last block down to the genesis block, those of each
      block in the order of its transactions. */
  ghost function BranchRecords(s: Store, g: Hash, h: Hash, a: Bytes, keyHash: KeyHash): seq<HistoryRecord>
    requires WellFormed(s, g) && h in s
    decreases s[h].height
  {
    assert NodeOk(s, g, h);
    if h == g then RecordsOf(BlockEntries(s[h]), a, keyHash)
    else
      assert NodeOk(s, g, s[h].prevBlockHash);
      RecordsOf(BlockEntries(s[h]), a, keyHash) + BranchRecords(s, g, s[h].prevBlockHash, a, keyHash)
  }

  lemma {:induction false} RecordsOfNet(es: seq<Entry>, a: Bytes, keyHash: KeyHash)
    ensures Net(RecordsOf(es, a, keyHash)) == ChainNet(es, a, keyHash)
  {
    if es != [] {
      var before, e := es[..|es| - 1], es[|es| - 1];
      RecordsOfNet(before, a, keyHash);
      RecordsNet(e.tx, a, keyHash);
      NetAppend(RecordsOf(before, a, keyHash), TxRecords(e.tx, a, keyHash));
    }
  }

  lemma {:induction false} BranchNet(s: Store, g: Hash, h: Hash, a: Bytes, keyHash: KeyHash)
    requires WellFormed(s, g) && h in s
    ensures Net(BranchRecords(s, g, h, a, keyHash)) == ChainNet(PathEntries(s, g, h), a, keyHash)
    decreases s[h].height
  {
    assert NodeOk(s, g, h);
    var below := if h == g then [] else PathEntries(s, g, s[h].prevBlockHash);
    SplitBlock(s, g, h, below, a, keyHash);
    RecordsOfNet(BlockEntries(s[h]), a, keyHash);
    if h != g {
      BranchNet(s, g, s[h].prevBlockHash, a, keyHash);
      NetAppend(RecordsOf(BlockEntries(s[h]), a, keyHash), BranchRecords(s, g, s[h].prevBlockHash, a, keyHash));
    }
  }

  lemma RecordsStep(es: seq<Entry>, i: nat, a: Bytes, keyHash: KeyHash)
    requires i < |es|
    ensures RecordsOf(es[..i + 1], a, keyHash) == RecordsOf(es[..i], a, keyHash) + TxRecords(es[i].tx, a, keyHash)
    ensures i + 1 == |es| ==> es[..i + 1] == es
  {
    assert es[..i + 1][..i] == es[..i];
  }

  method BlockHistory(block: Block, a: Bytes, keyHash: KeyHash) returns (result: seq<HistoryRecord>, crashed: bool)
    ensures crashed <==> SomeUnpaid(BlockEntries(block), a, keyHash)
    ensures !crashed ==> result == RecordsOf(BlockEntries(block), a, keyHash)
  {
    result := [];
    ghost var es := BlockEntries(block);
    for i := 0 to |block.transactions|
      invariant forall k | 0 <= k < i :: !Unpaid(es[k].tx, a, keyHash)
      invariant result == RecordsOf(es[..i], a, keyHash)
      invariant i == |es| ==> es[..i] == es
    {
      RecordsStep(es, i, a, keyHash);
      var rs, panic := TxHistory(block.transactions[i], a, keyHash);
      if panic {
        assert Unpaid(es[i].tx, a, keyHash);
        return result, true;
      }
      result := result + rs;
    }
    crashed := false;
  }

  lemma SplitBlock(s: Store, g: Hash, h: Hash, below: seq<Entry>, a: Bytes, keyHash: KeyHash)
    requires WellFormed(s, g) && h in s
    requires h == g ==> below == []
    requires h != g ==> s[h].prevBlockHash in s && below == PathEntries(s, g, s[h].prevBlockHash)
    ensures ChainNet(PathEntries(s, g, h), a, keyHash)
            == ChainNet(below, a, keyHash) + ChainNet(BlockEntries(s[h]), a, keyHash)
    ensures SomeUnpaid(PathEntries(s, g, h), a, keyHash) <==>
            SomeUnpaid(below, a, keyHash) || SomeUnpaid(BlockEntries(s[h]), a, keyHash)
  {
    assert NodeOk(s, g, h);
    assert PathEntries(s, g, h) == below + BlockEntries(s[h]);
    ChainNetAppend(below, BlockEntries(s[h]), a, keyHash);
    UnpaidAppend(below, BlockEntries(s[h]), a, keyHash);
  }

  lemma UnpaidAppend(x: seq<Entry>, y: seq<Entry>, a: Bytes, keyHash: KeyHash)
    ensures SomeUnpaid(x + y, a, keyHash) <==> SomeUnpaid(x, a, keyHash) || SomeUnpaid(y, a, keyHash)
  {
    if i :| 0 <= i < |x| && Unpaid(x[i].tx, a, keyHash) {
      assert Unpaid((x + y)[i].tx, a, keyHash);
    }
    if i :| 0 <= i < |y| && Unpaid(y[i].tx, a, keyHash) {
      assert Unpaid((x + y)[|x| + i].tx, a, keyHash);
    }
    if i :| 0 <= i < |x + y| && Unpaid((x + y)[i].tx, a, keyHash) {
      assert if i < |x| then Unpaid(x[i].tx, a, keyHash) else Unpaid(y[i - |x|].tx, a, keyHash);
    }
  }

  lemma BranchStep(s: Store, g: Hash, h: Hash, a: Bytes, keyHash: KeyHash, done: seq<HistoryRecord>,
                   all: seq<HistoryRecord>)
    requires WellFormed(s, g) && h in s && done + BranchRecords(s, g, h, a, keyHash) == all
    ensures s[h].hash == h
    ensures |s[h].prevBlockHash| == 0 ==> done + RecordsOf(BlockEntries(s[h]), a, keyHash) == all
    ensures |s[h].prevBlockHash| == 0 ==>
              (SomeUnpaid(PathEntries(s, g, h), a, keyHash) <==> SomeUnpaid(BlockEntries(s[h]), a, keyHash))
    ensures |s[h].prevBlockHash| != 0 ==>
              && s[h].prevBlockHash in s && s[h].height > s[s[h].prevBlockHash].height >= 0
              && (done + RecordsOf(BlockEntries(s[h]), a, keyHash))
                 + BranchRecords(s, g, s[h].prevBlockHash, a, keyHash) == all
              && (SomeUnpaid(PathEntries(s, g, h), a, keyHash) <==>
                  SomeUnpaid(PathEntries(s, g, s[h].prevBlockHash), a, keyHash)
                  || SomeUnpaid(BlockEntries(s[h]), a, keyHash))
  {
    assert NodeOk(s, g, h) && NodeOk(s, g, g);
    var below := if h == g then [] else PathEntries(s, g, s[h].prevBlockHash);
    SplitBlock(s, g, h, below, a, keyHash);
    if h != g {
      assert NodeOk(s, g, s[h].prevBlockHash);
    }
  }

  /** The history of an address, unless reading the output of a coinbase without outputs crashes. */
  method GetAddressHistory(db: Database, ghost g: Hash, a: Bytes, keyHash: KeyHash)
    returns (result: seq<HistoryRecord>, crashed: bool)
    requires Blockchain.ChainOk(db, g)
    ensures crashed <==> SomeUnpaid(PathEntries(db.blocks, g, db.topHash), a, keyHash)
    ensures !crashed ==> result == BranchRecords(db.blocks, g, db.topHash, a, keyHash)
  {
    ghost var s, all := db.blocks, BranchRecords(db.blocks, g, db.topHash, a, keyHash);
    ghost var bad := SomeUnpaid(PathEntries(s, g, db.topHash), a, keyHash);
    result := [];
    var bci := new Blockchain.BlockchainIterator(db.topHash);
    assert NodeOk(s, g, db.topHash);
    while true
      invariant bci.currentHash in s && s[bci.currentHash].height >= 0
      invariant bad <==> SomeUnpaid(PathEntries(s, g, bci.currentHash), a, keyHash)
      invariant result + BranchRecords(s, g, bci.currentHash, a, keyHash) == all
      decreases s[bci.currentHash].height
    {
      BranchStep(s, g, bci.currentHash, a, keyHash, result, all);
      var blk := bci.Next(db);
      var block := blk.value;
      var rs, panic := BlockHistory(block, a, keyHash);
      if panic {
        return result, true;
      }
      result := result + rs;
      if |block.prevBlockHash| == 0 {
        break;
      }
    }
    crashed := false;
  }

  // ----- the two agree

  /** What the history presumes of a transaction: all its inputs belong to one key, that of
      the outputs they spend, it pays out exactly what it takes in, and no output is
      negative; a coinbase has one output and its input is no key of the address. */
  ghost predicate OneOwner(es: seq<Entry>, tx: Transaction, a: Bytes, keyHash: KeyHash) {
    && (forall o | o in tx.vout :: o.value >= 0.0)
    && if tx.IsCoinbase() then |tx.vout| == 1 && keyHash(tx.vin[0].pubKey) != a
       else
         && InputsValue(es, tx.vin, None) == SumOut(tx.vout)
         && (forall i, j | 0 <= i < |tx.vin| && 0 <= j < |tx.vin| ::
               keyHash(tx.vin[i].pubKey) == keyHash(tx.vin[j].pubKey))
         && (forall i | 0 <= i < |tx.vin| :: OwnedByKey(es, tx.vin[i], keyHash))
  }

  /** The output that an input spends belongs to the key of the input. */
  ghost predicate OwnedByKey(es: seq<Entry>, vin: TXInput, keyHash: KeyHash) {
    0 <= vin.vout < |CoinsAt(es, vin.txid)| ==> CoinsAt(es, vin.txid)[vin.vout].owner == keyHash(vin.pubKey)
  }

  ghost predicate OneOwnerEach(es: seq<Entry>, a: Bytes, keyHash: KeyHash) {
    es == [] || (OneOwnerEach(es[..|es| - 1], a, keyHash) && OneOwner(es[..|es| - 1], es[|es| - 1].tx, a, keyHash))
  }

  lemma {:induction false} InputsOf(es: seq<Entry>, ins: seq<TXInput>, a: Bytes, keyHash: KeyHash, own: bool)
    requires forall i | 0 <= i < |ins| :: OwnedByKey(es, ins[i], keyHash)
    requires forall i | 0 <= i < |ins| :: (keyHash(ins[i].pubKey) == a) == own
    ensures InputsValue(es, ins, Some(a)) == if own then InputsValue(es, ins, None) else 0.0
  {
    if ins != [] {
      assert OwnedByKey(es, ins[|ins| - 1], keyHash);
      InputsOf(es, ins[..|ins| - 1], a, keyHash, own);
    }
  }

  lemma {:induction false} OutputsOf(cs: seq<Coin>, outs: seq<TXOutput>, a: Bytes)
    requires |cs| == |outs|
    requires forall i | 0 <= i < |cs| :: cs[i].value == outs[i].value && cs[i].owner == outs[i].pubKeyHash
    requires forall o | o in outs :: o.value >= 0.0
    ensures CoinSum(cs, Some(a)) == ToKey(outs, a) == SumOut(outs) - ToOthers(outs, a)
    ensures ToKey(outs, a) >= 0.0 && ToOthers(outs, a) >= 0.0
  {
    if cs != [] {
      var n := |cs| - 1;
      assert outs[n] in outs && forall o | o in outs[..n] :: o in outs;
      OutputsOf(cs[..n], outs[..n], a);
    }
  }

  lemma TxNetIs(es: seq<Entry>, e: Entry, a: Bytes, keyHash: KeyHash)
    requires OneOwner(es, e.tx, a, keyHash)
    ensures TxNet(e.tx, a, keyHash) == CoinSum(CoinsOf(e), Some(a)) - InputsValue(es, e.tx.Spends(), Some(a))
  {
    var tx := e.tx;
    OutputsOf(CoinsOf(e), tx.vout, a);
    if tx.IsCoinbase() {
      assert [tx.vout[0]] == tx.vout;
    } else {
      InputsOf(es, tx.vin, a, keyHash, SpendsFrom(tx, a, keyHash));
    }
  }

  lemma {:induction false} ChainNetIs(es: seq<Entry>, a: Bytes, keyHash: KeyHash)
    requires OneOwnerEach(es, a, keyHash)
    ensures !SomeUnpaid(es, a, keyHash)
    ensures ChainNet(es, a, keyHash) == Received(es, Some(a)) - SpentValue(es, Some(a))
  {
    if es != [] {
      var before, e := es[..|es| - 1], es[|es| - 1];
      ChainNetIs(before, a, keyHash);
      assert es == before + [e];
      UnpaidAppend(before, [e], a, keyHash);
      TxNetIs(before, e, a, keyHash);
    }
  }

  /** The history of an address adds up to its approved balance. */
  lemma HistoryIsBalance(s: Store, g: Hash, top: Hash, u: Utxo, a: Bytes, keyHash: KeyHash)
    requires WellFormed(s, g) && top in s
    requires Sound(PathEntries(s, g, top)) && NoDoubleSpend(PathEntries(s, g, top))
    requires Tracks(u, PathEntries(s, g, top)) && OneOwnerEach(PathEntries(s, g, top), a, keyHash)
    ensures !SomeUnpaid(PathEntries(s, g, top), a, keyHash)
    ensures Net(BranchRecords(s, g, top, a, keyHash)) == Total(u, Some(a))
  {
    var es := PathEntries(s, g, top);
    ChainNetIs(es, a, keyHash);
    CacheTotal(u, es, Some(a));
    BranchNet(s, g, top, a, keyHash);
  }

  /** In an accepted transaction every input belongs to the owner of the output it spends. */
  lemma AcceptedOwned(crypto: Crypto, s: Store, g: Hash, m: Hash, sp: SpendLists, tip: Hash,
                      be: seq<Entry>, txs: seq<Transaction>, tx: Transaction, i: nat)
    requires WellFormed(s, g) && m in s && tip in s
    requires |be| == |txs| && forall j | 0 <= j < |be| :: be[j].tx == txs[j]
    requires Ordered(PathEntries(s, g, tip) + be)
    requires TxAccepted(crypto, s, g, m, sp, tip, txs, tx) && i < |tx.Spends()|
    ensures OwnedByKey(PathEntries(s, g, tip) + be, tx.Spends()[i], crypto.keyHash)
  {
    var es := PathEntries(s, g, tip);
    var srcs := SourcesOf(es, txs, tx.vin);
    SourceInChain(es, be, txs, tx.vin[i].txid);
    assert SourceHas(srcs[i], tx.vin[i]) && InputSigned(crypto, tx, srcs, i);
  }
}
