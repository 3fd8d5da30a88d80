/** Checking transactions and blocks: Transaction.Verify (node/structures/transaction.go),
    VerifyTransaction (node/transactions/manager.go) and VerifyBlock
    (node/consensus/manager.go, proofofwork.go). */
module Verification {
  import opened Structures
  import opened Storage
  import opened Tree
  import opened Ledger
  import opened ChainLedger
  import opened TxIndex
  import opened UnspentCache
  import opened Pending

  // ----- one transaction against the transactions it spends

  function SumOut(outs: seq<TXOutput>): real {
    if outs == [] then 0.0 else SumOut(outs[..|outs| - 1]) + outs[|outs| - 1].value
  }

  ghost predicate SourceHas(src: Transaction, vin: TXInput) {
    0 <= vin.vout < |src.vout|
  }

  /** Value of the outputs that the inputs spend. */
  ghost function SumIn(ins: seq<TXInput>, srcs: seq<Transaction>): real
    requires |srcs| == |ins| && forall i | 0 <= i < |ins| :: SourceHas(srcs[i], ins[i])
  {
    if ins == [] then 0.0 else
      var n := |ins| - 1;
      assert SourceHas(srcs[n], ins[n]);
      SumIn(ins[..n], srcs[..n]) + srcs[n].vout[ins[n].vout].value
  }

  function Abs(x: real): real {
    if x < 0.0 then -x else x
  }

  ghost predicate InputSigned(crypto: Crypto, tx: Transaction, srcs: seq<Transaction>, i: int)
    requires 0 <= i < |tx.vin| == |srcs| && SourceHas(srcs[i], tx.vin[i])
  {
    var owner := srcs[i].vout[tx.vin[i].vout].pubKeyHash;
    owner == crypto.keyHash(tx.vin[i].pubKey) && crypto.sigOk(tx, i, owner)
  }

  ghost predicate CoinbaseOk(tx: Transaction) {
    |tx.vout| == 1 && tx.vout[0].value == PAYMENT_FOR_BLOCK_MADE
  }

  /** Every input spends an existing output with its owner's signature, every output has
      at least the smallest amount, and the totals differ by less than that. */
  ghost predicate TxOk(crypto: Crypto, tx: Transaction, srcs: seq<Transaction>) {
    && |srcs| == |tx.vin|
    && (forall i | 0 <= i < |tx.vin| :: |srcs[i].id| > 0 && SourceHas(srcs[i], tx.vin[i]))
    && (forall i | 0 <= i < |tx.vin| :: InputSigned(crypto, tx, srcs, i))
    && (forall i | 0 <= i < |tx.vout| :: tx.vout[i].value >= SMALLEST_UNIT)
    && Abs(SumIn(tx.vin, srcs) - SumOut(tx.vout)) < SMALLEST_UNIT
  }

  type Sources = map<int, Transaction>

  ghost function SourceList(m: Sources, n: nat): (r: seq<Transaction>)
    requires forall i | 0 <= i < n :: i in m
    ensures |r| == n
  {
    seq(n, i requires 0 <= i < n => m[i])
  }

  /** The first input without a proper source names an output that its transaction does
      not have: the program reads beyond the list of outputs. */
  ghost predicate ReadsBeyond(ins: seq<TXInput>, srcs: seq<Transaction>) {
    exists i :: 0 <= i < |ins| && i < |srcs| && |srcs[i].id| > 0 && !SourceHas(srcs[i], ins[i])
                && forall k | 0 <= k < i :: |srcs[k].id| > 0 && SourceHas(srcs[k], ins[k])
  }

  method TotalInput(tx: Transaction, prevTXs: Sources) returns (v: Verdict, totalinput: real)
    requires forall i | 0 <= i < |tx.vin| :: i in prevTXs
    ensures v.Crashed? <==> ReadsBeyond(tx.vin, SourceList(prevTXs, |tx.vin|))
    ensures var srcs := SourceList(prevTXs, |tx.vin|);
            v.Accepted? <==> forall i | 0 <= i < |tx.vin| :: |srcs[i].id| > 0 && SourceHas(srcs[i], tx.vin[i])
    ensures v.Accepted? ==> totalinput == SumIn(tx.vin, SourceList(prevTXs, |tx.vin|))
  {
    totalinput := 0.0;
    ghost var srcs := SourceList(prevTXs, |tx.vin|);
    for vind := 0 to |tx.vin|
      invariant forall i | 0 <= i < vind :: |srcs[i].id| > 0 && SourceHas(srcs[i], tx.vin[i])
      invariant totalinput == SumIn(tx.vin[..vind], srcs[..vind])
    {
      var vin := tx.vin[vind];
      assert srcs[vind] == prevTXs[vind];
      if |prevTXs[vind].id| == 0 {
        return Rejected, 0.0;
      }
      if !(0 <= vin.vout < |prevTXs[vind].vout|) {
        assert |srcs[vind].id| > 0 && !SourceHas(srcs[vind], tx.vin[vind]);
        return Crashed, 0.0;
      }
      assert tx.vin[..vind + 1][..vind] == tx.vin[..vind] && srcs[..vind + 1][..vind] == srcs[..vind];
      totalinput := totalinput + prevTXs[vind].vout[vin.vout].value;
    }
    assert tx.vin[..|tx.vin|] == tx.vin && srcs[..|tx.vin|] == srcs;
    return Accepted, totalinput;
  }

  /** The first input without a proper source is one that names no output, or one whose source
      has no id. */
  lemma {:induction false} FirstBad(ins: seq<TXInput>, srcs: seq<Transaction>)
    requires |srcs| == |ins|
    ensures ReadsBeyond(ins, srcs) ==> exists i :: 0 <= i < |ins| && !SourceHas(srcs[i], ins[i])
    ensures !ReadsBeyond(ins, srcs) && (exists i :: 0 <= i < |ins| && !SourceHas(srcs[i], ins[i])) ==>
              exists i :: 0 <= i < |ins| && |srcs[i].id| == 0
  {
    if (forall i | 0 <= i < |ins| :: |srcs[i].id| > 0) && exists i :: 0 <= i < |ins| && !SourceHas(srcs[i], ins[i]) {
      var i :| 0 <= i < |ins| && !SourceHas(srcs[i], ins[i]);
      var j := FirstMissing(ins, srcs, i);
      assert |srcs[j].id| > 0 && !SourceHas(srcs[j], ins[j]);
    }
  }

  lemma {:induction false} FirstMissing(ins: seq<TXInput>, srcs: seq<Transaction>, i: nat) returns (j: nat)
    requires |srcs| == |ins| && i < |ins| && !SourceHas(srcs[i], ins[i])
    ensures j <= i && !SourceHas(srcs[j], ins[j]) && forall k | 0 <= k < j :: SourceHas(srcs[k], ins[k])
  {
    if k :| 0 <= k < i && !SourceHas(srcs[k], ins[k]) {
      j := FirstMissing(ins, srcs, k);
    } else {
      j := i;
    }
  }

  /** The loop over the inputs: each key must belong to the owner of the output it spends, and
      each signature must verify for that owner. */
  method InputsSigned(crypto: Crypto, tx: Transaction, prevTXs: Sources) returns (ok: bool)
    requires forall i | 0 <= i < |tx.vin| :: i in prevTXs
    requires forall i | 0 <= i < |tx.vin| :: SourceHas(prevTXs[i], tx.vin[i])
    ensures ok <==> forall i | 0 <= i < |tx.vin| :: InputSigned(crypto, tx, SourceList(prevTXs, |tx.vin|), i)
    ensures ok ==> forall i | 0 <= i < |tx.vin| :: crypto.sigOk(tx, i, crypto.keyHash(tx.vin[i].pubKey))
  {
    ghost var srcs := SourceList(prevTXs, |tx.vin|);
    for inID := 0 to |tx.vin|
      invariant forall i | 0 <= i < inID :: InputSigned(crypto, tx, srcs, i)
      invariant forall i | 0 <= i < inID :: crypto.sigOk(tx, i, crypto.keyHash(tx.vin[i].pubKey))
    {
      var vin := tx.vin[inID];
      var owner := prevTXs[inID].vout[vin.vout].pubKeyHash;
      if owner != crypto.keyHash(vin.pubKey) {
        assert !InputSigned(crypto, tx, srcs, inID);
        return false;
      }
      if !crypto.sigOk(tx, inID, owner) {
        assert !InputSigned(crypto, tx, srcs, inID);
        return false;
      }
    }
    ok := true;
  }

  method TotalOutput(outs: seq<TXOutput>) returns (ok: bool, totaloutput: real)
    ensures ok <==> forall i | 0 <= i < |outs| :: outs[i].value >= SMALLEST_UNIT
    ensures ok ==> totaloutput == SumOut(outs)
  {
    totaloutput := 0.0;
    for i := 0 to |outs|
      invariant forall j | 0 <= j < i :: outs[j].value >= SMALLEST_UNIT
      invariant totaloutput == SumOut(outs[..i])
    {
      if outs[i].value < SMALLEST_UNIT {
        return false, 0.0;
      }
      assert outs[..i + 1][..i] == outs[..i];
      totaloutput := totaloutput + outs[i].value;
    }
    assert outs[..|outs|] == outs;
    ok := true;
  }

  method VerifyTx(crypto: Crypto, tx: Transaction, prevTXs: Sources) returns (v: Verdict)
    requires !tx.IsCoinbase() ==> forall i | 0 <= i < |tx.vin| :: i in prevTXs
    ensures tx.IsCoinbase() ==> (v.Accepted? <==> CoinbaseOk(tx)) && (v.Crashed? <==> tx.vout == [])
    ensures !tx.IsCoinbase() ==> (v.Accepted? <==> TxOk(crypto, tx, SourceList(prevTXs, |tx.vin|)))
    ensures !tx.IsCoinbase() ==> (v.Crashed? <==> ReadsBeyond(tx.vin, SourceList(prevTXs, |tx.vin|)))
    ensures !tx.IsCoinbase() && v.Accepted? ==>
              forall i | 0 <= i < |tx.vin| :: crypto.sigOk(tx, i, crypto.keyHash(tx.vin[i].pubKey))
    ensures !tx.IsCoinbase() && v.Crashed? ==>
              exists i :: 0 <= i < |tx.vin| && !(0 <= tx.vin[i].vout < |prevTXs[i].vout|)
    ensures !tx.IsCoinbase() && v.Rejected? ==>
              (forall i | 0 <= i < |tx.vin| :: 0 <= tx.vin[i].vout < |prevTXs[i].vout|)
              || exists i :: 0 <= i < |tx.vin| && |prevTXs[i].id| == 0
  {
    if tx.IsCoinbase() {
      if |tx.vout| == 0 {
        return Crashed;
      }
      if tx.vout[0].value != PAYMENT_FOR_BLOCK_MADE {
        return Rejected;
      }
      if |tx.vout| > 1 {
        return Rejected;
      }
      return Accepted;
    }
    ghost var srcs := SourceList(prevTXs, |tx.vin|);
    var totalinput;
    v, totalinput := TotalInput(tx, prevTXs);
    assert forall i | 0 <= i < |tx.vin| :: srcs[i] == prevTXs[i];
    if !v.Accepted? {
      FirstBad(tx.vin, srcs);
      return v;
    }
    var signed := InputsSigned(crypto, tx, prevTXs);
    if !signed {
      return Rejected;
    }
    var ok, totaloutput := TotalOutput(tx.vout);
    if !ok || Abs(totalinput - totaloutput) >= SMALLEST_UNIT {
      return Rejected;
    }
    return Accepted;
  }

  // ----- one transaction against the chain and the transactions before it

  /** The chain says that this output is spent: it is, or a stray record makes it look so. */
  ghost predicate LooksSpent(s: Store, g: Hash, m: Hash, sp: SpendLists, tip: Hash, vin: TXInput)
    requires WellFormed(s, g) && m in s && tip in s
  {
    var es := PathEntries(s, g, tip);
    && vin.txid in Ids(es)
    && vin.vout in SpentIn(es, vin.txid) + Strays(s, g, m, sp, tip, vin.txid)
  }

  ghost predicate NoneLooksSpent(s: Store, g: Hash, m: Hash, sp: SpendLists, tip: Hash, ins: seq<TXInput>, n: nat)
    requires WellFormed(s, g) && m in s && tip in s && n <= |ins|
  {
    forall i {:trigger LooksSpent(s, g, m, sp, tip, ins[i])} | 0 <= i < n :: !LooksSpent(s, g, m, sp, tip, ins[i])
  }

  lemma NoneStep(s: Store, g: Hash, m: Hash, sp: SpendLists, tip: Hash, ins: seq<TXInput>, n: nat)
    requires WellFormed(s, g) && m in s && tip in s && n < |ins|
    ensures NoneLooksSpent(s, g, m, sp, tip, ins, n + 1) <==>
            NoneLooksSpent(s, g, m, sp, tip, ins, n) && !LooksSpent(s, g, m, sp, tip, ins[n])
    ensures NoneLooksSpent(s, g, m, sp, tip, ins, |ins|) ==> NoneLooksSpent(s, g, m, sp, tip, ins, n + 1)
  {
    if NoneLooksSpent(s, g, m, sp, tip, ins, |ins|) {
      forall i | 0 <= i < n + 1
        ensures !LooksSpent(s, g, m, sp, tip, ins[i])
      {
      }
    }
  }

  /** Input i is found on the chain, or is among the missing ones. */
  ghost predicate SourceAt(es: seq<Entry>, vin: TXInput, found: Sources, missing: map<int, TXInput>, i: int) {
    if vin.txid in Ids(es) then i in found && i !in missing && Some(found[i]) == TxAt(es, vin.txid)
    else i !in found && i in missing && missing[i] == vin
  }

  /** The transactions an input list finds on the chain, and the inputs it does not find. */
  ghost predicate ChainSources(es: seq<Entry>, ins: seq<TXInput>, n: nat, found: Sources, missing: map<int, TXInput>)
    requires n <= |ins|
  {
    && (forall i | i in found || i in missing :: 0 <= i < n)
    && (forall i | 0 <= i < n :: SourceAt(es, ins[i], found, missing, i))
  }

  ghost function TxAt(es: seq<Entry>, t: Bytes): Option<Transaction> {
    match EntryAt(es, t)
    case Some(e) => Some(e.tx)
    case None => None
  }

  /** One input of getInputTransactionsState. */
  method InputState(db: Database, ghost g: Hash, ghost m: Hash, vin: TXInput, tip: Hash)
    returns (prevTX: Option<Transaction>, err: bool)
    requires Queryable(db, g, m, Tip(db, tip)) && KnownTip(db, m, tip)
    ensures err <==> LooksSpent(db.blocks, g, m, db.spends, Tip(db, tip), vin)
    ensures !err ==> prevTX == TxAt(PathEntries(db.blocks, g, Tip(db, tip)), vin.txid)
  {
    ghost var s, top := db.blocks, Tip(db, tip);
    var tx, spentouts, blockHash, e := GetTransactionAllInfo(db, g, m, vin.txid, tip);
    HasEntry(PathEntries(s, g, top), vin.txid);
    if tx.None? {
      return None, false;
    }
    HomeOnPath(s, g, top, blockHash, vin.txid);
    assert blockHash == Home(s, g, top, vin.txid);
    var spent := IsSpent(spentouts, vin.vout);
    if spent {
      return None, true;
    }
    return tx, false;
  }

  lemma SourcesStep(es: seq<Entry>, ins: seq<TXInput>, n: nat, found: Sources, missing: map<int, TXInput>,
                    src: Option<Transaction>)
    requires n < |ins| && ChainSources(es, ins, n, found, missing) && src == TxAt(es, ins[n].txid)
    ensures src.Some? ==> ChainSources(es, ins, n + 1, found[n := src.value], missing)
    ensures src.None? ==> ChainSources(es, ins, n + 1, found, missing[n := ins[n]])
  {
    HasEntry(es, ins[n].txid);
    assert forall i | 0 <= i < n :: SourceAt(es, ins[i], found, missing, i);
  }

  /** getInputTransactionsState for a transaction that is no coinbase. */
  method InputsState(db: Database, ghost g: Hash, ghost m: Hash, tx: Transaction, tip: Hash)
    returns (prevTXs: Sources, badinputs: map<int, TXInput>, err: bool)
    requires Queryable(db, g, m, Tip(db, tip)) && KnownTip(db, m, tip)
    ensures err <==> !NoneLooksSpent(db.blocks, g, m, db.spends, Tip(db, tip), tx.vin, |tx.vin|)
    ensures !err ==> ChainSources(PathEntries(db.blocks, g, Tip(db, tip)), tx.vin, |tx.vin|, prevTXs, badinputs)
  {
    ghost var s, sp, top := db.blocks, db.spends, Tip(db, tip);
    ghost var es := PathEntries(s, g, top);
    prevTXs, badinputs := map[], map[];
    for vind := 0 to |tx.vin|
      invariant NoneLooksSpent(s, g, m, sp, top, tx.vin, vind)
      invariant ChainSources(es, tx.vin, vind, prevTXs, badinputs)
    {
      var vin := tx.vin[vind];
      var prevTX, e := InputState(db, g, m, vin, tip);
      NoneStep(s, g, m, sp, top, tx.vin, vind);
      if e {
        return prevTXs, badinputs, true;
      }
      SourcesStep(es, tx.vin, vind, prevTXs, badinputs, prevTX);
      if prevTX.None? {
        badinputs := badinputs[vind := vin];
      } else {
        prevTXs := prevTXs[vind := prevTX.value];
      }
      assert ChainSources(es, tx.vin, vind + 1, prevTXs, badinputs);
    }
    return prevTXs, badinputs, false;
  }

  method FindBefore(prevTXs: seq<Transaction>, t: Bytes) returns (tx: Option<Transaction>)
    ensures tx == FirstWithId(prevTXs, t)
  {
    assert prevTXs[0..] == prevTXs;
    for i := 0 to |prevTXs|
      invariant FirstWithId(prevTXs, t) == FirstWithId(prevTXs[i..], t)
    {
      if prevTXs[i].id == t {
        return Some(prevTXs[i]);
      }
    }
    return None;
  }

  ghost predicate RepeatsPlace(inputs: map<int, TXInput>) {
    exists i, j :: i in inputs && j in inputs && i != j && PlaceOf(inputs[i]) == PlaceOf(inputs[j])
  }

  /** CheckInputsWereBefore: the inputs not found on the chain must come from listed
      transactions, and from different places.  The source goes over a map in no fixed
      order; the loop takes ascending keys, and the contract does not depend on that. */
  method CheckInputsWereBefore(inputs: map<int, TXInput>, n: nat, prevTXs: seq<Transaction>, inputTXs: Sources)
    returns (r: Sources, err: bool)
    requires forall i | i in inputs :: 0 <= i < n && i !in inputTXs
    ensures err <==> RepeatsPlace(inputs) || exists i :: i in inputs && FirstWithId(prevTXs, inputs[i].txid).None?
    ensures !err ==> forall i :: i in r <==> i in inputTXs || i in inputs
    ensures !err ==> forall i | i in inputTXs :: r[i] == inputTXs[i]
    ensures !err ==> forall i | i in inputs :: Some(r[i]) == FirstWithId(prevTXs, inputs[i].txid)
  {
    var checked: set<Place> := {};
    r := inputTXs;
    for vind := 0 to n
      invariant checked == set i | i in inputs && i < vind :: PlaceOf(inputs[i])
      invariant forall i, j | i in inputs && j in inputs && i < j < vind :: PlaceOf(inputs[i]) != PlaceOf(inputs[j])
      invariant forall i :: i in r <==> i in inputTXs || (i in inputs && i < vind)
      invariant forall i | i in inputTXs :: r[i] == inputTXs[i]
      invariant forall i | i in inputs && i < vind :: Some(r[i]) == FirstWithId(prevTXs, inputs[i].txid)
    {
      if vind !in inputs {
        continue;
      }
      var vin := inputs[vind];
      if PlaceOf(vin) in checked {
        return r, true;
      }
      var tx := FindBefore(prevTXs, vin.txid);
      if tx.None? {
        return r, true;
      }
      r := r[vind := tx.value];
      checked := checked + {PlaceOf(vin)};
    }
    return r, false;
  }

  /** Where an input's transaction comes from: the chain, or else the transactions before. */
  ghost function SourceOf(es: seq<Entry>, prevtxs: seq<Transaction>, t: Bytes): Option<Transaction> {
    if TxAt(es, t).Some? then TxAt(es, t) else FirstWithId(prevtxs, t)
  }

  ghost predicate HasSources(es: seq<Entry>, prevtxs: seq<Transaction>, ins: seq<TXInput>) {
    forall i | 0 <= i < |ins| :: SourceOf(es, prevtxs, ins[i].txid).Some?
  }

  ghost function SourcesOf(es: seq<Entry>, prevtxs: seq<Transaction>, ins: seq<TXInput>): (r: seq<Transaction>)
    requires HasSources(es, prevtxs, ins)
    ensures |r| == |ins|
  {
    seq(|ins|, i requires 0 <= i < |ins| => SourceOf(es, prevtxs, ins[i].txid).value)
  }

  /** Among the inputs not found on the chain no place occurs twice. */
  ghost predicate MissingDistinct(es: seq<Entry>, ins: seq<TXInput>) {
    forall i, j | 0 <= i < j < |ins| && ins[i].txid !in Ids(es) && ins[j].txid !in Ids(es) ::
      PlaceOf(ins[i]) != PlaceOf(ins[j])
  }

  /** What VerifyTransaction accepts, under the branch of `tip` and after `prevtxs`. */
  ghost predicate TxAccepted(crypto: Crypto, s: Store, g: Hash, m: Hash, sp: SpendLists, tip: Hash,
                             prevtxs: seq<Transaction>, tx: Transaction)
    requires WellFormed(s, g) && m in s && tip in s
  {
    if tx.IsCoinbase() then CoinbaseOk(tx)
    else
      var es := PathEntries(s, g, tip);
      && NoneLooksSpent(s, g, m, sp, tip, tx.vin, |tx.vin|)
      && HasSources(es, prevtxs, tx.vin) && MissingDistinct(es, tx.vin)
      && TxOk(crypto, tx, SourcesOf(es, prevtxs, tx.vin))
  }

  /** When verifying a transaction ends in a read beyond a list. */
  ghost predicate TxCrashes(s: Store, g: Hash, m: Hash, sp: SpendLists, tip: Hash,
                            prevtxs: seq<Transaction>, tx: Transaction)
    requires WellFormed(s, g) && m in s && tip in s
  {
    if tx.IsCoinbase() then tx.vout == []
    else
      var es := PathEntries(s, g, tip);
      && NoneLooksSpent(s, g, m, sp, tip, tx.vin, |tx.vin|)
      && HasSources(es, prevtxs, tx.vin) && MissingDistinct(es, tx.vin)
      && ReadsBeyond(tx.vin, SourcesOf(es, prevtxs, tx.vin))
  }

  /** The two lookups together find the sources, and fail exactly when one is missing
      or a place not on the chain occurs twice. */
  lemma LookupFinds(es: seq<Entry>, prevtxs: seq<Transaction>, ins: seq<TXInput>,
                    found: Sources, missing: map<int, TXInput>)
    requires ChainSources(es, ins, |ins|, found, missing)
    ensures forall i | i in missing :: 0 <= i < |ins| && i !in found
    ensures RepeatsPlace(missing) <==> !MissingDistinct(es, ins)
    ensures (exists i :: i in missing && FirstWithId(prevtxs, missing[i].txid).None?)
            <==> !HasSources(es, prevtxs, ins)
  {
    forall i | 0 <= i < |ins|
      ensures SourceAt(es, ins[i], found, missing, i)
      ensures i in missing <==> ins[i].txid !in Ids(es)
      ensures i in missing ==> missing[i] == ins[i]
      ensures ins[i].txid in Ids(es) <==> TxAt(es, ins[i].txid).Some?
    {
      HasEntry(es, ins[i].txid);
    }
    if !MissingDistinct(es, ins) {
      var i, j :| 0 <= i < j < |ins| && ins[i].txid !in Ids(es) && ins[j].txid !in Ids(es)
                  && PlaceOf(ins[i]) == PlaceOf(ins[j]);
      assert i in missing && j in missing;
    }
    if !HasSources(es, prevtxs, ins) {
      var i :| 0 <= i < |ins| && SourceOf(es, prevtxs, ins[i].txid).None?;
      assert i in missing;
    }
  }

  lemma SourceListIs(es: seq<Entry>, prevtxs: seq<Transaction>, ins: seq<TXInput>,
                     found: Sources, missing: map<int, TXInput>, r: Sources)
    requires ChainSources(es, ins, |ins|, found, missing) && HasSources(es, prevtxs, ins)
    requires forall i :: i in r <==> i in found || i in missing
    requires forall i | i in found :: r[i] == found[i]
    requires forall i | i in missing :: Some(r[i]) == FirstWithId(prevtxs, missing[i].txid)
    ensures forall i | 0 <= i < |ins| :: i in r
    ensures SourceList(r, |ins|) == SourcesOf(es, prevtxs, ins)
  {
    forall i | 0 <= i < |ins|
      ensures i in r && r[i] == SourceOf(es, prevtxs, ins[i].txid).value
    {
      assert SourceAt(es, ins[i], found, missing, i);
      HasEntry(es, ins[i].txid);
    }
  }

  method VerifyTransaction(db: Database, ghost g: Hash, ghost m: Hash, crypto: Crypto, tx: Transaction,
                           prevtxs: seq<Transaction>, tip: Hash)
    returns (v: Verdict)
    requires Queryable(db, g, m, Tip(db, tip)) && KnownTip(db, m, tip)
    ensures v.Accepted? <==> TxAccepted(crypto, db.blocks, g, m, db.spends, Tip(db, tip), prevtxs, tx)
    ensures v.Crashed? <==> TxCrashes(db.blocks, g, m, db.spends, Tip(db, tip), prevtxs, tx)
  {
    if tx.IsCoinbase() {
      v := VerifyTx(crypto, tx, map[]);
      return;
    }
    ghost var es := PathEntries(db.blocks, g, Tip(db, tip));
    var inputTXs, notFoundInputs, e := InputsState(db, g, m, tx, tip);
    if e {
      return Rejected;
    }
    LookupFinds(es, prevtxs, tx.vin, inputTXs, notFoundInputs);
    var all := inputTXs;
    if |notFoundInputs| > 0 {
      all, e := CheckInputsWereBefore(notFoundInputs, |tx.vin|, prevtxs, inputTXs);
      if e {
        return Rejected;
      }
    }
    SourceListIs(es, prevtxs, tx.vin, inputTXs, notFoundInputs, all);
    v := VerifyTx(crypto, tx, all);
  }

  // ----- blocks

  const MAX_MIN_TRANSACTIONS := 1000
  const MAX_TRANSACTIONS := 10000

  function Pow2(n: nat): nat {
    if n == 0 then 1 else 2 * Pow2(n - 1)
  }

  /** NewProofOfWork: from height 1000 on 24 leading bits must be zero, before that 16. */
  function Target(height: int): nat {
    Pow2(256 - (if height >= 1000 then 24 else 16))
  }

  lemma {:induction false} PowersMultiply(a: nat, b: nat)
    ensures Pow2(a + b) == Pow2(a) * Pow2(b)
  {
    if b > 0 {
      PowersMultiply(a, b - 1);
    }
  }

  lemma {:induction false} PowerOf(a: nat, b: nat, x: nat, y: nat)
    requires Pow2(a) == x && Pow2(b) == y
    ensures Pow2(a + b) == x * y
  {
    PowersMultiply(a, b);
  }

  /** The targets as numbers. */
  lemma {:induction false} TargetIs(height: int)
    ensures Target(height) == if height >= 1000 then 0x10000000000000000000000000000000000000000000000000000000000
                              else 0x1000000000000000000000000000000000000000000000000000000000000
  {
    assert Pow2(8) == 0x100;
    PowerOf(8, 8, 0x100, 0x100);
    PowerOf(16, 16, 0x1_0000, 0x1_0000);
    PowerOf(32, 32, 0x1_0000_0000, 0x1_0000_0000);
    PowerOf(64, 64, 0x10000000000000000, 0x10000000000000000);
    PowerOf(128, 64, 0x100000000000000000000000000000000, 0x10000000000000000);
    PowerOf(192, 32, 0x1000000000000000000000000000000000000000000000000, 0x1_0000_0000);
    PowerOf(224, 8, 0x100000000000000000000000000000000000000000000000000000000, 0x100);
    PowerOf(224, 16, 0x100000000000000000000000000000000000000000000000000000000, 0x1_0000);
  }

  predicate PowOk(crypto: Crypto, block: Block) {
    crypto.powHash(block.prevBlockHash, block.transactions, block.timestamp, block.nonce) < Target(block.height)
  }

  /** getTransactionNumbersLimits, for a block or for the height the next block will have. */
  function MinTransactions(height: int): (r: int)
    ensures 1 <= r <= MAX_MIN_TRANSACTIONS
  {
    if height > MAX_MIN_TRANSACTIONS then MAX_MIN_TRANSACTIONS else if height < 1 then 1 else height
  }

  ghost function CoinbaseCount(txs: seq<Transaction>): nat {
    if txs == [] then 0 else
      CoinbaseCount(txs[..|txs| - 1]) + (if txs[|txs| - 1].IsCoinbase() then 1 else 0)
  }

  ghost predicate TxsAccepted(crypto: Crypto, s: Store, g: Hash, m: Hash, sp: SpendLists, tip: Hash,
                              txs: seq<Transaction>, n: nat)
    requires WellFormed(s, g) && m in s && tip in s && n <= |txs|
  {
    forall i {:trigger TxAccepted(crypto, s, g, m, sp, tip, txs[..i], txs[i])} | 0 <= i < n ::
      TxAccepted(crypto, s, g, m, sp, tip, txs[..i], txs[i])
  }

  lemma TxsStep(crypto: Crypto, s: Store, g: Hash, m: Hash, sp: SpendLists, tip: Hash,
                txs: seq<Transaction>, n: nat)
    requires WellFormed(s, g) && m in s && tip in s && n < |txs|
    ensures TxsAccepted(crypto, s, g, m, sp, tip, txs, n + 1) <==>
            TxsAccepted(crypto, s, g, m, sp, tip, txs, n) && TxAccepted(crypto, s, g, m, sp, tip, txs[..n], txs[n])
    ensures TxsAccepted(crypto, s, g, m, sp, tip, txs, |txs|) ==> TxsAccepted(crypto, s, g, m, sp, tip, txs, n + 1)
  {
    if TxsAccepted(crypto, s, g, m, sp, tip, txs, |txs|) {
      forall i | 0 <= i < n + 1
        ensures TxAccepted(crypto, s, g, m, sp, tip, txs[..i], txs[i])
      {
      }
    }
  }

  /** What VerifyBlock accepts. */
  ghost predicate BlockAccepted(crypto: Crypto, s: Store, g: Hash, m: Hash, sp: SpendLists, block: Block)
    requires WellFormed(s, g) && m in s && block.prevBlockHash in s
  {
    && PowOk(crypto, block)
    && MinTransactions(block.height) <= |block.transactions| - 1 <= MAX_TRANSACTIONS
    && CoinbaseCount(block.transactions) == 1
    && TxsAccepted(crypto, s, g, m, sp, block.prevBlockHash, block.transactions, |block.transactions|)
  }

  /** When checking a block ends in a read beyond a list: at the first transaction that does
      not pass, unless that is a second coinbase. */
  ghost predicate BlockCrashes(crypto: Crypto, s: Store, g: Hash, m: Hash, sp: SpendLists, block: Block)
    requires WellFormed(s, g) && m in s && block.prevBlockHash in s
  {
    && PowOk(crypto, block)
    && MinTransactions(block.height) <= |block.transactions| - 1 <= MAX_TRANSACTIONS
    && LoopCrashes(crypto, s, g, m, sp, block)
  }

  ghost predicate LoopCrashes(crypto: Crypto, s: Store, g: Hash, m: Hash, sp: SpendLists, block: Block)
    requires WellFormed(s, g) && m in s && block.prevBlockHash in s
  {
    exists i {:trigger CrashAt(crypto, s, g, m, sp, block, i)} | 0 <= i < |block.transactions| ::
      CrashAt(crypto, s, g, m, sp, block, i)
  }

  ghost predicate CrashAt(crypto: Crypto, s: Store, g: Hash, m: Hash, sp: SpendLists, block: Block, i: nat)
    requires WellFormed(s, g) && m in s && block.prevBlockHash in s && i < |block.transactions|
  {
    var txs := block.transactions;
    && CoinbaseCount(txs[..i + 1]) <= 1
    && TxsAccepted(crypto, s, g, m, sp, block.prevBlockHash, txs, i)
    && TxCrashes(s, g, m, sp, block.prevBlockHash, txs[..i], txs[i])
  }

  /** A transaction that passes does not crash, and a crash comes only once. */
  lemma NoCrashBefore(crypto: Crypto, s: Store, g: Hash, m: Hash, sp: SpendLists, block: Block, n: nat)
    requires WellFormed(s, g) && m in s && block.prevBlockHash in s && n < |block.transactions|
    requires TxsAccepted(crypto, s, g, m, sp, block.prevBlockHash, block.transactions, n)
    ensures forall i | 0 <= i < n :: !CrashAt(crypto, s, g, m, sp, block, i)
    ensures !TxAccepted(crypto, s, g, m, sp, block.prevBlockHash, block.transactions[..n], block.transactions[n]) ==>
              forall i | n < i < |block.transactions| :: !CrashAt(crypto, s, g, m, sp, block, i)
  {
    var txs, tip := block.transactions, block.prevBlockHash;
    forall i | 0 <= i < n
      ensures !CrashAt(crypto, s, g, m, sp, block, i)
    {
      assert TxAccepted(crypto, s, g, m, sp, tip, txs[..i], txs[i]);
      AcceptedNoCrash(crypto, s, g, m, sp, tip, txs[..i], txs[i]);
    }
  }

  lemma AcceptedNoCrash(crypto: Crypto, s: Store, g: Hash, m: Hash, sp: SpendLists, tip: Hash,
                        prevtxs: seq<Transaction>, tx: Transaction)
    requires WellFormed(s, g) && m in s && tip in s
    requires TxAccepted(crypto, s, g, m, sp, tip, prevtxs, tx)
    ensures !TxCrashes(s, g, m, sp, tip, prevtxs, tx)
  {
  }

  lemma {:induction false} CountGrows(txs: seq<Transaction>, i: nat)
    requires i <= |txs|
    ensures CoinbaseCount(txs[..i]) <= CoinbaseCount(txs)
    decreases |txs| - i
  {
    if i == |txs| {
      assert txs[..i] == txs;
    } else {
      CountGrows(txs, i + 1);
      assert txs[..i + 1][..i] == txs[..i];
    }
  }

  lemma CountStep(txs: seq<Transaction>, i: nat)
    requires i < |txs|
    ensures CoinbaseCount(txs[..i + 1]) == CoinbaseCount(txs[..i]) + (if txs[i].IsCoinbase() then 1 else 0)
    ensures CoinbaseCount(txs[..i + 1]) <= CoinbaseCount(txs)
  {
    assert txs[..i + 1][..i] == txs[..i];
    CountGrows(txs, i + 1);
  }

  /** Nothing is read any more once a second coinbase was met. */
  lemma NoCrashAfter(crypto: Crypto, s: Store, g: Hash, m: Hash, sp: SpendLists, block: Block, n: nat)
    requires WellFormed(s, g) && m in s && block.prevBlockHash in s && n < |block.transactions|
    requires CoinbaseCount(block.transactions[..n + 1]) > 1
    ensures forall i | n <= i < |block.transactions| :: !CrashAt(crypto, s, g, m, sp, block, i)
  {
    var txs := block.transactions;
    forall i | n <= i < |txs|
      ensures !CrashAt(crypto, s, g, m, sp, block, i)
    {
      assert txs[..i + 1][..n + 1] == txs[..n + 1];
      CountGrows(txs[..i + 1], n + 1);
    }
  }

  /** Where the loop over the transactions ends, and how. */
  lemma LoopEnds(crypto: Crypto, s: Store, g: Hash, m: Hash, sp: SpendLists, block: Block, n: nat)
    requires WellFormed(s, g) && m in s && block.prevBlockHash in s && n < |block.transactions|
    requires TxsAccepted(crypto, s, g, m, sp, block.prevBlockHash, block.transactions, n)
    requires CoinbaseCount(block.transactions[..n + 1]) > 1
             || !TxAccepted(crypto, s, g, m, sp, block.prevBlockHash, block.transactions[..n], block.transactions[n])
    ensures LoopCrashes(crypto, s, g, m, sp, block) <==> CrashAt(crypto, s, g, m, sp, block, n)
  {
    NoCrashBefore(crypto, s, g, m, sp, block, n);
    if CoinbaseCount(block.transactions[..n + 1]) > 1 {
      NoCrashAfter(crypto, s, g, m, sp, block, n);
    }
  }

  lemma LoopPasses(crypto: Crypto, s: Store, g: Hash, m: Hash, sp: SpendLists, block: Block)
    requires WellFormed(s, g) && m in s && block.prevBlockHash in s
    requires TxsAccepted(crypto, s, g, m, sp, block.prevBlockHash, block.transactions, |block.transactions|)
    ensures !LoopCrashes(crypto, s, g, m, sp, block)
  {
    forall i | 0 <= i < |block.transactions|
      ensures !CrashAt(crypto, s, g, m, sp, block, i)
    {
      assert TxAccepted(crypto, s, g, m, sp, block.prevBlockHash, block.transactions[..i], block.transactions[i]);
      AcceptedNoCrash(crypto, s, g, m, sp, block.prevBlockHash, block.transactions[..i], block.transactions[i]);
    }
  }

  /** The loop of VerifyBlock over the transactions. */
  method VerifyTransactions(db: Database, ghost g: Hash, ghost m: Hash, crypto: Crypto, block: Block)
    returns (v: Verdict, coinbaseused: bool)
    requires Queryable(db, g, m, block.prevBlockHash)
    ensures v.Accepted? ==> CoinbaseCount(block.transactions) == if coinbaseused then 1 else 0
    ensures v.Accepted? <==>
              && CoinbaseCount(block.transactions) <= 1
              && TxsAccepted(crypto, db.blocks, g, m, db.spends, block.prevBlockHash,
                             block.transactions, |block.transactions|)
    ensures v.Crashed? <==> LoopCrashes(crypto, db.blocks, g, m, db.spends, block)
  {
    ghost var s, sp, txs, tip := db.blocks, db.spends, block.transactions, block.prevBlockHash;
    assert NodeOk(s, g, tip);
    coinbaseused := false;
    for i := 0 to |block.transactions|
      invariant CoinbaseCount(txs[..i]) == if coinbaseused then 1 else 0
      invariant TxsAccepted(crypto, s, g, m, sp, tip, txs, i)
    {
      var tx := block.transactions[i];
      CountStep(txs, i);
      TxsStep(crypto, s, g, m, sp, tip, txs, i);
      if tx.IsCoinbase() {
        if coinbaseused {
          LoopEnds(crypto, s, g, m, sp, block, i);
          return Rejected, true;
        }
        coinbaseused := true;
      }
      var vtx := VerifyTransaction(db, g, m, crypto, tx, block.transactions[..i], block.prevBlockHash);
      if !vtx.Accepted? {
        LoopEnds(crypto, s, g, m, sp, block, i);
        return vtx, coinbaseused;
      }
    }
    LoopPasses(crypto, s, g, m, sp, block);
    assert txs[..|txs|] == txs;
    return Accepted, coinbaseused;
  }

  method VerifyBlock(db: Database, ghost g: Hash, ghost m: Hash, crypto: Crypto, block: Block) returns (v: Verdict)
    requires Queryable(db, g, m, block.prevBlockHash)
    ensures v.Accepted? <==> BlockAccepted(crypto, db.blocks, g, m, db.spends, block)
    ensures v.Crashed? <==> BlockCrashes(crypto, db.blocks, g, m, db.spends, block)
  {
    if !PowOk(crypto, block) {
      return Rejected;
    }
    var txnum := |block.transactions| - 1;
    if txnum < MinTransactions(block.height) {
      return Rejected;
    }
    if txnum > MAX_TRANSACTIONS {
      return Rejected;
    }
    var coinbaseused;
    v, coinbaseused := VerifyTransactions(db, g, m, crypto, block);
    if !v.Accepted? {
      return v;
    }
    if !coinbaseused {
      return Rejected;
    }
    return Accepted;
  }
}
