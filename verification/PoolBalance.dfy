/** The pending balance is what the whole pool adds to the approved one. */
module PoolBalance {
  import opened Structures
  import opened Storage
  import opened Ledger
  import opened Pending
  import opened Supply
  import opened History
  import opened PendingBalance

  // ----- the pool as a continuation of the chain

  /** The entries `pe` list the pool in an order in which it could be put into blocks after
      the chain `es`: every input spends a different existing output, with the key of its owner. */
  ghost predicate PoolFits(pool: Pool, es: seq<Entry>, pe: seq<Entry>, keyHash: KeyHash) {
    && KeyedById(pool)
    && Sound(es + pe) && NoDoubleSpend(es + pe)
    && (forall t :: t in pool <==> t in Ids(pe))
    && (forall i {:trigger EntryFits(pool, es + pe, pe[i].tx, keyHash)} | 0 <= i < |pe| ::
          EntryFits(pool, es + pe, pe[i].tx, keyHash))
  }

  ghost predicate EntryFits(pool: Pool, all: seq<Entry>, tx: Transaction, keyHash: KeyHash) {
    && tx.id in pool && pool[tx.id] == tx
    && forall k {:trigger OwnedByKey(all, tx.Spends()[k], keyHash)} | 0 <= k < |tx.Spends()| ::
         OwnedByKey(all, tx.Spends()[k], keyHash)
  }

  /** Where a pooled transaction stands. */
  lemma Standing(pool: Pool, es: seq<Entry>, pe: seq<Entry>, keyHash: KeyHash, t: Bytes) returns (i: nat)
    requires PoolFits(pool, es, pe, keyHash) && t in pool
    ensures i < |pe| && pe[i].tx.id == t && pe[i].tx == pool[t]
  {
    IdsIn(pe, t);
    i :| 0 <= i < |pe| && pe[i].tx.id == t;
    assert EntryFits(pool, es + pe, pe[i].tx, keyHash);
  }

  ghost function IdSeq(pe: seq<Entry>): (r: seq<Bytes>)
    ensures |r| == |pe| && forall i | 0 <= i < |pe| :: r[i] == pe[i].tx.id
  {
    seq(|pe|, i requires 0 <= i < |pe| => pe[i].tx.id)
  }

  lemma IdHere(es: seq<Entry>, i: nat)
    requires i < |es|
    ensures es[i].tx.id in Ids(es)
  {
    IdsIn(es, es[i].tx.id);
  }

  lemma {:induction false} SoundDistinct(a: seq<Entry>, b: seq<Entry>)
    requires Ordered(a + b)
    ensures DistinctIds(b)
  {
    if b != [] {
      var b', e := b[..|b| - 1], b[|b| - 1];
      assert (a + b)[..|a + b| - 1] == a + b';
      SoundDistinct(a, b');
      IdsAppend(a, b');
      forall i | 0 <= i < |b'|
        ensures b[i].tx.id != e.tx.id
      {
        IdHere(b', i);
      }
    }
  }

  lemma IdSeqEnumerates(pool: Pool, es: seq<Entry>, pe: seq<Entry>, keyHash: KeyHash)
    requires PoolFits(pool, es, pe, keyHash)
    ensures Enumerates(IdSeq(pe), pool)
  {
    SoundDistinct(es, pe);
    forall t
      ensures t in IdSeq(pe) <==> t in pool
    {
      if t in IdSeq(pe) {
        var i :| 0 <= i < |pe| && IdSeq(pe)[i] == t;
        assert EntryFits(pool, es + pe, pe[i].tx, keyHash);
      }
      if t in pool {
        var i := Standing(pool, es, pe, keyHash, t);
        assert IdSeq(pe)[i] == t;
      }
    }
  }

  lemma {:induction false} EntryPlaces(es: seq<Entry>, j: nat)
    requires j < |es|
    ensures Places(es[j].tx.Spends()) <= Places(AllInputs(es))
    ensures DistinctPlaces(AllInputs(es)) ==> DistinctPlaces(es[j].tx.Spends())
  {
    var n := |es| - 1;
    PlacesAppend(AllInputs(es[..n]), es[n].tx.Spends());
    DistinctAppend(AllInputs(es[..n]), es[n].tx.Spends());
    if j < n {
      EntryPlaces(es[..n], j);
    }
  }

  lemma {:induction false} EntriesApart(es: seq<Entry>, i: nat, j: nat)
    requires i < j < |es| && NoDoubleSpend(es)
    ensures Places(es[i].tx.Spends()) !! Places(es[j].tx.Spends())
  {
    var n := |es| - 1;
    DistinctAppend(AllInputs(es[..n]), es[n].tx.Spends());
    if j < n {
      EntriesApart(es[..n], i, j);
    } else {
      EntryPlaces(es[..n], i);
    }
  }

  lemma FitsDistinct(pool: Pool, es: seq<Entry>, pe: seq<Entry>, keyHash: KeyHash)
    requires PoolFits(pool, es, pe, keyHash)
    ensures PoolDistinct(pool)
  {
    AllInputsAppend(es, pe);
    DistinctAppend(AllInputs(es), AllInputs(pe));
    forall t | t in pool
      ensures DistinctPlaces(pool[t].Spends())
    {
      var i := Standing(pool, es, pe, keyHash, t);
      EntryPlaces(pe, i);
    }
    forall t, t' | t in pool && t' in pool && t != t'
      ensures Apart(pool, t, t')
    {
      var i := Standing(pool, es, pe, keyHash, t);
      var j := Standing(pool, es, pe, keyHash, t');
      EntriesApart(pe, if i < j then i else j, if i < j then j else i);
    }
  }

  /** The coins of a pooled transaction. */
  lemma PoolCoins(es: seq<Entry>, pe: seq<Entry>, i: nat)
    requires Ordered(es + pe) && i < |pe|
    ensures CoinsAt(es + pe, pe[i].tx.id) == CoinsOf(pe[i])
  {
    EntryAtIndex(es, pe, i);
    SpentAppend(es, pe, pe[i].tx.id);
    IdsIn(pe, pe[i].tx.id);
  }

  lemma OwnedTxValues(pool: Pool, es: seq<Entry>, pe: seq<Entry>, t: Bytes, a: Bytes, keyHash: KeyHash)
    requires PoolFits(pool, es, pe, keyHash) && t in pool
    ensures ValuesOk(es + pe, Owned(pool[t], a, |pool[t].vout|))
  {
    var j := Standing(pool, es, pe, keyHash, t);
    PoolCoins(es, pe, j);
    OwnedIn(pool[t], a, |pool[t].vout|, (t, 0));
  }

  lemma {:induction false} OwnedValues(pool: Pool, es: seq<Entry>, pe: seq<Entry>, order: seq<Bytes>, a: Bytes,
                                       keyHash: KeyHash)
    requires PoolFits(pool, es, pe, keyHash) && forall t | t in order :: t in pool
    ensures ValuesOk(es + pe, OwnedBy(pool, order, a))
  {
    if order != [] {
      var before, t := order[..|order| - 1], order[|order| - 1];
      assert t in order && forall x | x in before :: x in order;
      OwnedValues(pool, es, pe, before, a, keyHash);
      OwnedTxValues(pool, es, pe, t, a, keyHash);
    }
  }

  // ----- what the pool does to the balance

  lemma {:induction false} OwnedTxSum(cs: seq<Coin>, tx: Transaction, a: Bytes, n: nat)
    requires n <= |tx.vout| && |cs| == n
    requires forall i | 0 <= i < n :: cs[i].value == tx.vout[i].value && cs[i].owner == tx.vout[i].pubKeyHash
    ensures OutSum(Owned(tx, a, n)) == CoinSum(cs, Some(a))
  {
    if n > 0 {
      OwnedTxSum(cs[..n - 1], tx, a, n - 1);
      OutSumAppend(Owned(tx, a, n - 1), [PoolOutput(tx, n - 1)]);
      OutSumOne(PoolOutput(tx, n - 1));
      assert Owned(tx, a, n - 1) + [] == Owned(tx, a, n - 1);
    }
  }

  lemma {:induction false} InSumAppend(all: seq<Entry>, x: seq<TXInput>, y: seq<TXInput>)
    ensures InSum(all, x + y) == InSum(all, x) + InSum(all, y)
  {
    if y == [] {
      assert x + y == x;
    } else {
      assert (x + y)[..|x + y| - 1] == x + y[..|y| - 1];
      InSumAppend(all, x, y[..|y| - 1]);
    }
  }

  lemma SignedStep(all: seq<Entry>, ins: seq<TXInput>, n: nat, a: Bytes, keyHash: KeyHash)
    requires n < |ins|
    ensures InSum(all, Signed(ins[..n + 1], a, keyHash))
            == InSum(all, Signed(ins[..n], a, keyHash))
               + (if keyHash(ins[n].pubKey) == a then PlaceValue(all, PlaceOf(ins[n])) else 0.0)
  {
    assert ins[..n + 1][..n] == ins[..n];
    var k := Signed(ins[..n], a, keyHash);
    assert (k + [ins[n]])[..|k|] == k && k + [] == k;
  }

  lemma {:induction false} SignedTxSum(all: seq<Entry>, ins: seq<TXInput>, n: nat, a: Bytes, keyHash: KeyHash)
    requires n <= |ins|
    requires forall k {:trigger OwnedByKey(all, ins[k], keyHash)} | 0 <= k < |ins| :: OwnedByKey(all, ins[k], keyHash)
    ensures InSum(all, Signed(ins[..n], a, keyHash)) == InputsValue(all, ins[..n], Some(a))
  {
    if n > 0 {
      SignedTxSum(all, ins, n - 1, a, keyHash);
      SignedStep(all, ins, n - 1, a, keyHash);
      assert OwnedByKey(all, ins[n - 1], keyHash);
      assert ins[..n][..n - 1] == ins[..n - 1];
    }
  }

  /** What an input spends does not change when the chain grows. */
  lemma {:induction false} InputsStable(es: seq<Entry>, rest: seq<Entry>, ins: seq<TXInput>, who: Option<Bytes>)
    requires Ordered(es + rest) && forall i | 0 <= i < |ins| :: InputResolves(es, ins[i])
    ensures InputsValue(es + rest, ins, who) == InputsValue(es, ins, who)
  {
    if ins != [] {
      var vin := ins[|ins| - 1];
      InputsStable(es, rest, ins[..|ins| - 1], who);
      assert InputResolves(es, vin);
      HasEntry(es, vin.txid);
      OrderedFresh(es, rest);
      SpentAppend(es, rest, vin.txid);
    }
  }

  /** One more transaction of the pool. */
  lemma PoolStep(pool: Pool, es: seq<Entry>, pe: seq<Entry>, k: nat, a: Bytes, keyHash: KeyHash)
    requires PoolFits(pool, es, pe, keyHash) && k < |pe|
    ensures InputsValue(es + pe[..k], pe[k].tx.Spends(), Some(a))
            == InSum(es + pe, Signed(pe[k].tx.Spends(), a, keyHash))
    ensures CoinSum(CoinsOf(pe[k]), Some(a)) == OutSum(Owned(pe[k].tx, a, |pe[k].tx.vout|))
  {
    var ins := pe[k].tx.Spends();
    ResolvedAt(es, pe, k);
    assert es + pe == (es + pe[..k]) + pe[k..];
    forall i | 0 <= i < |ins|
      ensures InputResolves(es + pe[..k], ins[i])
    {
    }
    InputsStable(es + pe[..k], pe[k..], ins, Some(a));
    assert EntryFits(pool, es + pe, pe[k].tx, keyHash);
    SignedTxSum(es + pe, ins, |ins|, a, keyHash);
    assert ins[..|ins|] == ins;
    OwnedTxSum(CoinsOf(pe[k]), pe[k].tx, a, |pe[k].tx.vout|);
  }

  lemma OwnedStep(pool: Pool, order: seq<Bytes>, k: nat, tx: Transaction, a: Bytes)
    requires k < |order| && (forall t | t in order :: t in pool) && tx == pool[order[k]]
    ensures forall t | t in order[..k] :: t in pool
    ensures forall t | t in order[..k + 1] :: t in pool
    ensures OutSum(OwnedBy(pool, order[..k + 1], a))
            == OutSum(OwnedBy(pool, order[..k], a)) + OutSum(Owned(tx, a, |tx.vout|))
  {
    assert order[..k + 1][..k] == order[..k];
    OutSumAppend(OwnedBy(pool, order[..k], a), Owned(tx, a, |tx.vout|));
  }

  lemma SignedByStep(pool: Pool, order: seq<Bytes>, k: nat, tx: Transaction, all: seq<Entry>, a: Bytes,
                     keyHash: KeyHash)
    requires k < |order| && (forall t | t in order :: t in pool) && tx == pool[order[k]]
    ensures forall t | t in order[..k] :: t in pool
    ensures forall t | t in order[..k + 1] :: t in pool
    ensures InSum(all, SignedBy(pool, order[..k + 1], a, keyHash))
            == InSum(all, SignedBy(pool, order[..k], a, keyHash)) + InSum(all, Signed(tx.Spends(), a, keyHash))
  {
    assert order[..k + 1][..k] == order[..k];
    InSumAppend(all, SignedBy(pool, order[..k], a, keyHash), Signed(tx.Spends(), a, keyHash));
  }

  lemma ChainStep(es: seq<Entry>, pe: seq<Entry>, k: nat, a: Bytes)
    requires k < |pe|
    ensures Received(es + pe[..k + 1], Some(a)) == Received(es + pe[..k], Some(a)) + CoinSum(CoinsOf(pe[k]), Some(a))
    ensures SpentValue(es + pe[..k + 1], Some(a))
            == SpentValue(es + pe[..k], Some(a)) + InputsValue(es + pe[..k], pe[k].tx.Spends(), Some(a))
  {
    var x := es + pe[..k + 1];
    assert x[..|x| - 1] == es + pe[..k] && x[|x| - 1] == pe[k];
  }

  lemma {:induction false} PoolReceives(pool: Pool, es: seq<Entry>, pe: seq<Entry>, order: seq<Bytes>, n: nat,
                                        a: Bytes, keyHash: KeyHash)
    requires PoolFits(pool, es, pe, keyHash) && n <= |pe|
    requires order == IdSeq(pe) && forall t | t in order :: t in pool
    ensures forall t | t in order[..n] :: t in pool
    ensures Received(es + pe[..n], Some(a)) == Received(es, Some(a)) + OutSum(OwnedBy(pool, order[..n], a))
  {
    if n == 0 {
      assert es + pe[..0] == es;
    } else {
      var k := n - 1;
      PoolReceives(pool, es, pe, order, k, a, keyHash);
      assert EntryFits(pool, es + pe, pe[k].tx, keyHash);
      OwnedStep(pool, order, k, pe[k].tx, a);
      PoolStep(pool, es, pe, k, a, keyHash);
      ChainStep(es, pe, k, a);
    }
  }

  lemma {:induction false} PoolSpends(pool: Pool, es: seq<Entry>, pe: seq<Entry>, order: seq<Bytes>, n: nat,
                                      a: Bytes, keyHash: KeyHash)
    requires PoolFits(pool, es, pe, keyHash) && n <= |pe|
    requires order == IdSeq(pe) && forall t | t in order :: t in pool
    ensures forall t | t in order[..n] :: t in pool
    ensures SpentValue(es + pe[..n], Some(a))
            == SpentValue(es, Some(a)) + InSum(es + pe, SignedBy(pool, order[..n], a, keyHash))
  {
    if n == 0 {
      assert es + pe[..0] == es;
    } else {
      var k := n - 1;
      PoolSpends(pool, es, pe, order, k, a, keyHash);
      assert EntryFits(pool, es + pe, pe[k].tx, keyHash);
      SignedByStep(pool, order, k, pe[k].tx, es + pe, a, keyHash);
      PoolStep(pool, es, pe, k, a, keyHash);
      ChainStep(es, pe, k, a);
    }
  }

  /** The order in which the pool is read does not matter. */
  lemma OrderFree(pool: Pool, es: seq<Entry>, pe: seq<Entry>, order: seq<Bytes>, order': seq<Bytes>, a: Bytes,
                  keyHash: KeyHash)
    requires PoolFits(pool, es, pe, keyHash) && Enumerates(order, pool) && Enumerates(order', pool)
    requires PoolDistinct(pool)
    ensures OutSum(OwnedBy(pool, order, a)) == OutSum(OwnedBy(pool, order', a))
    ensures InSum(es + pe, SignedBy(pool, order, a, keyHash)) == InSum(es + pe, SignedBy(pool, order', a, keyHash))
  {
    ListSums(pool, es, pe, order, a, keyHash);
    ListSums(pool, es, pe, order', a, keyHash);
    SamePlaces(pool, order, order', a, keyHash);
    SamePlaces(pool, order', order, a, keyHash);
    SameOutPlaces(pool, order, order', a);
    SameOutPlaces(pool, order', order, a);
    assert Places(SignedBy(pool, order, a, keyHash)) == Places(SignedBy(pool, order', a, keyHash));
    assert OutPlaces(OwnedBy(pool, order, a)) == OutPlaces(OwnedBy(pool, order', a));
  }

  lemma PoolMovesAll(pool: Pool, es: seq<Entry>, pe: seq<Entry>, a: Bytes, keyHash: KeyHash)
    requires PoolFits(pool, es, pe, keyHash)
    ensures Enumerates(IdSeq(pe), pool)
    ensures Received(es + pe, Some(a)) == Received(es, Some(a)) + OutSum(OwnedBy(pool, IdSeq(pe), a))
    ensures SpentValue(es + pe, Some(a))
            == SpentValue(es, Some(a)) + InSum(es + pe, SignedBy(pool, IdSeq(pe), a, keyHash))
  {
    IdSeqEnumerates(pool, es, pe, keyHash);
    PoolReceives(pool, es, pe, IdSeq(pe), |pe|, a, keyHash);
    PoolSpends(pool, es, pe, IdSeq(pe), |pe|, a, keyHash);
    assert pe[..|pe|] == pe && IdSeq(pe)[..|pe|] == IdSeq(pe);
  }

  /** For any order in which the pool is read: unused outputs less approved inputs are what
      the whole pool adds to the balance. */
  lemma PendingIs(pool: Pool, es: seq<Entry>, pe: seq<Entry>, order: seq<Bytes>, a: Bytes, keyHash: KeyHash)
    requires PoolFits(pool, es, pe, keyHash) && Enumerates(order, pool)
    ensures var ins, outs := SignedBy(pool, order, a, keyHash), OwnedBy(pool, order, a);
            OutSum(Unused(outs, Places(ins))) - InSum(es + pe, FromElsewhere(ins, OutPlaces(outs)))
            == (Received(es + pe, Some(a)) - SpentValue(es + pe, Some(a)))
               - (Received(es, Some(a)) - SpentValue(es, Some(a)))
  {
    FitsDistinct(pool, es, pe, keyHash);
    PoolMovesAll(pool, es, pe, a, keyHash);
    OrderFree(pool, es, pe, order, IdSeq(pe), a, keyHash);
    ListSums(pool, es, pe, order, a, keyHash);
    Difference(es + pe, OutPlaces(OwnedBy(pool, order, a)), Places(SignedBy(pool, order, a, keyHash)));
  }

  /** The sums of the lists as sums over the places they name. */
  lemma ListSums(pool: Pool, es: seq<Entry>, pe: seq<Entry>, order: seq<Bytes>, a: Bytes, keyHash: KeyHash)
    requires PoolFits(pool, es, pe, keyHash) && Enumerates(order, pool) && PoolDistinct(pool)
    ensures var ins, outs := SignedBy(pool, order, a, keyHash), OwnedBy(pool, order, a);
            && OutSum(outs) == SumPlaces(es + pe, OutPlaces(outs))
            && InSum(es + pe, ins) == SumPlaces(es + pe, Places(ins))
            && OutSum(Unused(outs, Places(ins))) == SumPlaces(es + pe, OutPlaces(outs) - Places(ins))
            && InSum(es + pe, FromElsewhere(ins, OutPlaces(outs))) == SumPlaces(es + pe, Places(ins) - OutPlaces(outs))
  {
    var all := es + pe;
    assert order[..|order|] == order;
    SignedByDistinct(pool, order, |order|, a, keyHash);
    OwnedByDistinct(pool, order, |order|, a);
    OwnedValues(pool, es, pe, order, a, keyHash);
    var ins, outs := SignedBy(pool, order, a, keyHash), OwnedBy(pool, order, a);
    UnusedSum(all, outs, Places(ins));
    UnusedSum(all, outs, {});
    UnusedAll(outs);
    assert OutPlaces(outs) - {} == OutPlaces(outs) && Places(ins) - {} == Places(ins);
    ElsewhereSum(all, ins, OutPlaces(outs));
    ElsewhereSum(all, ins, {});
    ElsewhereAll(ins);
  }

  // ----- the methods

  /** An input signed by the address that spends no pooled output of it spends an unspent
      output of the chain; the cache gives its value. */
  lemma ApprovedFound(pool: Pool, es: seq<Entry>, pe: seq<Entry>, order: seq<Bytes>, vin: TXInput, a: Bytes,
                      keyHash: KeyHash)
    requires PoolFits(pool, es, pe, keyHash) && Enumerates(order, pool)
    requires vin in SignedBy(pool, order, a, keyHash) && PlaceOf(vin) !in OutPlaces(OwnedBy(pool, order, a))
    ensures exists c :: c in Unspent(es, vin.txid) && c.index == vin.vout
    ensures forall c | c in Unspent(es, vin.txid) && c.index == vin.vout :: c.value == PlaceValue(es + pe, PlaceOf(vin))
  {
    var t := vin.txid;
    SignedByIn(pool, order, a, keyHash, vin);
    var i :| SignedAt(pool, order, i, vin, a, keyHash);
    var j := Standing(pool, es, pe, keyHash, order[i]);
    var k :| 0 <= k < |pe[j].tx.Spends()| && pe[j].tx.Spends()[k] == vin;
    NotPooled(pool, es, pe, order, j, k, a, keyHash);
    NotSpentYet(es, pe, j, k);
    var e := EntryAt(es, t).value;
    forall c
      ensures c in Unspent(es, t) <==> c in CoinsOf(e) && c.index !in SpentIn(es, t)
    {
      KeepIn(CoinsOf(e), SpentIn(es, t), c);
    }
    assert CoinsOf(e)[vin.vout] in Unspent(es, t);
  }

  lemma NotSpentYet(es: seq<Entry>, pe: seq<Entry>, j: nat, k: nat)
    requires NoDoubleSpend(es + pe) && j < |pe| && k < |pe[j].tx.Spends()|
    ensures pe[j].tx.Spends()[k].vout !in SpentIn(es, pe[j].tx.Spends()[k].txid)
  {
    var vin := pe[j].tx.Spends()[k];
    AllInputsAppend(es, pe);
    DistinctAppend(AllInputs(es), AllInputs(pe));
    EntryPlaces(pe, j);
    assert PlaceOf(vin) in Places(pe[j].tx.Spends());
    SpentArePlaces(es, vin.txid, vin.vout);
  }

  lemma NotPooled(pool: Pool, es: seq<Entry>, pe: seq<Entry>, order: seq<Bytes>, j: nat, k: nat, a: Bytes,
                  keyHash: KeyHash)
    requires PoolFits(pool, es, pe, keyHash) && Enumerates(order, pool) && j < |pe| && k < |pe[j].tx.Spends()|
    requires keyHash(pe[j].tx.Spends()[k].pubKey) == a
    requires PlaceOf(pe[j].tx.Spends()[k]) !in OutPlaces(OwnedBy(pool, order, a))
    ensures var vin := pe[j].tx.Spends()[k];
            && EntryAt(es, vin.txid).Some? && EntryAt(es + pe, vin.txid) == EntryAt(es, vin.txid)
            && 0 <= vin.vout < |EntryAt(es, vin.txid).value.tx.vout|
  {
    var t := pe[j].tx.Spends()[k].txid;
    if t in Ids(pe) {
      PooledSource(pool, es, pe, order, j, k, a, keyHash);
      assert false;
    } else {
      ChainSource(es, pe, j, k);
    }
  }

  lemma ChainSource(es: seq<Entry>, pe: seq<Entry>, j: nat, k: nat)
    requires Sound(es + pe) && j < |pe| && k < |pe[j].tx.Spends()| && pe[j].tx.Spends()[k].txid !in Ids(pe)
    ensures var vin := pe[j].tx.Spends()[k];
            && EntryAt(es, vin.txid).Some? && EntryAt(es + pe, vin.txid) == EntryAt(es, vin.txid)
            && 0 <= vin.vout < |EntryAt(es, vin.txid).value.tx.vout|
  {
    var t, before := pe[j].tx.Spends()[k].txid, pe[..j];
    ResolvedAt(es, pe, j);
    assert InputResolves(es + before, pe[j].tx.Spends()[k]);
    IdsPart(pe, j, t);
    SameEntry(es, before, t);
    SameEntry(es, pe, t);
  }

  lemma IdsPart(pe: seq<Entry>, j: nat, t: Bytes)
    requires j <= |pe| && t !in Ids(pe)
    ensures t !in Ids(pe[..j])
  {
    assert pe == pe[..j] + pe[j..];
    IdsAppend(pe[..j], pe[j..]);
  }

  lemma SameEntry(es: seq<Entry>, rest: seq<Entry>, t: Bytes)
    requires t !in Ids(rest)
    ensures EntryAt(es + rest, t) == EntryAt(es, t)
  {
    SpentAppend(es, rest, t);
  }

  lemma PooledSource(pool: Pool, es: seq<Entry>, pe: seq<Entry>, order: seq<Bytes>, j: nat, k: nat, a: Bytes,
                     keyHash: KeyHash)
    requires PoolFits(pool, es, pe, keyHash) && Enumerates(order, pool) && j < |pe| && k < |pe[j].tx.Spends()|
    requires keyHash(pe[j].tx.Spends()[k].pubKey) == a && pe[j].tx.Spends()[k].txid in Ids(pe)
    ensures PlaceOf(pe[j].tx.Spends()[k]) in OutPlaces(OwnedBy(pool, order, a))
  {
    var vin := pe[j].tx.Spends()[k];
    var t := vin.txid;
    var i := Standing(pool, es, pe, keyHash, t);
    PoolCoins(es, pe, i);
    assert EntryFits(pool, es + pe, pe[j].tx, keyHash);
    assert OwnedByKey(es + pe, pe[j].tx.Spends()[k], keyHash);
    ResolvedLater(es, pe, j, k);
    var n :| 0 <= n < |order| && order[n] == t;
    assert OwnedAt(pool, order, n, PlaceOf(vin), a);
    OwnedByIn(pool, order, a, PlaceOf(vin));
  }

  /** What an input of the continuation spends exists on the whole chain. */
  lemma ResolvedLater(es: seq<Entry>, pe: seq<Entry>, j: nat, k: nat)
    requires Sound(es + pe) && j < |pe| && k < |pe[j].tx.Spends()|
    ensures var vin := pe[j].tx.Spends()[k];
            0 <= vin.vout < |CoinsAt(es + pe, vin.txid)|
  {
    var vin := pe[j].tx.Spends()[k];
    var x, y := es + pe[..j], pe[j..];
    ResolvedAt(es, pe, j);
    assert InputResolves(x, pe[j].tx.Spends()[k]);
    assert es + pe == x + y;
    HasEntry(x, vin.txid);
    OrderedFresh(x, y);
    SpentAppend(x, y, vin.txid);
  }

  method SumOutputs(outs: seq<Output>) returns (sum: real)
    ensures sum == OutSum(outs)
  {
    sum := 0.0;
    for i := 0 to |outs|
      invariant sum == OutSum(outs[..i])
    {
      assert outs[..i + 1][..i] == outs[..i];
      sum := sum + outs[i].value;
    }
    assert outs[..|outs|] == outs;
  }

  /** Every input's value is found in the cache. */
  ghost predicate InCache(u: Utxo, all: seq<Entry>, ins: seq<TXInput>) {
    forall i {:trigger CachedAs(u, all, ins[i])} | 0 <= i < |ins| :: CachedAs(u, all, ins[i])
  }

  ghost predicate CachedAs(u: Utxo, all: seq<Entry>, vin: TXInput) {
    && (exists c :: c in Coins(u, vin.txid) && c.index == vin.vout)
    && (forall c | c in Coins(u, vin.txid) && c.index == vin.vout :: c.value == PlaceValue(all, PlaceOf(vin)))
  }

  method SumInputs(db: Database, ghost all: seq<Entry>, ins: seq<TXInput>) returns (sum: real, err: bool)
    requires InCache(db.unspent, all, ins)
    ensures !err && sum == InSum(all, ins)
  {
    sum := 0.0;
    for i := 0 to |ins|
      invariant sum == InSum(all, ins[..i])
    {
      assert ins[..i + 1][..i] == ins[..i];
      assert CachedAs(db.unspent, all, ins[i]);
      var v, e := GetInputValue(db, ins[i]);
      if e {
        return 0.0, true;
      }
      sum := sum + v;
    }
    assert ins[..|ins|] == ins;
    err := false;
  }

  lemma {:induction false} ElsewhereIn(ins: seq<TXInput>, here: set<Place>, vin: TXInput)
    ensures vin in FromElsewhere(ins, here) <==> vin in ins && PlaceOf(vin) !in here
  {
    if ins != [] {
      ElsewhereIn(ins[..|ins| - 1], here, vin);
      assert ins == ins[..|ins| - 1] + [ins[|ins| - 1]];
    }
  }

  lemma AllCached(u: Utxo, pool: Pool, es: seq<Entry>, pe: seq<Entry>, order: seq<Bytes>, a: Bytes, keyHash: KeyHash)
    requires PoolFits(pool, es, pe, keyHash) && Enumerates(order, pool) && Tracks(u, es)
    ensures InCache(u, es + pe, FromElsewhere(SignedBy(pool, order, a, keyHash), OutPlaces(OwnedBy(pool, order, a))))
  {
    var ins, here := SignedBy(pool, order, a, keyHash), OutPlaces(OwnedBy(pool, order, a));
    var approved := FromElsewhere(ins, here);
    forall i | 0 <= i < |approved|
      ensures CachedAs(u, es + pe, approved[i])
    {
      ElsewhereIn(ins, here, approved[i]);
      ApprovedFound(pool, es, pe, order, approved[i], a, keyHash);
      assert Coins(u, approved[i].txid) == Unspent(es, approved[i].txid);
    }
  }

  /** Without a transaction that has no inputs, the pending balance is what the pool adds. */
  method GetAddressPendingBalance(db: Database, ghost es: seq<Entry>, ghost pe: seq<Entry>, a: Bytes, keyHash: KeyHash)
    returns (pendingbalance: real, outcome: Verdict)
    requires PoolFits(db.pool, es, pe, keyHash) && Tracks(db.unspent, es)
    ensures !outcome.Rejected? && (outcome.Crashed? <==> PoolWithoutInputs(db.pool))
    ensures outcome.Accepted? ==>
              pendingbalance == (Received(es + pe, Some(a)) - SpentValue(es + pe, Some(a)))
                                - (Received(es, Some(a)) - SpentValue(es, Some(a)))
  {
    var inputs, outputs, approved, crashed, order := GetPreparedBy(db, a, keyHash);
    if crashed {
      return 0.0, Crashed;
    }
    AllCached(db.unspent, db.pool, es, pe, order, a, keyHash);
    PendingIs(db.pool, es, pe, order, a, keyHash);
    var sum := SumOutputs(outputs);
    var spent, e := SumInputs(db, es + pe, approved);
    if e {
      return 0.0, Rejected;
    }
    return sum - spent, Accepted;
  }

  datatype WalletBalance = WalletBalance(total: real, approved: real, pending: real)

  /** The balance of a wallet: approved is what it owns on the chain, total what it will own
      when the whole pool has been put into blocks. */
  method GetWalletBalance(db: Database, ghost es: seq<Entry>, ghost pe: seq<Entry>, a: Bytes, keyHash: KeyHash)
    returns (balance: WalletBalance, outcome: Verdict)
    requires PoolFits(db.pool, es, pe, keyHash) && Tracks(db.unspent, es)
    ensures !outcome.Rejected? && (outcome.Crashed? <==> PoolWithoutInputs(db.pool))
    ensures balance.approved == Total(db.unspent, Some(a))
    ensures outcome.Accepted? ==>
              && balance.total == Total(Replay(db.unspent, pe, keyHash), Some(a))
              && balance.total == balance.approved + balance.pending
  {
    var approved := History.GetAddressBalance(db, a);
    var pending;
    pending, outcome := GetAddressPendingBalance(db, es, pe, a, keyHash);
    if !outcome.Accepted? {
      return WalletBalance(0.0, approved, 0.0), outcome;
    }
    PoolFitsPrefix(db.pool, es, pe, keyHash);
    CacheTotal(db.unspent, es, Some(a));
    TracksReplay(db.unspent, es, pe, keyHash);
    CacheTotal(Replay(db.unspent, pe, keyHash), es + pe, Some(a));
    return WalletBalance(approved + pending, approved, pending), Accepted;
  }

  lemma PoolFitsPrefix(pool: Pool, es: seq<Entry>, pe: seq<Entry>, keyHash: KeyHash)
    requires PoolFits(pool, es, pe, keyHash)
    ensures Sound(es) && NoDoubleSpend(es)
  {
    OrderedPrefix(es, pe);
    ResolvedPrefix(es, pe);
    AllInputsAppend(es, pe);
    DistinctAppend(AllInputs(es), AllInputs(pe));
  }
}
