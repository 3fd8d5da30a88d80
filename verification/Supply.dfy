/** Money in the cache of unspent outputs: what a transaction moves, that no output is
    spent twice, and how much money a chain can hold. */
module Supply {
  import opened Structures
  import opened Ledger
  import opened Pending

  // ----- values of coins

  /** The value of a coin, for one owner or for all. */
  function Weight(c: Coin, who: Option<Bytes>): real {
    if who.None? || c.owner == who.value then c.value else 0.0
  }

  ghost function CoinSum(cs: seq<Coin>, who: Option<Bytes>): real {
    if cs == [] then 0.0 else CoinSum(cs[..|cs| - 1], who) + Weight(cs[|cs| - 1], who)
  }

  ghost function TotalOver(u: Utxo, ks: set<Bytes>, who: Option<Bytes>): real {
    if ks == {} then 0.0 else
      var k :| k in ks;
      TotalOver(u, ks - {k}, who) + CoinSum(Coins(u, k), who)
  }

  /** Value of all unspent outputs, of one owner or of all. */
  ghost function Total(u: Utxo, who: Option<Bytes>): real {
    TotalOver(u, u.Keys, who)
  }

  /** The order in which records are added up does not matter. */
  lemma {:induction false} TotalTake(u: Utxo, ks: set<Bytes>, who: Option<Bytes>, k: Bytes)
    requires k in ks
    ensures TotalOver(u, ks, who) == TotalOver(u, ks - {k}, who) + CoinSum(Coins(u, k), who)
  {
    var x :| x in ks && TotalOver(u, ks, who) == TotalOver(u, ks - {x}, who) + CoinSum(Coins(u, x), who);
    if x != k {
      TotalTake(u, ks - {x}, who, k);
      TotalTake(u, ks - {k}, who, x);
      assert ks - {x} - {k} == ks - {k} - {x};
    }
  }

  lemma {:induction false} TotalSame(u: Utxo, u': Utxo, ks: set<Bytes>, who: Option<Bytes>)
    requires forall k | k in ks :: Coins(u, k) == Coins(u', k)
    ensures TotalOver(u, ks, who) == TotalOver(u', ks, who)
  {
    if k :| k in ks {
      TotalTake(u, ks, who, k);
      TotalTake(u', ks, who, k);
      TotalSame(u, u', ks - {k}, who);
    }
  }

  lemma {:induction false} TotalMore(u: Utxo, ks: set<Bytes>, who: Option<Bytes>)
    requires u.Keys <= ks
    ensures TotalOver(u, ks, who) == Total(u, who)
    decreases ks
  {
    if k :| k in ks && k !in u.Keys {
      TotalTake(u, ks, who, k);
      TotalMore(u, ks - {k}, who);
    } else {
      assert ks == u.Keys;
    }
  }

  /** Changing one record changes the total by what the record changes. */
  lemma TotalChange(u: Utxo, u': Utxo, who: Option<Bytes>, t: Bytes)
    requires forall k | k != t :: Coins(u, k) == Coins(u', k)
    ensures Total(u', who) == Total(u, who) - CoinSum(Coins(u, t), who) + CoinSum(Coins(u', t), who)
  {
    var ks := u.Keys + u'.Keys + {t};
    TotalMore(u, ks, who);
    TotalMore(u', ks, who);
    TotalTake(u, ks, who, t);
    TotalTake(u', ks, who, t);
    TotalSame(u, u', ks - {t}, who);
  }

  /** Caches that hold the same coins hold the same total. */
  lemma TotalOfCoins(u: Utxo, u': Utxo, who: Option<Bytes>)
    requires forall t :: Coins(u, t) == Coins(u', t)
    ensures Total(u, who) == Total(u', who)
  {
    var ks := u.Keys + u'.Keys;
    TotalMore(u, ks, who);
    TotalMore(u', ks, who);
    TotalSame(u, u', ks, who);
  }

  // ----- what one input takes away

  /** Value of the coins of index v. */
  ghost function ValueAt(cs: seq<Coin>, v: int, who: Option<Bytes>): real {
    if cs == [] then 0.0 else
      ValueAt(cs[..|cs| - 1], v, who) + (if cs[|cs| - 1].index == v then Weight(cs[|cs| - 1], who) else 0.0)
  }

  lemma {:induction false} KeepSum(cs: seq<Coin>, v: int, who: Option<Bytes>)
    ensures CoinSum(Keep(cs, {v}), who) == CoinSum(cs, who) - ValueAt(cs, v, who)
  {
    if cs != [] {
      var n := |cs| - 1;
      var k := Keep(cs[..n], {v});
      KeepSum(cs[..n], v, who);
      assert (k + [cs[n]])[..|k|] == k && k + [] == k;
    }
  }

  lemma {:induction false} ValueKept(cs: seq<Coin>, spent: set<int>, v: int, who: Option<Bytes>)
    requires v !in spent
    ensures ValueAt(Keep(cs, spent), v, who) == ValueAt(cs, v, who)
  {
    if cs != [] {
      var n := |cs| - 1;
      var k := Keep(cs[..n], spent);
      ValueKept(cs[..n], spent, v, who);
      assert (k + [cs[n]])[..|k|] == k && k + [] == k;
    }
  }

  lemma {:induction false} ValueIs(cs: seq<Coin>, v: nat, who: Option<Bytes>)
    requires forall i | 0 <= i < |cs| :: cs[i].index == i
    ensures ValueAt(cs, v, who) == if v < |cs| then Weight(cs[v], who) else 0.0
  {
    if cs != [] {
      ValueIs(cs[..|cs| - 1], v, who);
    }
  }

  // ----- which inputs are valid

  ghost function AllInputs(es: seq<Entry>): seq<TXInput> {
    if es == [] then [] else AllInputs(es[..|es| - 1]) + es[|es| - 1].tx.Spends()
  }

  ghost predicate DistinctPlaces(ins: seq<TXInput>) {
    forall i, j | 0 <= i < j < |ins| :: PlaceOf(ins[i]) != PlaceOf(ins[j])
  }

  /** No output is spent twice on the chain. */
  ghost predicate NoDoubleSpend(es: seq<Entry>) {
    DistinctPlaces(AllInputs(es))
  }

  lemma PlacesAppend(a: seq<TXInput>, b: seq<TXInput>)
    ensures Places(a + b) == Places(a) + Places(b)
  {
    forall p | p in Places(a)
      ensures p in Places(a + b)
    {
      var i :| 0 <= i < |a| && PlaceOf(a[i]) == p;
      assert PlaceOf((a + b)[i]) == p;
    }
    forall p | p in Places(b)
      ensures p in Places(a + b)
    {
      var i :| 0 <= i < |b| && PlaceOf(b[i]) == p;
      assert PlaceOf((a + b)[|a| + i]) == p;
    }
  }

  lemma DistinctAppend(a: seq<TXInput>, b: seq<TXInput>)
    ensures DistinctPlaces(a + b) <==> DistinctPlaces(a) && DistinctPlaces(b) && Places(a) !! Places(b)
  {
    if DistinctPlaces(a + b) {
      forall i, j | 0 <= i < j < |a|
        ensures PlaceOf(a[i]) != PlaceOf(a[j])
      {
        assert PlaceOf((a + b)[i]) != PlaceOf((a + b)[j]);
      }
      forall i, j | 0 <= i < j < |b|
        ensures PlaceOf(b[i]) != PlaceOf(b[j])
      {
        assert PlaceOf((a + b)[|a| + i]) != PlaceOf((a + b)[|a| + j]);
      }
      forall i, j | 0 <= i < |a| && 0 <= j < |b|
        ensures PlaceOf(a[i]) != PlaceOf(b[j])
      {
        assert PlaceOf((a + b)[i]) != PlaceOf((a + b)[|a| + j]);
      }
    }
    if DistinctPlaces(a) && DistinctPlaces(b) && Places(a) !! Places(b) {
      forall i, j | 0 <= i < j < |a + b|
        ensures PlaceOf((a + b)[i]) != PlaceOf((a + b)[j])
      {
        if i < |a| <= j {
          assert PlaceOf(a[i]) in Places(a) && PlaceOf(b[j - |a|]) in Places(b);
        }
      }
    }
  }

  lemma {:induction false} IndicesArePlaces(ins: seq<TXInput>, t: Bytes, v: int)
    ensures v in InputIndices(ins, t) <==> (t, v) in Places(ins)
  {
    if ins != [] {
      var n := |ins| - 1;
      IndicesArePlaces(ins[..n], t, v);
      PlacesAppend(ins[..n], [ins[n]]);
      assert ins == ins[..n] + [ins[n]];
      assert Places([ins[n]]) == {PlaceOf(ins[n])} by {
        assert [ins[n]][0] == ins[n];
      }
    }
  }

  lemma {:induction false} SpentArePlaces(es: seq<Entry>, t: Bytes, v: int)
    ensures v in SpentIn(es, t) <==> (t, v) in Places(AllInputs(es))
  {
    if es != [] {
      var before, ins := es[..|es| - 1], es[|es| - 1].tx.Spends();
      SpentArePlaces(before, t, v);
      IndicesArePlaces(ins, t, v);
      PlacesAppend(AllInputs(before), ins);
    }
  }

  lemma {:induction false} AllInputsAppend(a: seq<Entry>, b: seq<Entry>)
    ensures AllInputs(a + b) == AllInputs(a) + AllInputs(b)
  {
    if b == [] {
      assert a + b == a;
    } else {
      assert (a + b)[..|a + b| - 1] == a + b[..|b| - 1];
      AllInputsAppend(a, b[..|b| - 1]);
    }
  }

  // ----- what one transaction moves

  /** Value of the output that an input spends. */
  ghost function InputValue(es: seq<Entry>, vin: TXInput, who: Option<Bytes>): real {
    if 0 <= vin.vout < |CoinsAt(es, vin.txid)| then Weight(CoinsAt(es, vin.txid)[vin.vout], who) else 0.0
  }

  ghost function InputsValue(es: seq<Entry>, ins: seq<TXInput>, who: Option<Bytes>): real {
    if ins == [] then 0.0 else
      InputsValue(es, ins[..|ins| - 1], who) + InputValue(es, ins[|ins| - 1], who)
  }

  lemma OneInput(u: Utxo, es: seq<Entry>, ins: seq<TXInput>, vin: TXInput, who: Option<Bytes>)
    requires Tracks(u, es) && InputResolves(es, vin)
    requires vin.vout !in SpentIn(es, vin.txid) && vin.vout !in InputIndices(ins, vin.txid)
    ensures Total(RemoveInput(RemoveInputs(u, ins), vin), who)
            == Total(RemoveInputs(u, ins), who) - InputValue(es, vin, who)
  {
    var u1, t, v := RemoveInputs(u, ins), vin.txid, vin.vout;
    forall k
      ensures Coins(RemoveInput(u1, vin), k) == if k == t then Keep(Coins(u1, k), {v}) else Coins(u1, k)
    {
      CoinsAfterInput(u1, vin, k);
    }
    TotalChange(u1, RemoveInput(u1, vin), who, t);
    KeepSum(Coins(u1, t), v, who);
    CoinsAfterInputs(u, ins, t);
    ValueKept(Coins(u, t), InputIndices(ins, t), v, who);
    ValueKept(CoinsAt(es, t), SpentIn(es, t), v, who);
    ValueIs(CoinsAt(es, t), v, who);
  }

  /** Inputs that spend different outputs, all of them unspent on the chain. */
  ghost predicate SpendsUnspent(es: seq<Entry>, ins: seq<TXInput>) {
    && DistinctPlaces(ins) && Places(AllInputs(es)) !! Places(ins)
    && forall i {:trigger InputResolves(es, ins[i])} | 0 <= i < |ins| :: InputResolves(es, ins[i])
  }

  lemma {:induction false} InputsTake(u: Utxo, es: seq<Entry>, ins: seq<TXInput>, who: Option<Bytes>)
    requires Tracks(u, es) && SpendsUnspent(es, ins)
    ensures Total(RemoveInputs(u, ins), who) == Total(u, who) - InputsValue(es, ins, who)
  {
    if ins != [] {
      var before, vin := ins[..|ins| - 1], ins[|ins| - 1];
      assert ins == before + [vin] && vin == ins[|ins| - 1];
      DistinctAppend(before, [vin]);
      PlacesAppend(before, [vin]);
      assert PlaceOf([vin][0]) in Places([vin]);
      assert SpendsUnspent(es, before) by {
        forall i | 0 <= i < |before|
          ensures InputResolves(es, before[i])
        {
          assert InputResolves(es, ins[i]);
        }
      }
      InputsTake(u, es, before, who);
      assert InputResolves(es, ins[|ins| - 1]);
      SpentArePlaces(es, vin.txid, vin.vout);
      IndicesArePlaces(before, vin.txid, vin.vout);
      OneInput(u, es, before, vin, who);
    }
  }

  /** A transaction takes the value of its inputs out and puts that of its outputs in. */
  lemma TxMoves(u: Utxo, es: seq<Entry>, e: Entry, keyHash: KeyHash, who: Option<Bytes>)
    requires Tracks(u, es) && Ordered(es + [e]) && SpendsUnspent(es, e.tx.Spends())
    ensures Total(AddTx(u, e, keyHash), who)
            == Total(u, who) - InputsValue(es, e.tx.Spends(), who) + CoinSum(CoinsOf(e), who)
  {
    var u1 := RemoveInputs(u, e.tx.Spends());
    InputsTake(u, es, e.tx.Spends(), who);
    forall k
      ensures Coins(AddTx(u, e, keyHash), k) == if k == e.tx.id then CoinsOf(e) else Coins(u1, k)
    {
      CoinsAfterTx(u, e, keyHash, k);
      CoinsAfterInputs(u, e.tx.Spends(), k);
    }
    TotalChange(u1, AddTx(u, e, keyHash), who, e.tx.id);
    OrderedFresh(es, [e]);
    assert [e][..0] == [];
    assert e.tx.id in Ids([e]);
    HasEntry(es, e.tx.id);
    CoinsAfterInputs(u, e.tx.Spends(), e.tx.id);
    assert Coins(u, e.tx.id) == [];
  }

  // ----- a whole chain

  /** What the owner received and spent along the chain. */
  ghost function Received(es: seq<Entry>, who: Option<Bytes>): real {
    if es == [] then 0.0 else Received(es[..|es| - 1], who) + CoinSum(CoinsOf(es[|es| - 1]), who)
  }

  ghost function SpentValue(es: seq<Entry>, who: Option<Bytes>): real {
    if es == [] then 0.0 else
      SpentValue(es[..|es| - 1], who) + InputsValue(es[..|es| - 1], es[|es| - 1].tx.Spends(), who)
  }

  lemma LastSpends(es: seq<Entry>, e: Entry)
    requires Sound(es + [e]) && NoDoubleSpend(es + [e])
    ensures Sound(es) && NoDoubleSpend(es) && SpendsUnspent(es, e.tx.Spends())
  {
    assert (es + [e])[..|es|] == es;
    DistinctAppend(AllInputs(es), e.tx.Spends());
  }

  /** What remains of a chain is what was received less what was spent. */
  lemma {:induction false} ChainTotal(es: seq<Entry>, keyHash: KeyHash, who: Option<Bytes>)
    requires Sound(es) && NoDoubleSpend(es)
    ensures Total(Replay(map[], es, keyHash), who) == Received(es, who) - SpentValue(es, who)
  {
    if es != [] {
      var before, e := es[..|es| - 1], es[|es| - 1];
      assert es == before + [e];
      LastSpends(before, e);
      ChainTotal(before, keyHash, who);
      ReplayIsUnspent(before, keyHash);
      TxMoves(Replay(map[], before, keyHash), before, e, keyHash, who);
    }
  }

  /** Every correct cache of the chain holds that total. */
  lemma CacheTotal(u: Utxo, es: seq<Entry>, who: Option<Bytes>)
    requires Sound(es) && NoDoubleSpend(es) && Tracks(u, es)
    ensures Total(u, who) == Received(es, who) - SpentValue(es, who)
  {
    var keyHash: KeyHash := (b: Bytes) => b;
    ChainTotal(es, keyHash, who);
    ReplayIsUnspent(es, keyHash);
    TotalOfCoins(u, Replay(map[], es, keyHash), who);
  }
}
