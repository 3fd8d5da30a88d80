/** DetectConflicts (node/transactions/pending.go): choosing, from the transactions for a
    new block, those that use every output at most once. */
module ConflictDetection {
  import opened Structures
  import opened Pending
  import opened Supply

  type UsedOutputs = map<Bytes, seq<int>>

  ghost predicate IsUsed(m: UsedOutputs, p: Place) {
    p.0 in m && p.1 in m[p.0]
  }

  /** The map stands for a set of places. */
  ghost predicate Marks(m: UsedOutputs, used: set<Place>) {
    forall p: Place {:trigger IsUsed(m, p)} {:trigger p in used} :: IsUsed(m, p) <==> p in used
  }

  // ----- what the choice is

  /** How many inputs come before the first one whose place is used already. */
  ghost function FreshInputs(used: set<Place>, ins: seq<TXInput>): (n: nat)
    ensures n <= |ins|
  {
    if ins == [] then 0 else
      var n := FreshInputs(used, ins[..|ins| - 1]);
      if n < |ins| - 1 || PlaceOf(ins[|ins| - 1]) in used + Places(ins[..|ins| - 1]) then n else |ins|
  }

  /** Places used after the listed transactions were looked at. */
  ghost function UsedAfter(txs: seq<Transaction>): set<Place> {
    if txs == [] then {} else
      var used, ins := UsedAfter(txs[..|txs| - 1]), txs[|txs| - 1].vin;
      used + Places(ins[..FreshInputs(used, ins)])
  }

  ghost predicate Kept(txs: seq<Transaction>, i: nat)
    requires i < |txs|
  {
    FreshInputs(UsedAfter(txs[..i]), txs[i].vin) == |txs[i].vin|
  }

  /** The kept transactions and the others, each in the order of the list. */
  ghost function Part(txs: seq<Transaction>, kept: bool): seq<Transaction> {
    if txs == [] then [] else
      var n := |txs| - 1;
      Part(txs[..n], kept) + (if Kept(txs, n) == kept then [txs[n]] else [])
  }

  // ----- the method

  /** The inner loops: the inputs of one transaction are marked up to the first used one. */
  method MarkInputs(usedoutputs0: UsedOutputs, ins: seq<TXInput>, ghost places: set<Place>)
    returns (usedoutputs: UsedOutputs, used: bool)
    requires Marks(usedoutputs0, places)
    ensures used <==> FreshInputs(places, ins) < |ins|
    ensures Marks(usedoutputs, places + Places(ins[..FreshInputs(places, ins)]))
  {
    usedoutputs := usedoutputs0;
    assert Places(ins[..0]) == {};
    for i := 0 to |ins|
      invariant FreshInputs(places, ins[..i]) == i
      invariant Marks(usedoutputs, places + Places(ins[..i]))
    {
      var txi := ins[i];
      FreshStep(places, ins, i);
      ghost var m := usedoutputs;
      if txi.txid in usedoutputs {
        if txi.vout in usedoutputs[txi.txid] {
          assert IsUsed(usedoutputs, PlaceOf(txi));
          return usedoutputs, true;
        }
        assert !IsUsed(usedoutputs, PlaceOf(txi));
        usedoutputs := usedoutputs[txi.txid := usedoutputs[txi.txid] + [txi.vout]];
      } else {
        assert !IsUsed(usedoutputs, PlaceOf(txi));
        assert [] + [txi.vout] == [txi.vout];
        usedoutputs := usedoutputs[txi.txid := [txi.vout]];
      }
      MarkOne(m, usedoutputs, places + Places(ins[..i]), txi);
      assert places + Places(ins[..i]) + {PlaceOf(txi)} == places + Places(ins[..i + 1]);
    }
    assert ins[..|ins|] == ins;
    return usedoutputs, false;
  }

  lemma MarkOne(m: UsedOutputs, m': UsedOutputs, used: set<Place>, txi: TXInput)
    requires Marks(m, used)
    requires m' == m[txi.txid := (if txi.txid in m then m[txi.txid] else []) + [txi.vout]]
    ensures Marks(m', used + {PlaceOf(txi)})
  {
    forall p: Place
      ensures IsUsed(m', p) <==> p in used + {PlaceOf(txi)}
    {
      assert IsUsed(m, p) <==> p in used;
    }
  }

  lemma FreshStep(used: set<Place>, ins: seq<TXInput>, i: nat)
    requires i < |ins| && FreshInputs(used, ins[..i]) == i
    ensures PlaceOf(ins[i]) in used + Places(ins[..i]) ==> FreshInputs(used, ins) == i
    ensures PlaceOf(ins[i]) !in used + Places(ins[..i]) ==> FreshInputs(used, ins[..i + 1]) == i + 1
    ensures Places(ins[..i + 1]) == Places(ins[..i]) + {PlaceOf(ins[i])}
  {
    assert ins[..i + 1][..i] == ins[..i] && ins[..i + 1] == ins[..i] + [ins[i]];
    PlacesAppend(ins[..i], [ins[i]]);
    assert Places([ins[i]]) == {PlaceOf(ins[i])} by {
      assert [ins[i]][0] == ins[i];
    }
    if PlaceOf(ins[i]) in used + Places(ins[..i]) {
      StuckFrom(used, ins, i);
    }
  }

  lemma {:induction false} StuckFrom(used: set<Place>, ins: seq<TXInput>, i: nat)
    requires i < |ins| && FreshInputs(used, ins[..i]) == i && PlaceOf(ins[i]) in used + Places(ins[..i])
    ensures FreshInputs(used, ins) == i
  {
    var n := |ins| - 1;
    if i < n {
      assert ins[..n][..i] == ins[..i];
      StuckFrom(used, ins[..n], i);
    }
  }

  method DetectConflicts(txs: seq<Transaction>) returns (good: seq<Transaction>, conflicts: seq<Transaction>)
    ensures good == Part(txs, true) && conflicts == Part(txs, false)
  {
    good, conflicts := [], [];
    var usedoutputs: UsedOutputs := map[];
    for i := 0 to |txs|
      invariant good == Part(txs[..i], true) && conflicts == Part(txs[..i], false)
      invariant Marks(usedoutputs, UsedAfter(txs[..i]))
    {
      var used;
      assert txs[..i + 1][..i] == txs[..i];
      assert Kept(txs[..i + 1], i) <==> Kept(txs, i);
      usedoutputs, used := MarkInputs(usedoutputs, txs[i].vin, UsedAfter(txs[..i]));
      if used {
        conflicts := conflicts + [txs[i]];
      } else {
        good := good + [txs[i]];
      }
    }
    assert txs[..|txs|] == txs;
  }

  // ----- what the choice gives

  /** All inputs of a list of transactions. */
  ghost function AllVin(txs: seq<Transaction>): seq<TXInput> {
    if txs == [] then [] else AllVin(txs[..|txs| - 1]) + txs[|txs| - 1].vin
  }

  lemma {:induction false} FreshAreDistinct(used: set<Place>, ins: seq<TXInput>)
    ensures FreshInputs(used, ins) == |ins| <==> DistinctPlaces(ins) && used !! Places(ins)
  {
    if ins == [] {
      assert Places(ins) == {};
    } else {
      var before, vin := ins[..|ins| - 1], ins[|ins| - 1];
      FreshAreDistinct(used, before);
      assert ins == before + [vin];
      DistinctAppend(before, [vin]);
      PlacesAppend(before, [vin]);
      assert Places([vin]) == {PlaceOf(vin)} by {
        assert [vin][0] == vin;
      }
    }
  }

  lemma {:induction false} GoodUses(txs: seq<Transaction>)
    ensures Places(AllVin(Part(txs, true))) <= UsedAfter(txs)
  {
    if txs != [] {
      var n := |txs| - 1;
      var good, ins := Part(txs[..n], true), txs[n].vin;
      GoodUses(txs[..n]);
      if Kept(txs, n) {
        assert (good + [txs[n]])[..|good|] == good;
        PlacesAppend(AllVin(good), ins);
        assert ins[..|ins|] == ins;
      } else {
        assert good + [] == good;
      }
    }
  }

  /** No output is used twice by the kept transactions. */
  lemma {:induction false} GoodIsDistinct(txs: seq<Transaction>)
    ensures DistinctPlaces(AllVin(Part(txs, true)))
  {
    if txs != [] {
      var n := |txs| - 1;
      var good, ins := Part(txs[..n], true), txs[n].vin;
      GoodIsDistinct(txs[..n]);
      if Kept(txs, n) {
        assert (good + [txs[n]])[..|good|] == good;
        FreshAreDistinct(UsedAfter(txs[..n]), ins);
        GoodUses(txs[..n]);
        DistinctAppend(AllVin(good), ins);
      } else {
        assert good + [] == good;
      }
    }
  }

  lemma {:induction false} UsedBefore(txs: seq<Transaction>)
    ensures UsedAfter(txs) <= Places(AllVin(txs))
  {
    if txs != [] {
      var n := |txs| - 1;
      var ins := txs[n].vin;
      UsedBefore(txs[..n]);
      PlacesAppend(AllVin(txs[..n]), ins);
      assert Places(ins[..FreshInputs(UsedAfter(txs[..n]), ins)]) <= Places(ins);
    }
  }

  /** A transaction is put aside only for a reason: two of its inputs are at one place, or one
      is at a place that a transaction listed before it uses.  So of two that collide the one
      listed first is preferred. */
  lemma AsideForReason(txs: seq<Transaction>, k: nat)
    requires k < |txs| && !Kept(txs, k)
    ensures !DistinctPlaces(txs[k].vin) || exists p :: p in Places(txs[k].vin) && p in Places(AllVin(txs[..k]))
  {
    FreshAreDistinct(UsedAfter(txs[..k]), txs[k].vin);
    UsedBefore(txs[..k]);
    if DistinctPlaces(txs[k].vin) {
      var p :| p in UsedAfter(txs[..k]) && p in Places(txs[k].vin);
      assert p in Places(AllVin(txs[..k]));
    }
  }

  lemma {:induction false} DistinctUses(txs: seq<Transaction>)
    requires DistinctPlaces(AllVin(txs))
    ensures UsedAfter(txs) == Places(AllVin(txs)) && Part(txs, true) == txs && Part(txs, false) == []
  {
    if txs == [] {
      assert Places(AllVin(txs)) == {};
    } else {
      var n := |txs| - 1;
      var ins := txs[n].vin;
      DistinctAppend(AllVin(txs[..n]), ins);
      DistinctUses(txs[..n]);
      FreshAreDistinct(UsedAfter(txs[..n]), ins);
      PlacesAppend(AllVin(txs[..n]), ins);
      assert ins[..|ins|] == ins && txs == txs[..n] + [txs[n]];
    }
  }

  /** The list is kept whole exactly when its inputs are pairwise distinct. */
  lemma KeptWhole(txs: seq<Transaction>)
    ensures Part(txs, true) == txs <==> DistinctPlaces(AllVin(txs))
  {
    GoodIsDistinct(txs);
    if DistinctPlaces(AllVin(txs)) {
      DistinctUses(txs);
    }
  }

  /** The positions of the kept, or of the other, transactions among the first n. */
  ghost function Positions(txs: seq<Transaction>, kept: bool, n: nat): seq<nat>
    requires n <= |txs|
  {
    if n == 0 then [] else
      Positions(txs, kept, n - 1) + (if Kept(txs, n - 1) == kept then [n - 1] else [])
  }

  /** Both parts follow the order of the list, and every position is in exactly one. */
  lemma {:induction false} SplitInOrder(txs: seq<Transaction>, kept: bool, n: nat)
    requires n <= |txs|
    ensures var ps := Positions(txs, kept, n);
            && |Part(txs[..n], kept)| == |ps|
            && (forall i | 0 <= i < |ps| :: ps[i] < n && Part(txs[..n], kept)[i] == txs[ps[i]])
            && (forall i, j | 0 <= i < j < |ps| :: ps[i] < ps[j])
            && (forall k | 0 <= k < n :: k in ps <==> Kept(txs, k) == kept)
  {
    if n > 0 {
      var k := n - 1;
      SplitInOrder(txs, kept, k);
      assert txs[..n][..k] == txs[..k];
      assert Kept(txs[..n], k) <==> Kept(txs, k);
    }
  }
}
