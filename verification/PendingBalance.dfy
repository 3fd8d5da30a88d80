/** The pending balance of an address (getAddressPendingBalance and GetAddressBalance in
    node/transactions/manager.go, GetPreparedBy in node/transactions/pending.go,
    GetInputValue in node/transactions/unspent.go). */
module PendingBalance {
  import opened Structures
  import opened Storage
  import opened Ledger
  import opened Pending
  import opened Supply

  // ----- inputs and outputs of the pool that concern one key

  function Signed(ins: seq<TXInput>, a: Bytes, keyHash: KeyHash): seq<TXInput> {
    if ins == [] then [] else
      Signed(ins[..|ins| - 1], a, keyHash)
      + (if keyHash(ins[|ins| - 1].pubKey) == a then [ins[|ins| - 1]] else [])
  }

  function PoolOutput(tx: Transaction, v: nat): Output
    requires v < |tx.vout|
  {
    LoadFromSimple(tx.vout[v], tx.id, v, if tx.IsCoinbase() || tx.vin == [] then [] else tx.vin[0].pubKey,
                   tx.IsCoinbase(), [])
  }

  /** The first n outputs of a pooled transaction, those of one owner. */
  function Owned(tx: Transaction, a: Bytes, n: nat): seq<Output>
    requires n <= |tx.vout|
  {
    if n == 0 then [] else
      Owned(tx, a, n - 1) + (if tx.vout[n - 1].pubKeyHash == a then [PoolOutput(tx, n - 1)] else [])
  }

  ghost function SignedBy(pool: Pool, order: seq<Bytes>, a: Bytes, keyHash: KeyHash): seq<TXInput>
    requires forall t | t in order :: t in pool
  {
    if order == [] then [] else
      assert order[|order| - 1] in order && forall t | t in order[..|order| - 1] :: t in order;
      SignedBy(pool, order[..|order| - 1], a, keyHash) + Signed(pool[order[|order| - 1]].Spends(), a, keyHash)
  }

  ghost function OwnedBy(pool: Pool, order: seq<Bytes>, a: Bytes): seq<Output>
    requires forall t | t in order :: t in pool
  {
    if order == [] then [] else
      assert order[|order| - 1] in order && forall t | t in order[..|order| - 1] :: t in order;
      var tx := pool[order[|order| - 1]];
      OwnedBy(pool, order[..|order| - 1], a) + Owned(tx, a, |tx.vout|)
  }

  ghost function OutPlaces(outs: seq<Output>): set<Place> {
    set i | 0 <= i < |outs| :: OutPlace(outs[i])
  }

  /** The outputs whose place no listed input names. */
  ghost function Unused(outs: seq<Output>, used: set<Place>): seq<Output> {
    if outs == [] then [] else
      Unused(outs[..|outs| - 1], used)
      + (if OutPlace(outs[|outs| - 1]) in used then [] else [outs[|outs| - 1]])
  }

  /** The inputs whose place is none of the given ones. */
  ghost function FromElsewhere(ins: seq<TXInput>, here: set<Place>): seq<TXInput> {
    if ins == [] then [] else
      FromElsewhere(ins[..|ins| - 1], here)
      + (if PlaceOf(ins[|ins| - 1]) in here then [] else [ins[|ins| - 1]])
  }

  /** The keys of the pool, each once. */
  ghost predicate Enumerates(order: seq<Bytes>, pool: Pool) {
    && (forall t :: t in order <==> t in pool)
    && (forall i, j | 0 <= i < j < |order| :: order[i] != order[j])
  }

  method SignedInputs(tx: Transaction, a: Bytes, keyHash: KeyHash, inputs0: seq<TXInput>) returns (inputs: seq<TXInput>)
    ensures inputs == inputs0 + Signed(tx.Spends(), a, keyHash)
  {
    inputs := inputs0;
    if tx.IsCoinbase() {
      return;
    }
    for i := 0 to |tx.vin|
      invariant inputs == inputs0 + Signed(tx.vin[..i], a, keyHash)
    {
      assert tx.vin[..i + 1][..i] == tx.vin[..i];
      if keyHash(tx.vin[i].pubKey) == a {
        inputs := inputs + [tx.vin[i]];
      }
    }
    assert tx.vin[..|tx.vin|] == tx.vin;
  }

  method OwnedOutputs(tx: Transaction, a: Bytes, outputs0: seq<Output>) returns (outputs: seq<Output>)
    requires |tx.vin| > 0
    ensures outputs == outputs0 + Owned(tx, a, |tx.vout|)
  {
    outputs := outputs0;
    var sender := [];
    if !tx.IsCoinbase() {
      sender := tx.vin[0].pubKey;
    }
    for indV := 0 to |tx.vout|
      invariant outputs == outputs0 + Owned(tx, a, indV)
    {
      if tx.vout[indV].pubKeyHash == a {
        outputs := outputs + [LoadFromSimple(tx.vout[indV], tx.id, indV, sender, tx.IsCoinbase(), [])];
      }
    }
  }

  method IsUsed(vout: Output, inputs: seq<TXInput>) returns (used: bool)
    ensures used <==> OutPlace(vout) in Places(inputs)
  {
    for i := 0 to |inputs|
      invariant forall j | 0 <= j < i :: PlaceOf(inputs[j]) != OutPlace(vout)
    {
      if inputs[i].txid == vout.txid && inputs[i].vout == vout.oIndex {
        assert PlaceOf(inputs[i]) == OutPlace(vout);
        return true;
      }
    }
    return false;
  }

  method IsPending(vin: TXInput, outputs: seq<Output>) returns (pendingout: bool)
    ensures pendingout <==> PlaceOf(vin) in OutPlaces(outputs)
  {
    for i := 0 to |outputs|
      invariant forall j | 0 <= j < i :: OutPlace(outputs[j]) != PlaceOf(vin)
    {
      if vin.txid == outputs[i].txid && vin.vout == outputs[i].oIndex {
        assert OutPlace(outputs[i]) == PlaceOf(vin);
        return true;
      }
    }
    return false;
  }

  /** A pooled transaction has no input: the code reads the key of the first input of every
      transaction that is no coinbase, and ends there in an index out of range. */
  ghost predicate PoolWithoutInputs(pool: Pool) {
    exists t :: t in pool && pool[t].vin == []
  }

  /** The loop over the pool: the keys come in some order. */
  method CollectPrepared(db: Database, a: Bytes, keyHash: KeyHash)
    returns (inputs: seq<TXInput>, outputs: seq<Output>, crashed: bool, ghost order: seq<Bytes>)
    ensures crashed <==> PoolWithoutInputs(db.pool)
    ensures !crashed ==> Enumerates(order, db.pool)
    ensures !crashed ==> inputs == SignedBy(db.pool, order, a, keyHash) && outputs == OwnedBy(db.pool, order, a)
  {
    inputs, outputs, order, crashed := [], [], [], false;
    var keys := db.pool.Keys;
    while keys != {}
      invariant keys <= db.pool.Keys
      invariant forall t :: t in order <==> t in db.pool && t !in keys
      invariant forall i, j | 0 <= i < j < |order| :: order[i] != order[j]
      invariant inputs == SignedBy(db.pool, order, a, keyHash) && outputs == OwnedBy(db.pool, order, a)
      invariant forall t | t in order :: db.pool[t].vin != []
      decreases keys
    {
      var k :| k in keys;
      var tx := db.pool[k];
      if |tx.vin| == 0 {
        crashed := true;
        return;
      }
      assert (order + [k])[..|order|] == order;
      inputs := SignedInputs(tx, a, keyHash, inputs);
      outputs := OwnedOutputs(tx, a, outputs);
      order, keys := order + [k], keys - {k};
    }
  }

  method UnusedOutputs(outputs: seq<Output>, inputs: seq<TXInput>) returns (realoutputs: seq<Output>)
    ensures realoutputs == Unused(outputs, Places(inputs))
  {
    realoutputs := [];
    for i := 0 to |outputs|
      invariant realoutputs == Unused(outputs[..i], Places(inputs))
    {
      assert outputs[..i + 1][..i] == outputs[..i];
      var used := IsUsed(outputs[i], inputs);
      if !used {
        realoutputs := realoutputs + [outputs[i]];
      }
    }
    assert outputs[..|outputs|] == outputs;
  }

  method ApprovedInputs(inputs: seq<TXInput>, outputs: seq<Output>) returns (approvedinputs: seq<TXInput>)
    ensures approvedinputs == FromElsewhere(inputs, OutPlaces(outputs))
  {
    approvedinputs := [];
    for i := 0 to |inputs|
      invariant approvedinputs == FromElsewhere(inputs[..i], OutPlaces(outputs))
    {
      assert inputs[..i + 1][..i] == inputs[..i];
      var pendingout := IsPending(inputs[i], outputs);
      if !pendingout {
        approvedinputs := approvedinputs + [inputs[i]];
      }
    }
    assert inputs[..|inputs|] == inputs;
  }

  method GetPreparedBy(db: Database, a: Bytes, keyHash: KeyHash)
    returns (inputs: seq<TXInput>, realoutputs: seq<Output>, approvedinputs: seq<TXInput>, crashed: bool,
             ghost order: seq<Bytes>)
    ensures crashed <==> PoolWithoutInputs(db.pool)
    ensures !crashed ==>
              && Enumerates(order, db.pool)
              && inputs == SignedBy(db.pool, order, a, keyHash)
              && realoutputs == Unused(OwnedBy(db.pool, order, a), Places(inputs))
              && approvedinputs == FromElsewhere(inputs, OutPlaces(OwnedBy(db.pool, order, a)))
  {
    var outputs;
    inputs, outputs, crashed, order := CollectPrepared(db, a, keyHash);
    if crashed {
      return [], [], [], true, order;
    }
    realoutputs := UnusedOutputs(outputs, inputs);
    approvedinputs := ApprovedInputs(inputs, outputs);
  }

  /** GetInputValue: the value of the first cached output at the place of the input. */
  method GetInputValue(db: Database, input: TXInput) returns (v: real, err: bool)
    ensures err <==> forall c | c in Coins(db.unspent, input.txid) :: c.index != input.vout
    ensures !err ==> exists c :: c in Coins(db.unspent, input.txid) && c.index == input.vout && c.value == v
  {
    if input.txid !in db.unspent {
      return 0.0, true;
    }
    var outs := db.unspent[input.txid];
    for i := 0 to |outs|
      invariant forall j | 0 <= j < i :: Strip(outs)[j].index != input.vout
    {
      if outs[i].oIndex == input.vout {
        assert Strip(outs)[i] in Coins(db.unspent, input.txid);
        return outs[i].value, false;
      }
    }
    return 0.0, true;
  }

  // ----- sums over places

  /** Value of the output at a place of the chain. */
  ghost function PlaceValue(all: seq<Entry>, p: Place): real {
    if 0 <= p.1 < |CoinsAt(all, p.0)| then CoinsAt(all, p.0)[p.1].value else 0.0
  }

  ghost function SumPlaces(all: seq<Entry>, ps: set<Place>): real {
    if ps == {} then 0.0 else
      var p :| p in ps;
      SumPlaces(all, ps - {p}) + PlaceValue(all, p)
  }

  lemma {:induction false} SumTake(all: seq<Entry>, ps: set<Place>, p: Place)
    requires p in ps
    ensures SumPlaces(all, ps) == SumPlaces(all, ps - {p}) + PlaceValue(all, p)
  {
    var x :| x in ps && SumPlaces(all, ps) == SumPlaces(all, ps - {x}) + PlaceValue(all, x);
    if x != p {
      SumTake(all, ps - {x}, p);
      SumTake(all, ps - {p}, x);
      assert ps - {x} - {p} == ps - {p} - {x};
    }
  }

  lemma {:induction false} SumUnion(all: seq<Entry>, a: set<Place>, b: set<Place>)
    requires a !! b
    ensures SumPlaces(all, a + b) == SumPlaces(all, a) + SumPlaces(all, b)
    decreases b
  {
    if p :| p in b {
      SumUnion(all, a, b - {p});
      SumTake(all, b, p);
      SumTake(all, a + b, p);
      assert a + b - {p} == a + (b - {p});
    } else {
      assert a + b == a;
    }
  }

  ghost function InSum(all: seq<Entry>, ins: seq<TXInput>): real {
    if ins == [] then 0.0 else InSum(all, ins[..|ins| - 1]) + PlaceValue(all, PlaceOf(ins[|ins| - 1]))
  }

  ghost function OutSum(outs: seq<Output>): real {
    if outs == [] then 0.0 else OutSum(outs[..|outs| - 1]) + outs[|outs| - 1].value
  }

  lemma OutSumOne(o: Output)
    ensures OutSum([o]) == o.value
  {
    assert [o][..0] == [];
  }

  lemma {:induction false} OutSumAppend(x: seq<Output>, y: seq<Output>)
    ensures OutSum(x + y) == OutSum(x) + OutSum(y)
  {
    if y == [] {
      assert x + y == x;
    } else {
      assert (x + y)[..|x + y| - 1] == x + y[..|y| - 1];
      OutSumAppend(x, y[..|y| - 1]);
    }
  }

  ghost predicate DistinctOuts(outs: seq<Output>) {
    forall i, j | 0 <= i < j < |outs| :: OutPlace(outs[i]) != OutPlace(outs[j])
  }

  /** The value of an output is that of its place. */
  ghost predicate ValuesOk(all: seq<Entry>, outs: seq<Output>) {
    forall i | 0 <= i < |outs| :: outs[i].value == PlaceValue(all, OutPlace(outs[i]))
  }

  lemma OutPlacesSnoc(outs: seq<Output>, n: nat)
    requires n < |outs|
    ensures OutPlaces(outs[..n + 1]) == OutPlaces(outs[..n]) + {OutPlace(outs[n])}
  {
    var a, b := outs[..n], outs[..n + 1];
    forall p
      ensures p in OutPlaces(b) <==> p in OutPlaces(a) || p == OutPlace(outs[n])
    {
      if p in OutPlaces(b) {
        var i :| 0 <= i < |b| && OutPlace(b[i]) == p;
        assert i < n ==> OutPlace(a[i]) == p;
      }
      if p in OutPlaces(a) {
        var i :| 0 <= i < |a| && OutPlace(a[i]) == p;
        assert OutPlace(b[i]) == p;
      }
      assert OutPlace(b[n]) == OutPlace(outs[n]);
    }
  }

  lemma PlacesSnoc(ins: seq<TXInput>, n: nat)
    requires n < |ins|
    ensures Places(ins[..n + 1]) == Places(ins[..n]) + {PlaceOf(ins[n])}
  {
    assert ins[..n + 1] == ins[..n] + [ins[n]];
    PlacesAppend(ins[..n], [ins[n]]);
    assert Places([ins[n]]) == {PlaceOf(ins[n])} by {
      assert [ins[n]][0] == ins[n];
    }
  }

  lemma SumAdd(all: seq<Entry>, ps: set<Place>, p: Place, gone: set<Place>)
    requires p !in ps
    ensures SumPlaces(all, (ps + {p}) - gone)
            == SumPlaces(all, ps - gone) + (if p in gone then 0.0 else PlaceValue(all, p))
  {
    if p in gone {
      assert (ps + {p}) - gone == ps - gone;
    } else {
      SumTake(all, (ps + {p}) - gone, p);
      assert (ps + {p}) - gone - {p} == ps - gone;
    }
  }

  lemma UnusedStep(outs: seq<Output>, n: nat, used: set<Place>)
    requires n < |outs|
    ensures OutSum(Unused(outs[..n + 1], used))
            == OutSum(Unused(outs[..n], used)) + (if OutPlace(outs[n]) in used then 0.0 else outs[n].value)
  {
    assert outs[..n + 1][..n] == outs[..n];
    var k := Unused(outs[..n], used);
    assert (k + [outs[n]])[..|k|] == k && k + [] == k;
  }

  /** Unused outputs are worth the places that are not used. */
  lemma {:induction false} UnusedSum(all: seq<Entry>, outs: seq<Output>, used: set<Place>)
    requires DistinctOuts(outs) && ValuesOk(all, outs)
    ensures OutSum(Unused(outs, used)) == SumPlaces(all, OutPlaces(outs) - used)
  {
    if outs == [] {
      assert OutPlaces(outs) - used == {};
    } else {
      var n := |outs| - 1;
      UnusedSum(all, outs[..n], used);
      OutPlacesSnoc(outs, n);
      UnusedStep(outs, n, used);
      assert outs[..n + 1] == outs;
      assert OutPlace(outs[n]) !in OutPlaces(outs[..n]);
      SumAdd(all, OutPlaces(outs[..n]), OutPlace(outs[n]), used);
    }
  }

  lemma ElsewhereStep(all: seq<Entry>, ins: seq<TXInput>, n: nat, here: set<Place>)
    requires n < |ins|
    ensures InSum(all, FromElsewhere(ins[..n + 1], here))
            == InSum(all, FromElsewhere(ins[..n], here))
               + (if PlaceOf(ins[n]) in here then 0.0 else PlaceValue(all, PlaceOf(ins[n])))
  {
    assert ins[..n + 1][..n] == ins[..n];
    var k := FromElsewhere(ins[..n], here);
    assert (k + [ins[n]])[..|k|] == k && k + [] == k;
  }

  lemma {:induction false} ElsewhereSum(all: seq<Entry>, ins: seq<TXInput>, here: set<Place>)
    requires DistinctPlaces(ins)
    ensures InSum(all, FromElsewhere(ins, here)) == SumPlaces(all, Places(ins) - here)
  {
    if ins == [] {
      assert Places(ins) - here == {};
    } else {
      var n := |ins| - 1;
      ElsewhereSum(all, ins[..n], here);
      PlacesSnoc(ins, n);
      ElsewhereStep(all, ins, n, here);
      assert ins[..n + 1] == ins;
      assert PlaceOf(ins[n]) !in Places(ins[..n]);
      SumAdd(all, Places(ins[..n]), PlaceOf(ins[n]), here);
    }
  }

  /** Leaving out on both sides what is both an output and an input changes no difference. */
  lemma Difference(all: seq<Entry>, outs: set<Place>, ins: set<Place>)
    ensures SumPlaces(all, outs) - SumPlaces(all, ins) == SumPlaces(all, outs - ins) - SumPlaces(all, ins - outs)
  {
    SumUnion(all, outs - ins, outs * ins);
    SumUnion(all, ins - outs, outs * ins);
    assert (outs - ins) + outs * ins == outs && (ins - outs) + outs * ins == ins;
  }

  lemma {:induction false} UnusedAll(outs: seq<Output>)
    ensures Unused(outs, {}) == outs
  {
    if outs != [] {
      UnusedAll(outs[..|outs| - 1]);
    }
  }

  lemma {:induction false} ElsewhereAll(ins: seq<TXInput>)
    ensures FromElsewhere(ins, {}) == ins
  {
    if ins != [] {
      ElsewhereAll(ins[..|ins| - 1]);
    }
  }

  // ----- which places the lists name

  lemma {:induction false} SignedIn(ins: seq<TXInput>, a: Bytes, keyHash: KeyHash, vin: TXInput)
    ensures vin in Signed(ins, a, keyHash) <==> vin in ins && keyHash(vin.pubKey) == a
  {
    if ins != [] {
      var n := |ins| - 1;
      SignedIn(ins[..n], a, keyHash, vin);
      assert ins == ins[..n] + [ins[n]];
    }
  }

  lemma PlaceIn(ins: seq<TXInput>, p: Place)
    ensures p in Places(ins) <==> exists vin :: vin in ins && PlaceOf(vin) == p
  {
    if p in Places(ins) {
      var i :| 0 <= i < |ins| && PlaceOf(ins[i]) == p;
      assert ins[i] in ins;
    }
    if vin :| vin in ins && PlaceOf(vin) == p {
      var i :| 0 <= i < |ins| && ins[i] == vin;
      assert PlaceOf(ins[i]) == p;
    }
  }

  lemma SignedPlaces(ins: seq<TXInput>, a: Bytes, keyHash: KeyHash)
    ensures Places(Signed(ins, a, keyHash)) <= Places(ins)
  {
    forall p | p in Places(Signed(ins, a, keyHash))
      ensures p in Places(ins)
    {
      PlaceIn(Signed(ins, a, keyHash), p);
      PlaceIn(ins, p);
      var vin :| vin in Signed(ins, a, keyHash) && PlaceOf(vin) == p;
      SignedIn(ins, a, keyHash, vin);
    }
  }

  lemma {:induction false} SignedDistinct(ins: seq<TXInput>, a: Bytes, keyHash: KeyHash)
    requires DistinctPlaces(ins)
    ensures DistinctPlaces(Signed(ins, a, keyHash))
  {
    if ins != [] {
      var n := |ins| - 1;
      var k := Signed(ins[..n], a, keyHash);
      assert ins == ins[..n] + [ins[n]];
      DistinctAppend(ins[..n], [ins[n]]);
      SignedDistinct(ins[..n], a, keyHash);
      SignedPlaces(ins[..n], a, keyHash);
      assert Places([ins[n]]) == {PlaceOf(ins[n])} by {
        assert [ins[n]][0] == ins[n];
      }
      DistinctAppend(k, [ins[n]]);
      assert k + [] == k;
    }
  }

  ghost predicate SignedAt(pool: Pool, order: seq<Bytes>, i: int, vin: TXInput, a: Bytes, keyHash: KeyHash) {
    && 0 <= i < |order| && order[i] in pool
    && vin in pool[order[i]].Spends() && keyHash(vin.pubKey) == a
  }

  lemma SignedAtLast(pool: Pool, order: seq<Bytes>, before: seq<Bytes>, vin: TXInput, a: Bytes, keyHash: KeyHash)
    requires order != [] && before == order[..|order| - 1]
    ensures (exists i :: SignedAt(pool, order, i, vin, a, keyHash))
            <==> SignedAt(pool, order, |order| - 1, vin, a, keyHash)
                 || exists i :: SignedAt(pool, before, i, vin, a, keyHash)
  {
    var n := |order| - 1;
    if i :| SignedAt(pool, before, i, vin, a, keyHash) {
      assert SignedAt(pool, order, i, vin, a, keyHash);
    }
    if i :| SignedAt(pool, order, i, vin, a, keyHash) {
      assert i < n ==> SignedAt(pool, before, i, vin, a, keyHash);
    }
  }

  lemma {:induction false} SignedByIn(pool: Pool, order: seq<Bytes>, a: Bytes, keyHash: KeyHash, vin: TXInput)
    requires forall t | t in order :: t in pool
    ensures vin in SignedBy(pool, order, a, keyHash) <==> exists i :: SignedAt(pool, order, i, vin, a, keyHash)
  {
    if order != [] {
      var n := |order| - 1;
      var before, t := order[..n], order[n];
      assert t in order && forall x | x in before :: x in order;
      SignedByIn(pool, before, a, keyHash, vin);
      SignedIn(pool[t].Spends(), a, keyHash, vin);
      SignedAtLast(pool, order, before, vin, a, keyHash);
    }
  }

  /** Two enumerations of the pool name the same input places. */
  lemma SamePlaces(pool: Pool, order: seq<Bytes>, order': seq<Bytes>, a: Bytes, keyHash: KeyHash)
    requires Enumerates(order, pool) && Enumerates(order', pool)
    ensures Places(SignedBy(pool, order, a, keyHash)) <= Places(SignedBy(pool, order', a, keyHash))
  {
    var x, y := SignedBy(pool, order, a, keyHash), SignedBy(pool, order', a, keyHash);
    forall p | p in Places(x)
      ensures p in Places(y)
    {
      PlaceIn(x, p);
      PlaceIn(y, p);
      var vin :| vin in x && PlaceOf(vin) == p;
      SignedByIn(pool, order, a, keyHash, vin);
      SignedByIn(pool, order', a, keyHash, vin);
      var i :| SignedAt(pool, order, i, vin, a, keyHash);
      var j :| 0 <= j < |order'| && order'[j] == order[i];
      assert SignedAt(pool, order', j, vin, a, keyHash);
    }
  }

  ghost predicate Apart(pool: Pool, t: Bytes, t': Bytes)
    requires t in pool && t' in pool
  {
    Places(pool[t].Spends()) !! Places(pool[t'].Spends())
  }

  /** No place is spent twice by the pool. */
  ghost predicate PoolDistinct(pool: Pool) {
    && (forall t | t in pool :: DistinctPlaces(pool[t].Spends()))
    && (forall t, t' {:trigger Apart(pool, t, t')} | t in pool && t' in pool && t != t' :: Apart(pool, t, t'))
  }

  lemma NotSignedBefore(pool: Pool, order: seq<Bytes>, n: nat, a: Bytes, keyHash: KeyHash)
    requires PoolDistinct(pool) && Enumerates(order, pool) && n < |order|
    ensures forall t | t in order[..n] :: t in pool
    ensures Places(SignedBy(pool, order[..n], a, keyHash)) !! Places(Signed(pool[order[n]].Spends(), a, keyHash))
  {
    var x, last := SignedBy(pool, order[..n], a, keyHash), pool[order[n]].Spends();
    SignedPlaces(last, a, keyHash);
    forall p | p in Places(x)
      ensures p !in Places(last)
    {
      PlaceIn(x, p);
      var vin :| vin in x && PlaceOf(vin) == p;
      SignedByIn(pool, order[..n], a, keyHash, vin);
      var i :| SignedAt(pool, order[..n], i, vin, a, keyHash);
      PlaceIn(pool[order[i]].Spends(), p);
      assert Apart(pool, order[i], order[n]);
    }
  }

  lemma {:induction false} SignedByDistinct(pool: Pool, order: seq<Bytes>, n: nat, a: Bytes, keyHash: KeyHash)
    requires PoolDistinct(pool) && Enumerates(order, pool) && n <= |order|
    ensures forall t | t in order[..n] :: t in pool
    ensures DistinctPlaces(SignedBy(pool, order[..n], a, keyHash))
  {
    if n > 0 {
      var k := n - 1;
      SignedByDistinct(pool, order, k, a, keyHash);
      NotSignedBefore(pool, order, k, a, keyHash);
      SignedDistinct(pool[order[k]].Spends(), a, keyHash);
      DistinctAppend(SignedBy(pool, order[..k], a, keyHash), Signed(pool[order[k]].Spends(), a, keyHash));
      assert order[..n][..k] == order[..k];
    }
  }

  ghost predicate OwnedAt(pool: Pool, order: seq<Bytes>, i: int, p: Place, a: Bytes) {
    && 0 <= i < |order| && order[i] in pool && p.0 == pool[order[i]].id
    && 0 <= p.1 < |pool[order[i]].vout| && pool[order[i]].vout[p.1].pubKeyHash == a
  }

  lemma {:induction false} OwnedIn(tx: Transaction, a: Bytes, n: nat, p: Place)
    requires n <= |tx.vout|
    ensures p in OutPlaces(Owned(tx, a, n))
            <==> p.0 == tx.id && 0 <= p.1 < n && tx.vout[p.1].pubKeyHash == a
    ensures DistinctOuts(Owned(tx, a, n))
    ensures forall o | o in Owned(tx, a, n) ::
              o.txid == tx.id && 0 <= o.oIndex < n && o.value == tx.vout[o.oIndex].value
  {
    if n > 0 {
      OwnedIn(tx, a, n - 1, p);
      var k := Owned(tx, a, n - 1);
      var all := k + [PoolOutput(tx, n - 1)];
      OutPlacesSnoc(all, |k|);
      assert all[..|k|] == k && all[..|k| + 1] == all && k + [] == k;
    }
  }

  lemma OutPlacesAppend(x: seq<Output>, y: seq<Output>)
    ensures OutPlaces(x + y) == OutPlaces(x) + OutPlaces(y)
  {
    forall p | p in OutPlaces(x)
      ensures p in OutPlaces(x + y)
    {
      var i :| 0 <= i < |x| && OutPlace(x[i]) == p;
      assert OutPlace((x + y)[i]) == p;
    }
    forall p | p in OutPlaces(y)
      ensures p in OutPlaces(x + y)
    {
      var i :| 0 <= i < |y| && OutPlace(y[i]) == p;
      assert OutPlace((x + y)[|x| + i]) == p;
    }
  }

  lemma OwnedAtLast(pool: Pool, order: seq<Bytes>, before: seq<Bytes>, p: Place, a: Bytes)
    requires order != [] && before == order[..|order| - 1]
    ensures (exists i :: OwnedAt(pool, order, i, p, a))
            <==> OwnedAt(pool, order, |order| - 1, p, a) || exists i :: OwnedAt(pool, before, i, p, a)
  {
    var n := |order| - 1;
    if i :| OwnedAt(pool, before, i, p, a) {
      assert OwnedAt(pool, order, i, p, a);
    }
    if i :| OwnedAt(pool, order, i, p, a) {
      assert i < n ==> OwnedAt(pool, before, i, p, a);
    }
  }

  lemma {:induction false} OwnedByIn(pool: Pool, order: seq<Bytes>, a: Bytes, p: Place)
    requires forall t | t in order :: t in pool
    ensures p in OutPlaces(OwnedBy(pool, order, a)) <==> exists i :: OwnedAt(pool, order, i, p, a)
  {
    if order != [] {
      var n := |order| - 1;
      var before, t := order[..n], order[n];
      assert t in order && forall x | x in before :: x in order;
      OwnedByIn(pool, before, a, p);
      OwnedIn(pool[t], a, |pool[t].vout|, p);
      OutPlacesAppend(OwnedBy(pool, before, a), Owned(pool[t], a, |pool[t].vout|));
      OwnedAtLast(pool, order, before, p, a);
    }
  }

  lemma SameOutPlaces(pool: Pool, order: seq<Bytes>, order': seq<Bytes>, a: Bytes)
    requires Enumerates(order, pool) && Enumerates(order', pool)
    ensures OutPlaces(OwnedBy(pool, order, a)) <= OutPlaces(OwnedBy(pool, order', a))
  {
    forall p | p in OutPlaces(OwnedBy(pool, order, a))
      ensures p in OutPlaces(OwnedBy(pool, order', a))
    {
      OwnedByIn(pool, order, a, p);
      OwnedByIn(pool, order', a, p);
      var i :| OwnedAt(pool, order, i, p, a);
      var j :| 0 <= j < |order'| && order'[j] == order[i];
      assert OwnedAt(pool, order', j, p, a);
    }
  }

  lemma DistinctOutsAppend(x: seq<Output>, y: seq<Output>)
    requires DistinctOuts(x) && DistinctOuts(y) && OutPlaces(x) !! OutPlaces(y)
    ensures DistinctOuts(x + y)
  {
    forall i, j | 0 <= i < j < |x + y|
      ensures OutPlace((x + y)[i]) != OutPlace((x + y)[j])
    {
      if i < |x| <= j {
        assert OutPlace(x[i]) in OutPlaces(x) && OutPlace(y[j - |x|]) in OutPlaces(y);
      }
    }
  }

  lemma {:induction false} OwnedByDistinct(pool: Pool, order: seq<Bytes>, n: nat, a: Bytes)
    requires KeyedById(pool) && Enumerates(order, pool) && n <= |order|
    ensures forall t | t in order[..n] :: t in pool
    ensures DistinctOuts(OwnedBy(pool, order[..n], a))
  {
    if n > 0 {
      var k := n - 1;
      var tx := pool[order[k]];
      var x, y := OwnedBy(pool, order[..k], a), Owned(tx, a, |tx.vout|);
      OwnedByDistinct(pool, order, k, a);
      OwnedIn(tx, a, |tx.vout|, (tx.id, 0));
      forall p | p in OutPlaces(x)
        ensures p !in OutPlaces(y)
      {
        OwnedIn(tx, a, |tx.vout|, p);
        OwnedByIn(pool, order[..k], a, p);
        var i :| OwnedAt(pool, order[..k], i, p, a);
      }
      DistinctOutsAppend(x, y);
      assert order[..n][..k] == order[..k];
    }
  }
}
