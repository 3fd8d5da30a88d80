/** Choosing outputs for a new transaction (ChooseSpendableOutputs in
    node/transactions/unspent.go): the smallest outputs first, so that as many outputs as
    possible are spent. */
module CoinSelection {
  import opened Structures
  import opened Storage
  import opened Pending
  import opened PendingBalance
  import opened Sorting

  function Amount(o: Output): real {
    o.value
  }

  /** Smallest first. */
  ghost predicate ByAmount(outs: seq<Output>) {
    Ascending(outs, Amount)
  }

  /** An output of the address that no pending transaction uses. */
  ghost predicate Spendable(o: Output, pubKeyHash: Bytes, pendinguse: seq<TXInput>) {
    o.destPubKeyHash == pubKeyHash && OutPlace(o) !in Places(pendinguse)
  }

  /** How often an output is listed in the records of the given transactions. */
  ghost function Listed(u: map<Bytes, seq<Output>>, ks: set<Bytes>): multiset<Output>
    requires ks <= u.Keys
  {
    if ks == {} then multiset{} else
      var k :| k in ks;
      Listed(u, ks - {k}) + multiset(u[k])
  }

  lemma {:induction false} ListedTake(u: map<Bytes, seq<Output>>, ks: set<Bytes>, k: Bytes)
    requires ks <= u.Keys && k in ks
    ensures Listed(u, ks) == Listed(u, ks - {k}) + multiset(u[k])
  {
    var x :| x in ks && Listed(u, ks) == Listed(u, ks - {x}) + multiset(u[x]);
    if x != k {
      ListedTake(u, ks - {x}, k);
      ListedTake(u, ks - {k}, x);
      assert ks - {x} - {k} == ks - {k} - {x};
    }
  }

  /** `outs` are the spendable ones among the outputs `from`, each as often as there. */
  ghost predicate SpendableOf(outs: multiset<Output>, from: multiset<Output>, pubKeyHash: Bytes,
                              pendinguse: seq<TXInput>) {
    forall o :: outs[o] == if Spendable(o, pubKeyHash, pendinguse) then from[o] else 0
  }

  method CollectFrom(outs: seq<Output>, pubKeyHash: Bytes, pendinguse: seq<TXInput>, list0: seq<Output>,
                     sum0: real, ghost from: multiset<Output>)
    returns (list: seq<Output>, sum: real)
    requires SpendableOf(multiset(list0), from, pubKeyHash, pendinguse) && sum0 == OutSum(list0)
    ensures SpendableOf(multiset(list), from + multiset(outs), pubKeyHash, pendinguse) && sum == OutSum(list)
  {
    list, sum := list0, sum0;
    for i := 0 to |outs|
      invariant SpendableOf(multiset(list), from + multiset(outs[..i]), pubKeyHash, pendinguse)
      invariant sum == OutSum(list)
    {
      var out := outs[i];
      assert outs[..i + 1] == outs[..i] + [out];
      if out.destPubKeyHash == pubKeyHash {
        var used := IsUsed(out, pendinguse);
        if used {
          continue;
        }
        assert (list + [out])[..|list|] == list;
        sum := sum + out.value;
        list := list + [out];
      }
    }
    assert outs[..|outs|] == outs;
  }

  /** All spendable outputs of the cache, in some order. */
  method CollectSpendable(db: Database, pubKeyHash: Bytes, pendinguse: seq<TXInput>)
    returns (list: seq<Output>, sum: real)
    ensures SpendableOf(multiset(list), Listed(db.unspent, db.unspent.Keys), pubKeyHash, pendinguse)
    ensures sum == OutSum(list)
  {
    list, sum := [], 0.0;
    var keys := db.unspent.Keys;
    ghost var done: multiset<Output> := multiset{};
    while keys != {}
      invariant keys <= db.unspent.Keys
      invariant done + Listed(db.unspent, keys) == Listed(db.unspent, db.unspent.Keys)
      invariant SpendableOf(multiset(list), done, pubKeyHash, pendinguse) && sum == OutSum(list)
      decreases keys
    {
      var txID :| txID in keys;
      ListedTake(db.unspent, keys, txID);
      list, sum := CollectFrom(db.unspent[txID], pubKeyHash, pendinguse, list, sum, done);
      done, keys := done + multiset(db.unspent[txID]), keys - {txID};
    }
  }

  lemma SameRest(a: seq<Output>, o: Output, x: seq<Output>, y: seq<Output>)
    requires multiset(a + [o]) == multiset(x + [o] + y)
    ensures multiset(a) == multiset(x + y)
  {
    var p, q := multiset(a + [o]), multiset(x + [o] + y);
    assert p == multiset(a) + multiset{o};
    assert q == multiset(x) + multiset{o} + multiset(y);
    forall e
      ensures multiset(a)[e] == multiset(x)[e] + multiset(y)[e]
    {
      assert p[e] == q[e];
    }
    assert multiset(x + y) == multiset(x) + multiset(y);
  }

  lemma NoneListed(b: seq<Output>)
    requires multiset(b) == multiset{}
    ensures b == []
  {
    assert |multiset(b)| == |b|;
  }

  lemma TakeOutSum(x: seq<Output>, o: Output, y: seq<Output>)
    ensures OutSum(x + [o] + y) == OutSum(x + y) + o.value
  {
    OutSumAppend(x + [o], y);
    OutSumAppend(x, y);
    assert (x + [o])[..|x|] == x;
  }

  lemma Around(b: seq<Output>, o: Output) returns (x: seq<Output>, y: seq<Output>)
    requires o in b
    ensures b == x + [o] + y
  {
    var i :| 0 <= i < |b| && b[i] == o;
    x, y := b[..i], b[i + 1..];
  }

  /** The order of a list does not change its value. */
  lemma {:induction false} ValueOfMultiset(a: seq<Output>, b: seq<Output>)
    requires multiset(a) == multiset(b)
    ensures OutSum(a) == OutSum(b)
  {
    if a == [] {
      NoneListed(b);
    } else {
      var a', o := a[..|a| - 1], a[|a| - 1];
      assert a == a' + [o] && o in multiset(a);
      var x, y := Around(b, o);
      SameRest(a', o, x, y);
      TakeOutSum(x, o, y);
      ValueOfMultiset(a', x + y);
    }
  }

  /** The ascending prefix that first reaches the amount. */
  method TakeSmallest(sorted: seq<Output>, amount: real) returns (accumulated: real, uo: seq<Output>)
    requires OutSum(sorted) >= amount
    ensures uo <= sorted && accumulated == OutSum(uo)
    ensures sorted != [] ==> uo != []
    ensures amount > 0.0 ==> accumulated >= amount && uo != [] && OutSum(uo[..|uo| - 1]) < amount
  {
    accumulated, uo := 0.0, [];
    for i := 0 to |sorted|
      invariant uo == sorted[..i] && accumulated == OutSum(uo)
      invariant i > 0 ==> accumulated < amount
    {
      assert sorted[..i + 1][..i] == sorted[..i];
      accumulated := accumulated + sorted[i].value;
      uo := uo + [sorted[i]];
      if accumulated >= amount {
        break;
      }
    }
    assert sorted[..|sorted|] == sorted;
  }

  /** Nothing is chosen when the spendable outputs do not reach the amount: then all of
      them are returned.  Otherwise the result starts the ascending list of them. */
  method ChooseSpendableOutputs(db: Database, pubKeyHash: Bytes, amount: real, pendinguse: seq<TXInput>)
    returns (accumulated: real, chosen: seq<Output>, ghost sorted: seq<Output>)
    ensures SpendableOf(multiset(sorted), Listed(db.unspent, db.unspent.Keys), pubKeyHash, pendinguse)
    ensures ByAmount(sorted) && accumulated == OutSum(chosen)
    ensures OutSum(sorted) < amount ==> multiset(chosen) == multiset(sorted)
    ensures OutSum(sorted) >= amount ==> chosen <= sorted
    ensures OutSum(sorted) >= amount > 0.0 ==>
              accumulated >= amount && chosen != [] && OutSum(chosen[..|chosen| - 1]) < amount
    ensures forall o | o in chosen :: o.destPubKeyHash == pubKeyHash
    ensures forall o, i | o in chosen && 0 <= i < |pendinguse| ::
              o.txid != pendinguse[i].txid || o.oIndex != pendinguse[i].vout
  {
    var unspentOutputs;
    unspentOutputs, accumulated := CollectSpendable(db, pubKeyHash, pendinguse);
    var byValue := SortBy(unspentOutputs, Amount);
    ValueOfMultiset(unspentOutputs, byValue);
    sorted := byValue;
    if accumulated >= amount {
      accumulated, chosen := TakeSmallest(byValue, amount);
    } else {
      chosen := unspentOutputs;
    }
    forall o | o in chosen
      ensures Spendable(o, pubKeyHash, pendinguse)
    {
      assert o in multiset(chosen) && o in multiset(sorted);
    }
    forall o, i | o in chosen && 0 <= i < |pendinguse|
      ensures o.txid != pendinguse[i].txid || o.oIndex != pendinguse[i].vout
    {
      assert PlaceOf(pendinguse[i]) in Places(pendinguse) && Spendable(o, pubKeyHash, pendinguse);
    }
  }

  // ----- no selection in which every output is needed is longer

  /** A selection: positions in the list, in order. */
  ghost predicate Selection(sel: seq<nat>, n: nat) {
    (forall i | 0 <= i < |sel| :: sel[i] < n) && (forall i, j | 0 <= i < j < |sel| :: sel[i] < sel[j])
  }

  ghost function Selected(outs: seq<Output>, sel: seq<nat>): (r: seq<Output>)
    requires Selection(sel, |outs|)
    ensures |r| == |sel| && forall i | 0 <= i < |sel| :: r[i] == outs[sel[i]]
  {
    seq(|sel|, i requires 0 <= i < |sel| => outs[sel[i]])
  }

  /** Without any one of its outputs the selection misses the amount. */
  ghost predicate AllNeeded(outs: seq<Output>, sel: seq<nat>, amount: real)
    requires Selection(sel, |outs|)
  {
    forall i | 0 <= i < |sel| :: OutSum(Selected(outs, sel)) - outs[sel[i]].value < amount
  }

  lemma {:induction false} PositionsGrow(sel: seq<nat>, n: nat, i: nat)
    requires Selection(sel, n) && i < |sel|
    ensures sel[i] >= i
  {
    if i > 0 {
      PositionsGrow(sel, n, i - 1);
    }
  }

  /** Any m outputs of an ascending list are worth at least the first m. */
  lemma {:induction false} PrefixIsLeast(outs: seq<Output>, sel: seq<nat>, m: nat)
    requires ByAmount(outs) && Selection(sel, |outs|) && m <= |sel|
    ensures m <= |outs| && OutSum(outs[..m]) <= OutSum(Selected(outs, sel)[..m])
  {
    if m > 0 {
      PrefixIsLeast(outs, sel, m - 1);
      PositionsGrow(sel, |outs|, m - 1);
      assert outs[..m][..m - 1] == outs[..m - 1];
      assert Selected(outs, sel)[..m][..m - 1] == Selected(outs, sel)[..m - 1];
    }
  }

  lemma {:induction false} LongerIsMore(outs: seq<Output>, k: nat, m: nat)
    requires k <= m <= |outs| && forall o | o in outs :: o.value >= 0.0
    ensures OutSum(outs[..k]) <= OutSum(outs[..m])
  {
    if k < m {
      LongerIsMore(outs, k, m - 1);
      assert outs[..m][..m - 1] == outs[..m - 1] && outs[m - 1] in outs;
    }
  }

  /** The prefix that reaches the amount has the most outputs a selection can have in
      which every output is needed. */
  lemma MostOutputs(outs: seq<Output>, k: nat, sel: seq<nat>, amount: real)
    requires ByAmount(outs) && (forall o | o in outs :: o.value >= 0.0)
    requires k <= |outs| && OutSum(outs[..k]) >= amount
    requires Selection(sel, |outs|) && AllNeeded(outs, sel, amount)
    ensures |sel| <= k
  {
    if |sel| > k {
      var m := |sel| - 1;
      var chosen := Selected(outs, sel);
      assert OutSum(chosen) == OutSum(chosen[..m]) + outs[sel[m]].value;
      PrefixIsLeast(outs, sel, m);
      LongerIsMore(outs, k, m);
    }
  }

  lemma {:induction false} FirstPositions(outs: seq<Output>, k: nat, sel: seq<nat>)
    requires k <= |outs| && |sel| == k && forall i | 0 <= i < k :: sel[i] == i
    ensures Selection(sel, |outs|) && Selected(outs, sel) == outs[..k]
  {
  }

  /** And it is such a selection itself when no shorter prefix reaches the amount and no
      output in it can be spared, that is when the rest misses the amount without the
      smallest output. */
  lemma PrefixNeeded(outs: seq<Output>, k: nat, sel: seq<nat>, amount: real)
    requires ByAmount(outs) && 0 < k <= |outs| && |sel| == k && forall i | 0 <= i < k :: sel[i] == i
    ensures Selection(sel, |outs|)
    ensures AllNeeded(outs, sel, amount) <==> OutSum(outs[..k]) - outs[0].value < amount
  {
    FirstPositions(outs, k, sel);
  }
}
