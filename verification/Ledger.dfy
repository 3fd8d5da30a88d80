/** The meaning of a chain of transactions: which outputs each transaction has, which
    of them are spent, and what replaying the transactions does to the cache of
    unspent outputs.  Two readings are given and proved equal: the replay, one
    transaction after the other, and the direct one, outputs minus spent indices. */
module Ledger {
  import opened Structures

  /** A transaction and the block that holds it. */
  datatype Entry = Entry(tx: Transaction, block: Hash)

  /** What two records of an output must agree on: value, owner and place.  The
      sender and the coinbase mark are left out, because the code computes them
      differently where it adds, restores and rebuilds records. */
  datatype Coin = Coin(value: real, owner: Bytes, txid: Bytes, index: int, block: Hash)

  type Utxo = map<Bytes, seq<Output>>

  function CoinOf(o: Output): Coin {
    Coin(o.value, o.destPubKeyHash, o.txid, o.oIndex, o.blockHash)
  }

  function Strip(outs: seq<Output>): (r: seq<Coin>)
    ensures |r| == |outs|
  {
    seq(|outs|, i requires 0 <= i < |outs| => CoinOf(outs[i]))
  }

  /** The unspent outputs of transaction `t`; no record means none. */
  function Coins(u: Utxo, t: Bytes): seq<Coin> {
    if t in u then Strip(u[t]) else []
  }

  /** All outputs of an entry. */
  function CoinsOf(e: Entry): (r: seq<Coin>)
    ensures |r| == |e.tx.vout|
    ensures forall i | 0 <= i < |r| :: r[i].index == i
  {
    seq(|e.tx.vout|, i requires 0 <= i < |e.tx.vout| =>
      Coin(e.tx.vout[i].value, e.tx.vout[i].pubKeyHash, e.tx.id, i, e.block))
  }

  /** The coins whose index is not in `spent`, in order. */
  ghost function Keep(cs: seq<Coin>, spent: set<int>): seq<Coin> {
    if cs == [] then [] else
      Keep(cs[..|cs| - 1], spent)
      + (if cs[|cs| - 1].index in spent then [] else [cs[|cs| - 1]])
  }

  lemma {:induction false} KeepIn(cs: seq<Coin>, spent: set<int>, c: Coin)
    ensures c in Keep(cs, spent) <==> c in cs && c.index !in spent
  {
    if cs != [] {
      var n := |cs| - 1;
      KeepIn(cs[..n], spent, c);
      assert cs == cs[..n] + [cs[n]];
    }
  }

  lemma {:induction false} KeepTwice(cs: seq<Coin>, a: set<int>, b: set<int>)
    ensures Keep(Keep(cs, a), b) == Keep(cs, a + b)
  {
    if cs != [] {
      var n := |cs| - 1;
      var k := Keep(cs[..n], a);
      KeepTwice(cs[..n], a, b);
      assert (k + [cs[n]])[..|k|] == k && k + [] == k;
    }
  }

  lemma {:induction false} KeepCong(cs: seq<Coin>, a: set<int>, b: set<int>)
    requires forall c | c in cs :: c.index in a <==> c.index in b
    ensures Keep(cs, a) == Keep(cs, b)
  {
    if cs != [] {
      var n := |cs| - 1;
      assert cs[n] in cs && forall c | c in cs[..n] :: c in cs;
      KeepCong(cs[..n], a, b);
    }
  }

  /** Two selections are equal exactly when they differ on no coin. */
  lemma KeepSame(cs: seq<Coin>, a: set<int>, b: set<int>)
    ensures Keep(cs, a) == Keep(cs, b) <==> forall c | c in cs :: c.index in a <==> c.index in b
  {
    if forall c | c in cs :: c.index in a <==> c.index in b {
      KeepCong(cs, a, b);
    } else {
      var c :| c in cs && !(c.index in a <==> c.index in b);
      KeepIn(cs, a, c);
      KeepIn(cs, b, c);
    }
  }

  lemma {:induction false} KeepNone(cs: seq<Coin>)
    ensures Keep(cs, {}) == cs
  {
    if cs != [] {
      KeepNone(cs[..|cs| - 1]);
    }
  }

  // ----- sequences of entries, read from the end

  ghost function Ids(es: seq<Entry>): set<Bytes> {
    if es == [] then {} else Ids(es[..|es| - 1]) + {es[|es| - 1].tx.id}
  }

  /** Transactions some input of the list refers to. */
  ghost function InputIds(ins: seq<TXInput>): set<Bytes> {
    if ins == [] then {} else InputIds(ins[..|ins| - 1]) + {ins[|ins| - 1].txid}
  }

  ghost function Refs(es: seq<Entry>): set<Bytes> {
    if es == [] then {} else Refs(es[..|es| - 1]) + InputIds(es[|es| - 1].tx.Spends())
  }

  /** Indices of the outputs of `t` that the inputs of the list spend. */
  ghost function InputIndices(ins: seq<TXInput>, t: Bytes): set<int> {
    if ins == [] then {} else
      InputIndices(ins[..|ins| - 1], t)
      + (if ins[|ins| - 1].txid == t then {ins[|ins| - 1].vout} else {})
  }

  ghost function SpentIn(es: seq<Entry>, t: Bytes): set<int> {
    if es == [] then {} else SpentIn(es[..|es| - 1], t) + InputIndices(es[|es| - 1].tx.Spends(), t)
  }

  /** The entry that bears id `t`. */
  ghost function EntryAt(es: seq<Entry>, t: Bytes): Option<Entry> {
    if es == [] then None
    else if es[|es| - 1].tx.id == t then Some(es[|es| - 1])
    else EntryAt(es[..|es| - 1], t)
  }

  /** All outputs of transaction `t`. */
  ghost function CoinsAt(es: seq<Entry>, t: Bytes): seq<Coin> {
    match EntryAt(es, t)
    case Some(e) => CoinsOf(e)
    case None => []
  }

  /** The direct reading: the outputs of `t` without those spent by any entry. */
  ghost function Unspent(es: seq<Entry>, t: Bytes): seq<Coin> {
    Keep(CoinsAt(es, t), SpentIn(es, t))
  }

  /** Transaction ids are unique, and inputs refer only to transactions listed before. */
  ghost predicate Ordered(es: seq<Entry>) {
    es == [] ||
    var e, before := es[|es| - 1], es[..|es| - 1];
    && Ordered(before)
    && e.tx.id !in Ids(before) && e.tx.id !in Refs(es)
  }

  ghost predicate DistinctIds(es: seq<Entry>) {
    forall i, j | 0 <= i < j < |es| :: es[i].tx.id != es[j].tx.id
  }

  /** The output an input spends exists. */
  ghost predicate InputResolves(es: seq<Entry>, vin: TXInput) {
    match EntryAt(es, vin.txid)
    case Some(e) => 0 <= vin.vout < |e.tx.vout|
    case None => false
  }

  ghost predicate TxResolves(es: seq<Entry>, tx: Transaction) {
    && (forall i {:trigger InputResolves(es, tx.Spends()[i])} | 0 <= i < |tx.Spends()| ::
          InputResolves(es, tx.Spends()[i]))
    && (tx.vin == [] ==> tx.vout == [])
  }

  /** Every input spends an output of a transaction listed before, and a transaction
      without inputs has no outputs. */
  ghost predicate Resolved(es: seq<Entry>) {
    es == [] || (Resolved(es[..|es| - 1]) && TxResolves(es[..|es| - 1], es[|es| - 1].tx))
  }

  /** A chain with unique ids whose inputs spend existing outputs of earlier transactions. */
  ghost predicate Sound(es: seq<Entry>) {
    Ordered(es) && Resolved(es)
  }

  lemma {:induction false} IdsAppend(a: seq<Entry>, b: seq<Entry>)
    ensures Ids(a + b) == Ids(a) + Ids(b)
    ensures Refs(a + b) == Refs(a) + Refs(b)
  {
    if b == [] {
      assert a + b == a;
    } else {
      var n := |b| - 1;
      IdsAppend(a, b[..n]);
      assert (a + b)[..|a + b| - 1] == a + b[..n];
    }
  }

  lemma {:induction false} SpentAppend(a: seq<Entry>, b: seq<Entry>, t: Bytes)
    ensures SpentIn(a + b, t) == SpentIn(a, t) + SpentIn(b, t)
    ensures EntryAt(a + b, t) == if t in Ids(b) then EntryAt(b, t) else EntryAt(a, t)
  {
    if b == [] {
      assert a + b == a;
    } else {
      var n := |b| - 1;
      SpentAppend(a, b[..n], t);
      assert (a + b)[..|a + b| - 1] == a + b[..n];
    }
  }

  lemma {:induction false} OrderedPrefix(a: seq<Entry>, b: seq<Entry>)
    requires Ordered(a + b)
    ensures Ordered(a)
  {
    if b == [] {
      assert a + b == a;
    } else {
      assert (a + b)[..|a + b| - 1] == a + b[..|b| - 1];
      OrderedPrefix(a, b[..|b| - 1]);
    }
  }

  /** In an ordered chain later ids are new: neither listed nor referred to before. */
  lemma {:induction false} OrderedFresh(a: seq<Entry>, b: seq<Entry>)
    requires Ordered(a + b)
    ensures Ids(a) !! Ids(b) && Refs(a) !! Ids(b)
  {
    if b != [] {
      var n := |b| - 1;
      assert (a + b)[..|a + b| - 1] == a + b[..n];
      OrderedFresh(a, b[..n]);
      IdsAppend(a, b[..n]);
      IdsAppend(a, b);
    }
  }

  lemma {:induction false} InputIndicesRef(ins: seq<TXInput>, t: Bytes)
    ensures t !in InputIds(ins) ==> InputIndices(ins, t) == {}
  {
    if ins != [] {
      InputIndicesRef(ins[..|ins| - 1], t);
    }
  }

  lemma {:induction false} SpentNeedsRef(es: seq<Entry>, t: Bytes)
    ensures t !in Refs(es) ==> SpentIn(es, t) == {}
  {
    if es != [] {
      SpentNeedsRef(es[..|es| - 1], t);
      InputIndicesRef(es[|es| - 1].tx.Spends(), t);
    }
  }

  lemma {:induction false} HasEntry(es: seq<Entry>, t: Bytes)
    ensures t in Ids(es) <==> EntryAt(es, t).Some?
    ensures t in Ids(es) ==> EntryAt(es, t).value.tx.id == t && EntryAt(es, t).value in es
  {
    if es != [] {
      HasEntry(es[..|es| - 1], t);
    }
  }

  lemma {:induction false} IdsIn(es: seq<Entry>, t: Bytes)
    ensures t in Ids(es) <==> exists i :: 0 <= i < |es| && es[i].tx.id == t
  {
    if es != [] {
      var n := |es| - 1;
      IdsIn(es[..n], t);
      if t in Ids(es[..n]) {
        var i :| 0 <= i < n && es[..n][i].tx.id == t;
        assert es[i].tx.id == t;
      }
      if i :| 0 <= i < |es| && es[i].tx.id == t {
        assert i < n ==> es[..n][i].tx.id == t;
      }
    }
  }

  /** With unique ids any entry that bears the id is the one found. */
  lemma {:induction false} EntryAtIndex(a: seq<Entry>, b: seq<Entry>, i: nat)
    requires Ordered(a + b) && i < |b|
    ensures EntryAt(b, b[i].tx.id) == Some(b[i])
  {
    var b', e := b[..|b| - 1], b[|b| - 1];
    if i < |b'| {
      var c := a + b';
      assert (a + b)[..|a + b| - 1] == c;
      EntryAtIndex(a, b', i);
      IdsAppend(a, b');
      IdsIn(b', b'[i].tx.id);
      assert e.tx.id !in Ids(b');
    }
  }

  lemma {:induction false} ResolvedPrefix(a: seq<Entry>, b: seq<Entry>)
    requires Resolved(a + b)
    ensures Resolved(a)
  {
    if b == [] {
      assert a + b == a;
    } else {
      assert (a + b)[..|a + b| - 1] == a + b[..|b| - 1];
      ResolvedPrefix(a, b[..|b| - 1]);
    }
  }

  lemma {:induction false} ResolvedAt(a: seq<Entry>, b: seq<Entry>, i: nat)
    requires Resolved(a + b) && i < |b|
    ensures TxResolves(a + b[..i], b[i].tx)
  {
    var b', e := b[..|b| - 1], b[|b| - 1];
    assert (a + b)[..|a + b| - 1] == a + b';
    if i < |b'| {
      ResolvedAt(a, b', i);
      assert b'[..i] == b[..i];
    }
  }

  lemma {:induction false} ResolvedHas(es: seq<Entry>, e: Entry)
    requires Resolved(es) && e in es
    ensures e.tx.vin == [] ==> e.tx.vout == []
  {
    if e != es[|es| - 1] {
      ResolvedHas(es[..|es| - 1], e);
    }
  }

  // ----- replaying transactions on the cache

  ghost function DropIndex(outs: seq<Output>, v: int): seq<Output> {
    if outs == [] then [] else
      DropIndex(outs[..|outs| - 1], v)
      + (if outs[|outs| - 1].oIndex != v then [outs[|outs| - 1]] else [])
  }

  ghost function RemoveInput(u: Utxo, vin: TXInput): Utxo {
    if vin.txid !in u then u else
      var outs := DropIndex(u[vin.txid], vin.vout);
      if outs == [] then u - {vin.txid} else u[vin.txid := outs]
  }

  ghost function RemoveInputs(u: Utxo, ins: seq<TXInput>): Utxo {
    if ins == [] then u else RemoveInput(RemoveInputs(u, ins[..|ins| - 1]), ins[|ins| - 1])
  }

  /** The records written for a new transaction; the sender is the key of its last input. */
  function NewOutputs(e: Entry, sender: Bytes): (r: seq<Output>)
    ensures |r| == |e.tx.vout|
  {
    seq(|e.tx.vout|, i requires 0 <= i < |e.tx.vout| =>
      LoadFromSimple(e.tx.vout[i], e.tx.id, i, sender, e.tx.IsCoinbase(), e.block))
  }

  function Sender(tx: Transaction, keyHash: KeyHash): Bytes {
    if tx.Spends() == [] then [] else keyHash(tx.vin[|tx.vin| - 1].pubKey)
  }

  ghost function AddTx(u: Utxo, e: Entry, keyHash: KeyHash): Utxo {
    RemoveInputs(u, e.tx.Spends())[e.tx.id := NewOutputs(e, Sender(e.tx, keyHash))]
  }

  /** Adding the entries one after the other. */
  ghost function Replay(u: Utxo, es: seq<Entry>, keyHash: KeyHash): Utxo {
    if es == [] then u else AddTx(Replay(u, es[..|es| - 1], keyHash), es[|es| - 1], keyHash)
  }

  lemma ReplaySnoc(u: Utxo, es: seq<Entry>, e: Entry, keyHash: KeyHash)
    ensures Replay(u, es + [e], keyHash) == AddTx(Replay(u, es, keyHash), e, keyHash)
  {
    assert (es + [e])[..|es|] == es;
  }

  lemma ReplayLast(u: Utxo, es: seq<Entry>, before: seq<Entry>, e: Entry, keyHash: KeyHash)
    requires es == before + [e]
    ensures Replay(u, es, keyHash) == AddTx(Replay(u, before, keyHash), e, keyHash)
  {
    ReplaySnoc(u, before, e, keyHash);
  }

  lemma {:induction false} ReplayAppend(u: Utxo, a: seq<Entry>, b: seq<Entry>, keyHash: KeyHash)
    ensures Replay(u, a + b, keyHash) == Replay(Replay(u, a, keyHash), b, keyHash)
  {
    if b == [] {
      assert a + b == a;
    } else {
      var b', e := b[..|b| - 1], b[|b| - 1];
      assert b == b' + [e] && a + b == (a + b') + [e];
      ReplayAppend(u, a, b', keyHash);
      ReplayLast(u, a + b, a + b', e, keyHash);
      ReplayLast(Replay(u, a, keyHash), b, b', e, keyHash);
    }
  }

  lemma {:induction false} StripDrop(outs: seq<Output>, v: int)
    ensures Strip(DropIndex(outs, v)) == Keep(Strip(outs), {v})
  {
    if outs != [] {
      var n := |outs| - 1;
      StripDrop(outs[..n], v);
      assert Strip(outs)[..n] == Strip(outs[..n]);
      var d := DropIndex(outs[..n], v);
      assert Strip(d + [outs[n]]) == Strip(d) + [CoinOf(outs[n])];
    }
  }

  lemma CoinsAfterInput(u: Utxo, vin: TXInput, t: Bytes)
    ensures Coins(RemoveInput(u, vin), t) ==
            if t == vin.txid then Keep(Coins(u, t), {vin.vout}) else Coins(u, t)
  {
    if vin.txid in u {
      StripDrop(u[vin.txid], vin.vout);
    }
  }

  lemma {:induction false} CoinsAfterInputs(u: Utxo, ins: seq<TXInput>, t: Bytes)
    ensures Coins(RemoveInputs(u, ins), t) == Keep(Coins(u, t), InputIndices(ins, t))
  {
    if ins == [] {
      KeepNone(Coins(u, t));
    } else {
      var n := |ins| - 1;
      CoinsAfterInputs(u, ins[..n], t);
      CoinsAfterInput(RemoveInputs(u, ins[..n]), ins[n], t);
      KeepTwice(Coins(u, t), InputIndices(ins[..n], t), {ins[n].vout});
      assert InputIndices(ins[..n], t) + {} == InputIndices(ins[..n], t);
    }
  }

  lemma CoinsAfterTx(u: Utxo, e: Entry, keyHash: KeyHash, t: Bytes)
    ensures Coins(AddTx(u, e, keyHash), t) ==
            if t == e.tx.id then CoinsOf(e) else Keep(Coins(u, t), InputIndices(e.tx.Spends(), t))
  {
    CoinsAfterInputs(u, e.tx.Spends(), t);
    assert Strip(NewOutputs(e, Sender(e.tx, keyHash))) == CoinsOf(e);
  }

  /** The fields of the records that adding a transaction writes: the sender is the owner of the
      key of the last input, and nobody for a coinbase. */
  lemma RecordWritten(u: Utxo, e: Entry, keyHash: KeyHash, i: nat)
    requires i < |e.tx.vout|
    ensures var u' := AddTx(u, e, keyHash);
            && e.tx.id in u' && |u'[e.tx.id]| == |e.tx.vout|
            && var o, ins := u'[e.tx.id][i], e.tx.vin;
               && o.value == e.tx.vout[i].value && o.destPubKeyHash == e.tx.vout[i].pubKeyHash
               && o.txid == e.tx.id && o.oIndex == i && o.blockHash == e.block
               && (o.isBase <==> e.tx.IsCoinbase())
               && o.sendPubKeyHash == (if e.tx.IsCoinbase() || ins == [] then []
                                       else keyHash(ins[|ins| - 1].pubKey))
  {
  }

  lemma {:induction false} RemovedEmpty(u: Utxo, ins: seq<TXInput>, t: Bytes)
    ensures t in RemoveInputs(u, ins) && RemoveInputs(u, ins)[t] == [] ==> t in u && u[t] == []
  {
    if ins != [] {
      RemovedEmpty(u, ins[..|ins| - 1], t);
    }
  }

  /** Records that run empty are deleted: an empty record in the cache was there before, or
      belongs to a transaction without outputs. */
  lemma {:induction false} ReplayedEmpty(u: Utxo, es: seq<Entry>, keyHash: KeyHash, t: Bytes)
    ensures var u' := Replay(u, es, keyHash);
            t in u' && u'[t] == [] ==>
              (t in u && u[t] == []) || exists e :: e in es && e.tx.id == t && e.tx.vout == []
  {
    if es != [] {
      var e, before := es[|es| - 1], es[..|es| - 1];
      ReplayedEmpty(u, before, keyHash, t);
      RemovedEmpty(Replay(u, before, keyHash), e.tx.Spends(), t);
      assert e in es && forall x | x in before :: x in es;
    }
  }

  /** The cache holds exactly the unspent outputs of the chain. */
  ghost predicate Tracks(u: Utxo, es: seq<Entry>) {
    forall t :: Coins(u, t) == Unspent(es, t)
  }

  // ----- chains in any order, with transactions listed again

  /** Indices of the outputs of `t` spent after the last entry that bears the id `t`. */
  ghost function SpentSince(es: seq<Entry>, t: Bytes): set<int> {
    if es == [] || es[|es| - 1].tx.id == t then {} else
      SpentSince(es[..|es| - 1], t) + InputIndices(es[|es| - 1].tx.Spends(), t)
  }

  lemma {:induction false} SinceIsSpent(es: seq<Entry>, t: Bytes)
    ensures SpentSince(es, t) <= SpentIn(es, t)
    ensures t !in Ids(es) ==> SpentSince(es, t) == SpentIn(es, t)
  {
    if es != [] {
      SinceIsSpent(es[..|es| - 1], t);
    }
  }

  /** What replaying leaves of `t`, whatever the entries are: a transaction listed again gets
      all its outputs back, and what was spent of them before no longer counts. */
  lemma {:induction false} CoinsAfterReplay(u: Utxo, es: seq<Entry>, keyHash: KeyHash, t: Bytes)
    ensures Coins(Replay(u, es, keyHash), t)
            == Keep(if t in Ids(es) then CoinsAt(es, t) else Coins(u, t), SpentSince(es, t))
  {
    if es == [] {
      KeepNone(Coins(u, t));
    } else {
      var before, e := es[..|es| - 1], es[|es| - 1];
      CoinsAfterReplay(u, before, keyHash, t);
      CoinsAfterTx(Replay(u, before, keyHash), e, keyHash, t);
      if t == e.tx.id {
        KeepNone(CoinsOf(e));
      } else {
        KeepTwice(if t in Ids(before) then CoinsAt(before, t) else Coins(u, t),
                  SpentSince(before, t), InputIndices(e.tx.Spends(), t));
      }
    }
  }

  /** An output that was spent comes back, because its transaction is listed again in `b`. */
  ghost predicate ComesBack(a: seq<Entry>, b: seq<Entry>, t: Bytes, c: Coin) {
    && t in Ids(b) && c in CoinsAt(b, t)
    && c.index in SpentIn(a + b, t) && c.index !in SpentSince(b, t)
  }

  ghost predicate NoneBackAt(a: seq<Entry>, b: seq<Entry>, t: Bytes) {
    forall c :: !ComesBack(a, b, t, c)
  }

  ghost predicate NoneComesBack(a: seq<Entry>, b: seq<Entry>) {
    forall t {:trigger NoneBackAt(a, b, t)} :: NoneBackAt(a, b, t)
  }

  lemma ListedAgain(a: seq<Entry>, b: seq<Entry>, t: Bytes)
    requires t in Ids(b)
    ensures Keep(CoinsAt(b, t), SpentSince(b, t)) == Unspent(a + b, t) <==> forall c :: !ComesBack(a, b, t, c)
  {
    SpentAppend(a, b, t);
    SinceIsSpent(b, t);
    assert CoinsAt(a + b, t) == CoinsAt(b, t);
    var cs, since, spent := CoinsAt(b, t), SpentSince(b, t), SpentIn(a + b, t);
    assert since <= spent;
    KeepSame(cs, since, spent);
    if forall c | c in cs :: c.index in since <==> c.index in spent {
      forall c
        ensures !ComesBack(a, b, t, c)
      {
      }
    } else {
      var c :| c in cs && !(c.index in since <==> c.index in spent);
      assert ComesBack(a, b, t, c);
    }
  }

  lemma NotListedAgain(u: Utxo, a: seq<Entry>, b: seq<Entry>, keyHash: KeyHash, t: Bytes)
    requires t !in Ids(b) && Coins(u, t) == Unspent(a, t)
    ensures Coins(Replay(u, b, keyHash), t) == Unspent(a + b, t)
  {
    CoinsAfterReplay(u, b, keyHash, t);
    SinceIsSpent(b, t);
    SpentAppend(a, b, t);
    KeepTwice(CoinsAt(a, t), SpentIn(a, t), SpentIn(b, t));
  }

  lemma ReplayExactAt(u: Utxo, a: seq<Entry>, b: seq<Entry>, keyHash: KeyHash, t: Bytes)
    requires t in Ids(b) || Coins(u, t) == Unspent(a, t)
    ensures Coins(Replay(u, b, keyHash), t) == Unspent(a + b, t) <==> NoneBackAt(a, b, t)
  {
    if t in Ids(b) {
      CoinsAfterReplay(u, b, keyHash, t);
      ListedAgain(a, b, t);
    } else {
      NotListedAgain(u, a, b, keyHash, t);
      forall c
        ensures !ComesBack(a, b, t, c)
      {
      }
    }
  }

  /** Whatever is added to a correct cache, it stays correct exactly when no output that was
      spent comes back. */
  lemma ReplayExact(u: Utxo, a: seq<Entry>, b: seq<Entry>, keyHash: KeyHash)
    requires Tracks(u, a)
    ensures Tracks(Replay(u, b, keyHash), a + b) <==> NoneComesBack(a, b)
  {
    forall t
      ensures Coins(Replay(u, b, keyHash), t) == Unspent(a + b, t) <==> NoneBackAt(a, b, t)
    {
      ReplayExactAt(u, a, b, keyHash, t);
    }
  }

  /** On an ordered chain none does. */
  lemma {:induction false} OrderedSince(a: seq<Entry>, b: seq<Entry>, t: Bytes)
    requires Ordered(a + b) && t in Ids(b)
    ensures SpentIn(a + b, t) == SpentSince(b, t)
  {
    var b', e := b[..|b| - 1], b[|b| - 1];
    assert (a + b)[..|a + b| - 1] == a + b';
    if t == e.tx.id {
      SpentNeedsRef(a + b, t);
    } else {
      OrderedSince(a, b', t);
    }
  }

  lemma OrderedNoneBack(a: seq<Entry>, b: seq<Entry>)
    requires Ordered(a + b)
    ensures NoneComesBack(a, b)
  {
    forall t
      ensures NoneBackAt(a, b, t)
    {
      if t in Ids(b) {
        OrderedSince(a, b, t);
      }
    }
  }

  /** Adding transactions to a correct cache gives the correct cache of the longer chain. */
  lemma TracksReplay(u: Utxo, a: seq<Entry>, b: seq<Entry>, keyHash: KeyHash)
    requires Tracks(u, a) && Ordered(a + b)
    ensures Tracks(Replay(u, b, keyHash), a + b)
  {
    ReplayExact(u, a, b, keyHash);
    OrderedNoneBack(a, b);
  }

  /** Both readings of an ordered chain agree. */
  lemma ReplayIsUnspent(es: seq<Entry>, keyHash: KeyHash)
    requires Ordered(es)
    ensures Tracks(Replay(map[], es, keyHash), es)
  {
    assert Tracks(map[], []);
    assert [] + es == es;
    TracksReplay(map[], [], es, keyHash);
  }
}
