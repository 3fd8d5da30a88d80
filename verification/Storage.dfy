/** The node's database: every bucket is a map that is updated in one step.
    The bucket of chain links is kept as the bytes that node/database/blockchain.go
    writes: for each block of the primary branch the hash before it and the hash
    after it, side by side, with zero bytes where there is none. */
module Storage {
  import opened Structures
  import Tree

  datatype DBError = NoError | HashEmpty | HashNotFound | HasNextHash | NotLastHash

  /** A record of the transaction index: where an output was spent. */
  datatype Spend = Spend(outInd: int, txWhereUsed: Bytes, inInd: int, blockHash: Hash)

  type Links = map<Hash, Bytes>

  ghost predicate Uniform(c: Links, n: nat) {
    forall h | h in c :: |h| == n && |c[h]| == 2 * n
  }

  function Pad(h: Hash, n: nat): (r: Bytes)
    ensures h != [] ==> r == h
    ensures h == [] ==> |r| == n
  {
    if h == [] then Tree.Zeros(n) else h
  }

  /** The reading of one half of a record. */
  function Unpad(b: Bytes): Hash {
    if b == Tree.Zeros(|b|) then [] else b
  }

  ghost function NextOf(c: Links, h: Hash): Hash
    requires h in c && |c[h]| == 2 * |h|
  {
    Unpad(c[h][|h|..])
  }

  ghost function PrevOf(c: Links, h: Hash): Hash
    requires h in c && |c[h]| == 2 * |h|
  {
    Unpad(c[h][..|h|])
  }

  ghost function AddError(c: Links, hash: Hash, prev: Hash): DBError
    requires Uniform(c, |hash|)
  {
    if hash == [] then HashEmpty
    else if prev == [] then NoError
    else if prev !in c then HashNotFound
    else if NextOf(c, prev) != [] then HasNextHash
    else NoError
  }

  ghost function AddLink(c: Links, hash: Hash, prev: Hash): Links
    requires Uniform(c, |hash|) && AddError(c, hash, prev).NoError?
  {
    var n := |hash|;
    var c' := if prev == [] then c else c[prev := c[prev][..n] + hash];
    c'[hash := Pad(prev, n) + Tree.Zeros(n)]
  }

  ghost function RemoveError(c: Links, hash: Hash): DBError
    requires Uniform(c, |hash|)
  {
    if hash == [] then HashEmpty
    else if hash !in c then HashNotFound
    else if NextOf(c, hash) != [] then NotLastHash
    else if PrevOf(c, hash) != [] && PrevOf(c, hash) !in c then HashNotFound
    else NoError
  }

  ghost function RemoveLink(c: Links, hash: Hash): Links
    requires Uniform(c, |hash|) && RemoveError(c, hash).NoError?
  {
    var n := |hash|;
    var prev := PrevOf(c, hash);
    var c' := if prev == [] then c else c[prev := c[prev][..n] + Tree.Zeros(n)];
    c' - {hash}
  }

  class Database {
    var blocks: map<Hash, Block>
    var topHash: Hash
    var firstHash: Hash
    var chain: Links
    var txBlocks: map<Bytes, seq<Hash>>
    var spends: map<Bytes, seq<Spend>>
    var unspent: map<Bytes, seq<Output>>
    var pool: map<Bytes, Transaction>

    constructor ()
      ensures blocks == map[] && topHash == [] && firstHash == [] && chain == map[]
      ensures txBlocks == map[] && spends == map[] && unspent == map[] && pool == map[]
    {
      blocks, topHash, firstHash, chain := map[], [], [], map[];
      txBlocks, spends, unspent, pool := map[], map[], map[], map[];
    }

    method AddToChain(hash: Hash, prevHash: Hash) returns (err: DBError)
      requires Uniform(chain, |hash|)
      modifies `chain
      ensures err == AddError(old(chain), hash, prevHash)
      ensures chain == if err.NoError? then AddLink(old(chain), hash, prevHash) else old(chain)
    {
      var length := |hash|;
      if length == 0 {
        return HashEmpty;
      }
      var emptyHash := Tree.Zeros(length);
      var hashBytes := Tree.Zeros(length * 2);
      if |prevHash| > 0 {
        if prevHash !in chain {
          return HashNotFound;
        }
        var prRec := chain[prevHash];
        var exNext := prRec[length..];
        if exNext != emptyHash {
          return HasNextHash;
        }
        prRec := prRec[..length] + hash;
        chain := chain[prevHash := prRec];
        hashBytes := prevHash + hashBytes[length..];
      }
      assert hashBytes == Pad(prevHash, length) + Tree.Zeros(length);
      chain := chain[hash := hashBytes];
      return NoError;
    }

    method RemoveFromChain(hash: Hash) returns (err: DBError)
      requires Uniform(chain, |hash|)
      modifies `chain
      ensures err == RemoveError(old(chain), hash)
      ensures chain == if err.NoError? then RemoveLink(old(chain), hash) else old(chain)
    {
      var length := |hash|;
      if length == 0 {
        return HashEmpty;
      }
      var emptyHash := Tree.Zeros(length);
      if hash !in chain {
        return HashNotFound;
      }
      var hashBytes := chain[hash];
      var nextHash := hashBytes[length..];
      if nextHash != emptyHash {
        return NotLastHash;
      }
      var prevHash := hashBytes[..length];
      if prevHash != emptyHash {
        if prevHash !in chain {
          return HashNotFound;
        }
        var prevHashBytes := chain[prevHash][..length] + emptyHash;
        chain := chain[prevHash := prevHashBytes];
      }
      chain := chain - {hash};
      return NoError;
    }

    method BlockInChain(hash: Hash) returns (found: bool, err: DBError)
      requires Uniform(chain, |hash|)
      ensures hash == [] ==> err == HashEmpty && !found
      ensures hash != [] ==> err == NoError && (found <==> hash in chain)
    {
      if |hash| == 0 {
        return false, HashEmpty;
      }
      found := hash in chain && |chain[hash]| == |hash| * 2;
      err := NoError;
    }

    method GetLocationInChain(hash: Hash)
      returns (found: bool, prevHash: Hash, nextHash: Hash, err: DBError)
      requires Uniform(chain, |hash|)
      ensures hash == [] ==> err == HashEmpty && !found
      ensures hash != [] ==> err == NoError && (found <==> hash in chain)
      ensures found ==> prevHash == PrevOf(chain, hash) && nextHash == NextOf(chain, hash)
      ensures !found ==> prevHash == [] && nextHash == []
    {
      var length := |hash|;
      found, prevHash, nextHash := false, [], [];
      if length == 0 {
        err := HashEmpty;
        return;
      }
      err := NoError;
      if hash in chain && |chain[hash]| == length * 2 {
        var h := chain[hash];
        prevHash, nextHash := h[..length], h[length..];
        if prevHash == Tree.Zeros(length) {
          prevHash := [];
        }
        if nextHash == Tree.Zeros(length) {
          nextHash := [];
        }
        found := true;
      }
    }
  }
}

/** The link index as a doubly linked list: when it holds a path, and what
    appending to and removing from its end do to that path. */
module LinkIndex {
  import opened Structures
  import opened Storage
  import Tree

  ghost predicate Differ(a: Hash, b: Hash) {
    a != b
  }

  ghost predicate HashAt(p: seq<Hash>, i: int)
    requires 0 <= i < |p|
  {
    |p[i]| == |p[0]| && p[i] != Tree.Zeros(|p[0]|)
  }

  /** A path of distinct hashes of one length, none of them all zero. */
  ghost predicate GoodPath(p: seq<Hash>) {
    && 0 < |p| && 0 < |p[0]|
    && (forall i {:trigger HashAt(p, i)} | 0 <= i < |p| :: HashAt(p, i))
    && (forall i, j {:trigger Differ(p[i], p[j])} | 0 <= i < j < |p| :: Differ(p[i], p[j]))
  }

  ghost function Before(p: seq<Hash>, i: int): Hash
    requires 0 <= i < |p|
  {
    if i == 0 then [] else p[i - 1]
  }

  ghost function After(p: seq<Hash>, i: int): Hash
    requires 0 <= i < |p|
  {
    if i == |p| - 1 then [] else p[i + 1]
  }

  ghost predicate LinkedAt(c: Links, p: seq<Hash>, i: int)
    requires 0 <= i < |p|
  {
    && p[i] in c && |c[p[i]]| == 2 * |p[i]|
    && PrevOf(c, p[i]) == Before(p, i) && NextOf(c, p[i]) == After(p, i)
  }

  /** The index holds the blocks of `p` and nothing else, each with its neighbours. */
  ghost predicate Indexes(c: Links, p: seq<Hash>) {
    && GoodPath(p)
    && (forall h | h in c :: h in p)
    && (forall i {:trigger LinkedAt(c, p, i)} | 0 <= i < |p| :: LinkedAt(c, p, i))
  }

  /** The bytes of a record: the hash before and the hash after on the path, zeros for none. */
  lemma RecordBytes(c: Links, p: seq<Hash>, i: nat)
    requires Indexes(c, p) && i < |p|
    ensures p[i] in c
    ensures var none := Tree.Zeros(|p[0]|);
            c[p[i]] == (if i == 0 then none else p[i - 1]) + (if i == |p| - 1 then none else p[i + 1])
  {
    assert LinkedAt(c, p, i) && HashAt(p, i);
    var n, record := |p[0]|, c[p[i]];
    assert i > 0 ==> HashAt(p, i - 1);
    assert i < |p| - 1 ==> HashAt(p, i + 1);
    assert record == record[..n] + record[n..];
  }

  /** What the errors tell of an index of a path: an unknown hash, a hash that is not the last,
      and success exactly for the last one. */
  lemma LinkErrors(c: Links, p: seq<Hash>, hash: Hash, prev: Hash)
    requires Indexes(c, p) && Uniform(c, |hash|) && hash != []
    ensures prev != [] ==>
              var err := AddError(c, hash, prev);
              && (prev !in p <==> err == HashNotFound)
              && (prev in p && prev != p[|p| - 1] <==> err == HasNextHash)
              && (prev == p[|p| - 1] <==> err == NoError)
    ensures var err := RemoveError(c, hash);
            && (hash !in p <==> err == HashNotFound)
            && (hash in p && hash != p[|p| - 1] <==> err == NotLastHash)
            && (hash == p[|p| - 1] <==> err == NoError)
  {
    LinkKnown(c, p, prev);
    LinkKnown(c, p, hash);
  }

  lemma LinkKnown(c: Links, p: seq<Hash>, h: Hash)
    requires Indexes(c, p)
    ensures h in c <==> h in p
    ensures h in c ==> |c[h]| == 2 * |h| && (NextOf(c, h) == [] <==> h == p[|p| - 1])
    ensures h in c && PrevOf(c, h) != [] ==> PrevOf(c, h) in c
  {
    assert LinkedAt(c, p, |p| - 1);
    if h in p {
      var i :| 0 <= i < |p| && p[i] == h;
      assert LinkedAt(c, p, i) && HashAt(p, i);
      if i < |p| - 1 {
        assert HashAt(p, i + 1) && Differ(p[i], p[|p| - 1]);
      }
      if i > 0 {
        assert LinkedAt(c, p, i - 1);
      }
    }
  }

  /** A path element and the reading of its record. */
  lemma At(c: Links, p: seq<Hash>, i: nat)
    requires Indexes(c, p) && i < |p|
    ensures |p[i]| == |p[0]| && p[i] != Tree.Zeros(|p[0]|) && p[i] != []
    ensures p[i] in c && |c[p[i]]| == 2 * |p[0]|
    ensures PrevOf(c, p[i]) == Before(p, i) && NextOf(c, p[i]) == After(p, i)
  {
    assert HashAt(p, i) && LinkedAt(c, p, i);
  }

  lemma IndexUniform(c: Links, p: seq<Hash>)
    requires Indexes(c, p)
    ensures Uniform(c, |p[0]|)
  {
    forall h | h in c
      ensures |h| == |p[0]| && |c[h]| == 2 * |p[0]|
    {
      var i :| 0 <= i < |p| && p[i] == h;
      At(c, p, i);
    }
  }

  lemma LinksInverseAt(c: Links, p: seq<Hash>, i: nat)
    requires Indexes(c, p) && i < |p|
    ensures Uniform(c, |p[i]|) && p[i] in c
    ensures PrevOf(c, p[i]) == [] <==> i == 0
    ensures NextOf(c, p[i]) == [] <==> i == |p| - 1
    ensures i > 0 ==> PrevOf(c, p[i]) in c && NextOf(c, PrevOf(c, p[i])) == p[i]
    ensures i < |p| - 1 ==> NextOf(c, p[i]) in c && PrevOf(c, NextOf(c, p[i])) == p[i]
  {
    IndexUniform(c, p);
    At(c, p, i);
    if i > 0 {
      At(c, p, i - 1);
    }
    if i < |p| - 1 {
      At(c, p, i + 1);
    }
  }

  /** Prev and next are mutually inverse, the first block is the only one without
      prev and the last one the only one without next. */
  lemma LinksInverse(c: Links, p: seq<Hash>, h: Hash)
    requires Indexes(c, p) && h in c
    ensures Uniform(c, |h|)
    ensures PrevOf(c, h) == [] <==> h == p[0]
    ensures NextOf(c, h) == [] <==> h == p[|p| - 1]
    ensures PrevOf(c, h) != [] ==> PrevOf(c, h) in c && NextOf(c, PrevOf(c, h)) == h
    ensures NextOf(c, h) != [] ==> NextOf(c, h) in c && PrevOf(c, NextOf(c, h)) == h
  {
    var i :| 0 <= i < |p| && p[i] == h;
    LinksInverseAt(c, p, i);
    assert i > 0 ==> Differ(p[0], p[i]);
    assert i < |p| - 1 ==> Differ(p[i], p[|p| - 1]);
  }

  lemma RecordUnique(b: Bytes, b': Bytes, n: nat)
    requires |b| == |b'| == 2 * n
    requires Unpad(b[..n]) == Unpad(b'[..n]) && Unpad(b[n..]) == Unpad(b'[n..])
    ensures b == b'
  {
    assert b == b[..n] + b[n..] && b' == b'[..n] + b'[n..];
  }

  /** The index and the path determine each other. */
  lemma IndexUnique(c: Links, c': Links, p: seq<Hash>)
    requires Indexes(c, p) && Indexes(c', p)
    ensures c == c'
  {
    forall h | h in p
      ensures h in c && h in c' && c[h] == c'[h]
    {
      var i :| 0 <= i < |p| && p[i] == h;
      assert LinkedAt(c, p, i) && LinkedAt(c', p, i);
      RecordUnique(c[h], c'[h], |h|);
    }
  }

  lemma {:induction false} PathUnique(c: Links, p: seq<Hash>, q: seq<Hash>, i: nat)
    requires Indexes(c, p) && Indexes(c, q) && i < |p| && i < |q|
    ensures p[i] == q[i]
  {
    if i == 0 {
      At(c, p, 0);
      LinksInverse(c, p, p[0]);
      LinksInverse(c, q, p[0]);
    } else {
      PathUnique(c, p, q, i - 1);
      At(c, p, i - 1);
      At(c, q, i - 1);
    }
  }

  lemma IndexDeterminesPath(c: Links, p: seq<Hash>, q: seq<Hash>)
    requires Indexes(c, p) && Indexes(c, q)
    ensures p == q
  {
    var n := if |p| <= |q| then |p| else |q|;
    forall i | 0 <= i < n
      ensures p[i] == q[i]
    {
      PathUnique(c, p, q, i);
    }
    LinksInverseAt(c, p, n - 1);
    LinksInverseAt(c, q, n - 1);
  }

  /** What the records read after a link is added. */
  lemma AddLinkReads(c: Links, h: Hash, prev: Hash, k: Hash)
    requires Uniform(c, |h|) && h !in c && prev in c && AddError(c, h, prev).NoError?
    requires h != Tree.Zeros(|h|) && prev != Tree.Zeros(|h|)
    ensures var c' := AddLink(c, h, prev);
            && Uniform(c', |h|)
            && (k in c' <==> k == h || k in c)
            && PrevOf(c', h) == prev && NextOf(c', h) == []
            && (k in c ==> PrevOf(c', k) == PrevOf(c, k))
            && (k in c ==> NextOf(c', k) == if k == prev then h else NextOf(c, k))
  {
    var c', n := AddLink(c, h, prev), |h|;
    assert c'[h][..n] == prev && c'[h][n..] == Tree.Zeros(n);
    assert c'[prev][..n] == c[prev][..n] && c'[prev][n..] == h;
  }

  lemma CanAppend(c: Links, p: seq<Hash>, h: Hash)
    requires Indexes(c, p) && GoodPath(p + [h])
    ensures Uniform(c, |h|) && |h| == |p[0]| && h != Tree.Zeros(|h|) && h !in c
    ensures p[|p| - 1] in c && AddError(c, h, p[|p| - 1]).NoError?
  {
    IndexUniform(c, p);
    assert HashAt(p + [h], |p|);
    LinksInverseAt(c, p, |p| - 1);
    forall i | 0 <= i < |p|
      ensures p[i] != h
    {
      assert Differ((p + [h])[i], (p + [h])[|p|]);
    }
  }

  lemma AppendLinkAt(c: Links, p: seq<Hash>, h: Hash, i: nat)
    requires Indexes(c, p) && GoodPath(p + [h]) && i <= |p|
    requires Uniform(c, |h|) && AddError(c, h, p[|p| - 1]).NoError?
    ensures LinkedAt(AddLink(c, h, p[|p| - 1]), p + [h], i)
  {
    var last := |p| - 1;
    CanAppend(c, p, h);
    At(c, p, last);
    AddLinkReads(c, h, p[last], (p + [h])[i]);
    if i < |p| {
      At(c, p, i);
      assert i < last ==> Differ(p[i], p[last]);
    }
  }

  /** Appending a new hash after the last one cannot fail and extends the path. */
  lemma AppendLink(c: Links, p: seq<Hash>, h: Hash)
    requires Indexes(c, p) && GoodPath(p + [h])
    ensures Uniform(c, |h|) && AddError(c, h, p[|p| - 1]).NoError?
    ensures Indexes(AddLink(c, h, p[|p| - 1]), p + [h])
  {
    CanAppend(c, p, h);
    var q, c' := p + [h], AddLink(c, h, p[|p| - 1]);
    forall i | 0 <= i < |q|
      ensures LinkedAt(c', q, i)
    {
      AppendLinkAt(c, p, h, i);
    }
    assert q[|p|] == h && forall i | 0 <= i < |p| :: q[i] == p[i];
  }

  lemma FirstLink(h: Hash)
    requires GoodPath([h])
    ensures AddError(map[], h, []).NoError? && Indexes(AddLink(map[], h, []), [h])
  {
    var r := Tree.Zeros(|h|) + Tree.Zeros(|h|);
    assert r[..|h|] == Tree.Zeros(|h|) && r[|h|..] == Tree.Zeros(|h|);
  }

  lemma GoodPrefix(p: seq<Hash>, n: nat)
    requires GoodPath(p) && 0 < n <= |p|
    ensures GoodPath(p[..n])
  {
    forall i | 0 <= i < n
      ensures HashAt(p[..n], i)
    {
      assert HashAt(p, i);
    }
    forall i, j | 0 <= i < j < n
      ensures Differ(p[..n][i], p[..n][j])
    {
      assert Differ(p[i], p[j]);
    }
  }

  /** Removing the link just added restores the index exactly. */
  lemma AddThenRemove(c: Links, h: Hash, prev: Hash)
    requires Uniform(c, |h|) && h !in c && prev in c && prev != Tree.Zeros(|h|)
    requires AddError(c, h, prev).NoError?
    ensures var c' := AddLink(c, h, prev);
            && Uniform(c', |h|) && RemoveError(c', h).NoError?
            && PrevOf(c', h) == prev && RemoveLink(c', h) == c
  {
    var c', n := AddLink(c, h, prev), |h|;
    assert c'[h][..n] == prev && c'[h][n..] == Tree.Zeros(n);
    var c'' := RemoveLink(c', h);
    assert c''[prev] == c[prev] by {
      assert c'[prev][..n] == c[prev][..n];
      assert c[prev] == c[prev][..n] + c[prev][n..];
    }
  }

  /** The index that holds a given path. */
  ghost function IndexOf(p: seq<Hash>): (c: Links)
    requires GoodPath(p)
    ensures Indexes(c, p)
    decreases |p|
  {
    var last := |p| - 1;
    if last == 0 then
      assert p == [p[0]];
      FirstLink(p[0]);
      AddLink(map[], p[0], [])
    else
      GoodPrefix(p, last);
      assert p[..last] + [p[last]] == p;
      AppendLink(IndexOf(p[..last]), p[..last], p[last]);
      AddLink(IndexOf(p[..last]), p[last], p[last - 1])
  }

  /** Removing the last hash cannot fail and shortens the path. */
  lemma RemoveLast(c: Links, p: seq<Hash>)
    requires Indexes(c, p) && |p| > 1
    ensures Uniform(c, |p[|p| - 1]|) && RemoveError(c, p[|p| - 1]).NoError?
    ensures p[|p| - 1] in c && PrevOf(c, p[|p| - 1]) == p[|p| - 2]
    ensures Indexes(RemoveLink(c, p[|p| - 1]), p[..|p| - 1])
  {
    var last := |p| - 1;
    var h := p[last];
    GoodPrefix(p, last);
    var q := p[..last];
    assert q + [h] == p;
    IndexUnique(c, IndexOf(p), p);
    At(IndexOf(q), q, last - 1);
    CanAppend(IndexOf(q), q, h);
    AddThenRemove(IndexOf(q), h, p[last - 1]);
  }
}
