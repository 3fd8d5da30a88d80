/** The tree of stored blocks: every block hangs under its parent, and a block
    determines the path that leads to it from the genesis block. */
module Tree {
  import opened Structures

  type Store = map<Hash, Block>

  function Zeros(n: nat): (r: Bytes)
    ensures |r| == n
  {
    seq(n, _ => 0)
  }

  /** What the code relies on for every stored block: hashes are non-empty, of
      one length and not all zero, and a block is one higher than its parent. */
  ghost predicate NodeOk(s: Store, g: Hash, h: Hash)
    requires h in s
  {
    && s[h].hash == h && |h| == |g| && h != Zeros(|g|)
    && 0 <= s[h].height
    && (if h == g then s[h].height == 0 && s[h].prevBlockHash == []
        else s[h].prevBlockHash in s && s[h].height == s[s[h].prevBlockHash].height + 1)
  }

  ghost predicate WellFormed(s: Store, g: Hash) {
    && g in s && |g| > 0
    && forall h {:trigger NodeOk(s, g, h)} | h in s :: NodeOk(s, g, h)
  }

  /** The hashes from the genesis block up to `h`. */
  ghost function Path(s: Store, g: Hash, h: Hash): (p: seq<Hash>)
    requires WellFormed(s, g) && h in s
    ensures |p| == s[h].height + 1 && |p| > 0 && p[0] == g && p[|p| - 1] == h
    decreases s[h].height
  {
    assert NodeOk(s, g, h);
    if h == g then [h] else Path(s, g, s[h].prevBlockHash) + [h]
  }

  /** `a` lies on the path to `h`; it can only stand at its own height. */
  ghost predicate Ancestor(s: Store, g: Hash, a: Hash, h: Hash)
    requires WellFormed(s, g) && h in s
  {
    a in s && 0 <= s[a].height <= s[h].height && Path(s, g, h)[s[a].height] == a
  }

  /** The block at height i of a path is stored, has height i, and the path up to
      it is its own path. */
  lemma {:induction false} PathAt(s: Store, g: Hash, h: Hash, i: nat)
    requires WellFormed(s, g) && h in s && i <= s[h].height
    ensures var p := Path(s, g, h);
            p[i] in s && s[p[i]].height == i && Path(s, g, p[i]) == p[..i + 1]
    decreases s[h].height
  {
    var p := Path(s, g, h);
    assert NodeOk(s, g, h);
    if i == s[h].height {
      assert p[..i + 1] == p;
    } else {
      var q := Path(s, g, s[h].prevBlockHash);
      PathAt(s, g, s[h].prevBlockHash, i);
      assert p[..i + 1] == q[..i + 1];
    }
  }

  lemma PathParent(s: Store, g: Hash, h: Hash, i: nat)
    requires WellFormed(s, g) && h in s && 0 < i <= s[h].height
    ensures var p := Path(s, g, h);
            p[i] in s && s[p[i]].prevBlockHash == p[i - 1] && p[i] != g
  {
    var p := Path(s, g, h);
    PathAt(s, g, h, i);
    PathAt(s, g, h, i - 1);
    var q := Path(s, g, p[i]);
    assert NodeOk(s, g, p[i]) && NodeOk(s, g, g);
    assert q == Path(s, g, s[p[i]].prevBlockHash) + [p[i]];
    assert q[i - 1] == p[i - 1];
  }

  lemma AncestorOnPath(s: Store, g: Hash, a: Hash, h: Hash)
    requires WellFormed(s, g) && h in s
    ensures Ancestor(s, g, a, h) <==> a in Path(s, g, h)
  {
    var p := Path(s, g, h);
    if a in p {
      var i :| 0 <= i < |p| && p[i] == a;
      PathAt(s, g, h, i);
    }
  }

  lemma AncestorTrans(s: Store, g: Hash, a: Hash, b: Hash, c: Hash)
    requires WellFormed(s, g) && c in s && Ancestor(s, g, b, c)
    ensures Ancestor(s, g, a, b) <==> Ancestor(s, g, a, c) && s[a].height <= s[b].height
  {
    PathAt(s, g, c, s[b].height);
  }

  /** A path does not depend on blocks stored later. */
  lemma {:induction false} PathStable(s: Store, g: Hash, s': Store, h: Hash)
    requires WellFormed(s, g) && WellFormed(s', g) && h in s
    requires s.Keys <= s'.Keys && forall k | k in s :: s'[k] == s[k]
    ensures Path(s', g, h) == Path(s, g, h)
    decreases s[h].height
  {
    assert NodeOk(s, g, h);
    if h != g {
      PathStable(s, g, s', s[h].prevBlockHash);
    }
  }

  /** The number of leading blocks two paths share. */
  ghost function Common(p: seq<Hash>, q: seq<Hash>): (n: nat)
    ensures n <= |p| && n <= |q| && forall k | 0 <= k < n :: p[k] == q[k]
    ensures n < |p| && n < |q| ==> p[n] != q[n]
  {
    if p == [] || q == [] || p[0] != q[0] then 0 else Common(p[1..], q[1..]) + 1
  }

  lemma CommonUnique(p: seq<Hash>, q: seq<Hash>, n: nat)
    requires n <= |p| && n <= |q| && p[..n] == q[..n]
    requires n < |p| && n < |q| ==> p[n] != q[n]
    ensures Common(p, q) == n
  {
    var c := Common(p, q);
    assert forall k | 0 <= k < n :: p[..n][k] == q[..n][k];
  }

  lemma SharedPrefix(p: seq<Hash>, q: seq<Hash>, n: nat)
    requires n <= |p| && n <= |q| && p[..n] == q[..n]
    ensures n <= Common(p, q)
  {
    assert forall k | 0 <= k < n :: p[..n][k] == q[..n][k];
  }

  /** Two paths agree at a height exactly when it lies below the fork: branches
      that part never meet again. */
  lemma PathsMeet(s: Store, g: Hash, a: Hash, b: Hash, i: nat)
    requires WellFormed(s, g) && a in s && b in s && i <= s[a].height && i <= s[b].height
    ensures Path(s, g, a)[i] == Path(s, g, b)[i] <==> i < Common(Path(s, g, a), Path(s, g, b))
  {
    var p, q := Path(s, g, a), Path(s, g, b);
    if p[i] == q[i] {
      PathAt(s, g, a, i);
      PathAt(s, g, b, i);
      assert p[..i + 1] == Path(s, g, p[i]) == q[..i + 1];
      SharedPrefix(p, q, i + 1);
    }
  }

  /** Height of the last block that `a` shares with the chain ending at `b`. */
  ghost function ForkHeight(s: Store, g: Hash, a: Hash, b: Hash): (f: nat)
    requires WellFormed(s, g) && a in s && b in s
    ensures f <= s[a].height && f <= s[b].height
    ensures Path(s, g, a)[..f + 1] == Path(s, g, b)[..f + 1]
  {
    var p, q := Path(s, g, a), Path(s, g, b);
    PathsMeet(s, g, a, b, 0);
    Common(p, q) - 1
  }

  /** An ancestor of `a` is also an ancestor of `b` exactly up to the fork. */
  lemma ForkAncestor(s: Store, g: Hash, a: Hash, b: Hash, x: Hash)
    requires WellFormed(s, g) && a in s && b in s && Ancestor(s, g, x, a)
    ensures Ancestor(s, g, x, b) <==> s[x].height <= ForkHeight(s, g, a, b)
  {
    if s[x].height <= s[b].height {
      PathsMeet(s, g, a, b, s[x].height);
    }
  }

  lemma ForkPoint(s: Store, g: Hash, a: Hash, b: Hash)
    requires WellFormed(s, g) && a in s && b in s
    ensures Path(s, g, a)[ForkHeight(s, g, a, b)] == Path(s, g, b)[ForkHeight(s, g, a, b)]
  {
    var f := ForkHeight(s, g, a, b);
    assert Path(s, g, a)[..f + 1][f] == Path(s, g, b)[..f + 1][f];
  }

  /** Up to the fork both branches have the same blocks. */
  lemma BelowFork(s: Store, g: Hash, a: Hash, b: Hash, x: Hash)
    requires WellFormed(s, g) && a in s && b in s
    requires x in s && s[x].height <= ForkHeight(s, g, a, b)
    ensures Ancestor(s, g, x, a) <==> Ancestor(s, g, x, b)
  {
    assert NodeOk(s, g, x);
    var f := ForkHeight(s, g, a, b);
    assert Path(s, g, a)[..f + 1][s[x].height] == Path(s, g, b)[..f + 1][s[x].height];
  }

  lemma ForkOnChain(s: Store, g: Hash, a: Hash, b: Hash)
    requires WellFormed(s, g) && b in s && Ancestor(s, g, a, b)
    ensures ForkHeight(s, g, a, b) == s[a].height
  {
    PathAt(s, g, b, s[a].height);
    var p, q := Path(s, g, a), Path(s, g, b);
    CommonUnique(p, q, |p|);
  }

  /** Storing a block whose parent is stored keeps the tree well formed. */
  lemma Extend(s: Store, g: Hash, b: Block)
    requires WellFormed(s, g) && b.hash !in s && b.prevBlockHash in s
    requires |b.hash| == |g| && b.hash != Zeros(|g|) && b.height == s[b.prevBlockHash].height + 1
    ensures WellFormed(s[b.hash := b], g)
    ensures Path(s[b.hash := b], g, b.hash) == Path(s, g, b.prevBlockHash) + [b.hash]
    ensures forall h | h in s :: Path(s[b.hash := b], g, h) == Path(s, g, h)
  {
    var s' := s[b.hash := b];
    forall h | h in s'
      ensures NodeOk(s', g, h)
    {
      if h in s {
        assert NodeOk(s, g, h);
      } else {
        assert NodeOk(s, g, b.prevBlockHash);
      }
    }
    forall h | h in s
      ensures Path(s', g, h) == Path(s, g, h)
    {
      PathStable(s, g, s', h);
    }
  }
}
