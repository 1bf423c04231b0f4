/** The Merkle tree shared by the export, import and governance commitments
    (crates/common-types): pairwise hashing with the last node of an odd level doubled,
    the proof builder and the proof verifier. */
module Merkle {
  import opened Types

  function Half(n: nat): (h: nat) { (n + 1) / 2 }

  /** One level up: neighbours are hashed together, a last node without neighbour with itself. */
  function Parents(family: Family, level: seq<Digest>): (next: seq<Digest>)
    ensures |next| == Half(|level|)
  {
    seq(Half(|level|), (i: nat) requires i < Half(|level|) =>
      Node(family, level[2 * i], level[if 2 * i + 1 < |level| then 2 * i + 1 else 2 * i]))
  }

  function Root(family: Family, level: seq<Digest>): Digest
    requires level != []
    decreases |level|
  {
    if |level| == 1 then level[0] else Root(family, Parents(family, level))
  }

  /** The number of levels above the leaves. */
  function Height(width: nat): nat
    requires width > 0
  {
    if width == 1 then 0 else 1 + Height(Half(width))
  }

  function SiblingIndex(index: nat, width: nat): (sibling: nat)
    requires index < width
    ensures sibling < width
  {
    if index % 2 == 1 then index - 1 else if index + 1 < width then index + 1 else index
  }

  function Siblings(family: Family, level: seq<Digest>, index: nat): seq<Digest>
    requires index < |level|
    decreases |level|
  {
    if |level| == 1 then []
    else [level[SiblingIndex(index, |level|)]] + Siblings(family, Parents(family, level), index / 2)
  }

  /** One round of the verifier; `width` is what the proof claims, nothing checks it. */
  function ClimbOne(family: Family, hash: Digest, index: nat, width: nat, sibling: Digest): Digest {
    if index % 2 == 1 then Node(family, sibling, hash)
    else if width % 2 == 1 && index == width - 1 then Node(family, hash, hash)
    else Node(family, hash, sibling)
  }

  function Climb(family: Family, hash: Digest, index: nat, width: nat, siblings: seq<Digest>): Digest
    decreases |siblings|
  {
    if siblings == [] then hash
    else Climb(family, ClimbOne(family, hash, index, width, siblings[0]), index / 2, Half(width), siblings[1..])
  }

  /** What the verifier accepts, once the leaf is known to be canonical. */
  predicate Accepts(family: Family, root: Digest, hash: Digest, index: nat, count: nat, siblings: seq<Digest>) {
    && index < count
    && (if count == 1 then hash == root && siblings == []
        else Climb(family, hash, index, count, siblings) == root)
  }

  // ---------- the loops of the source ----------

  /** Builds the next level of the tree, two nodes at a time. */
  method NextLevel(family: Family, level: seq<Digest>) returns (next: seq<Digest>)
    ensures next == Parents(family, level)
  {
    next := [];
    var index := 0;
    while index < |level|
      invariant index == 2 * |next|
      invariant index <= |level| + 1
      invariant next == Parents(family, level)[..|next|]
    {
      var left := level[index];
      var right := if index + 1 < |level| then level[index + 1] else left;
      next := next + [Node(family, left, right)];
      index := index + 2;
    }
  }

  /** The root loop over the ordered leaf hashes. */
  method ComputeRoot(family: Family, empty: Digest, hashes: seq<Digest>) returns (root: Digest)
    ensures root == if hashes == [] then empty else Root(family, hashes)
  {
    if hashes == [] {
      return empty;
    }
    var level := hashes;
    while |level| > 1
      invariant level != [] && Root(family, level) == Root(family, hashes)
    {
      level := NextLevel(family, level);
    }
    root := level[0];
  }

  /** The proof builder's loop: one sibling per level. */
  method CollectSiblings(family: Family, hashes: seq<Digest>, leafIndex: nat) returns (siblings: seq<Digest>)
    requires leafIndex < |hashes|
    ensures siblings == Siblings(family, hashes, leafIndex)
  {
    siblings := [];
    var index := leafIndex;
    var level := hashes;
    while |level| > 1
      invariant 0 <= index < |level|
      invariant siblings + Siblings(family, level, index) == Siblings(family, hashes, leafIndex)
    {
      var siblingIndex;
      if index % 2 == 0 {
        siblingIndex := if index + 1 < |level| then index + 1 else index;
      } else {
        siblingIndex := index - 1;
      }
      siblings := siblings + [level[siblingIndex]];
      level := NextLevel(family, level);
      index := index / 2;
    }
  }

  /** The verifier's loop over the siblings. */
  method ClimbLoop(family: Family, leafHash: Digest, leafIndex: nat, leafCount: nat, siblings: seq<Digest>)
    returns (hash: Digest)
    ensures hash == Climb(family, leafHash, leafIndex, leafCount, siblings)
  {
    ghost var goal := Climb(family, leafHash, leafIndex, leafCount, siblings);
    var index: nat, width: nat := leafIndex, leafCount;
    hash := leafHash;
    assert siblings[0..] == siblings;
    for i := 0 to |siblings|
      invariant Climb(family, hash, index, width, siblings[i..]) == goal
    {
      var sibling := siblings[i];
      var isRightDuplicate := width % 2 == 1 && index == width - 1;
      var left, right := sibling, hash;
      if index % 2 == 0 {
        left, right := hash, if isRightDuplicate then hash else sibling;
      }
      ClimbUnfold(family, hash, index, width, siblings, i);
      hash, index, width := Node(family, left, right), index / 2, Half(width);
    }
  }

  method VerifyClimb(family: Family, root: Digest, leafHash: Digest, leafIndex: nat, leafCount: nat,
                     siblings: seq<Digest>) returns (ok: bool)
    ensures ok <==> Accepts(family, root, leafHash, leafIndex, leafCount, siblings)
  {
    if leafCount == 0 || leafIndex >= leafCount {
      return false;
    }
    if leafCount == 1 {
      return leafHash == root && siblings == [];
    }
    var hash := ClimbLoop(family, leafHash, leafIndex, leafCount, siblings);
    ok := hash == root;
  }

  lemma ClimbUnfold(family: Family, hash: Digest, index: nat, width: nat, siblings: seq<Digest>, i: nat)
    requires i < |siblings|
    ensures Climb(family, hash, index, width, siblings[i..])
         == Climb(family, ClimbOne(family, hash, index, width, siblings[i]), index / 2, Half(width), siblings[i + 1..])
  {
    assert siblings[i..][1..] == siblings[i + 1..];
  }

  // ---------- completeness ----------

  /** The sibling the builder records leads the verifier to the true parent. */
  lemma ClimbOneIsParent(family: Family, level: seq<Digest>, index: nat)
    requires index < |level|
    ensures index / 2 < |Parents(family, level)|
    ensures ClimbOne(family, level[index], index, |level|, level[SiblingIndex(index, |level|)])
         == Parents(family, level)[index / 2]
  {
    assert index % 2 == 0 ==> 2 * (index / 2) == index;
    assert index % 2 == 1 ==> 2 * (index / 2) + 1 == index;
  }

  lemma {:induction false} ClimbReachesRoot(family: Family, level: seq<Digest>, index: nat)
    requires index < |level|
    ensures Climb(family, level[index], index, |level|, Siblings(family, level, index)) == Root(family, level)
    decreases |level|
  {
    if |level| > 1 {
      ClimbOneIsParent(family, level, index);
      ClimbReachesRoot(family, Parents(family, level), index / 2);
      var siblings := Siblings(family, level, index);
      assert siblings[1..] == Siblings(family, Parents(family, level), index / 2);
    }
  }

  /** Every built proof verifies against the root, at every width and every position. */
  lemma Completeness(family: Family, hashes: seq<Digest>, index: nat)
    requires index < |hashes|
    ensures Accepts(family, Root(family, hashes), hashes[index], index, |hashes|, Siblings(family, hashes, index))
  {
    ClimbReachesRoot(family, hashes, index);
  }

  // ---------- soundness ----------

  /** The hashes at the bottom of a tree of one family. */
  function Bottom(family: Family, hash: Digest): set<Digest>
    decreases hash
  {
    match hash
    case Node(f, left, right) =>
      if f == family then Bottom(family, left) + Bottom(family, right) else {hash}
    case _ => {hash}
  }

  ghost function BottomOf(family: Family, level: seq<Digest>): set<Digest> {
    set i, x | 0 <= i < |level| && x in Bottom(family, level[i]) :: x
  }

  predicate IsNode(family: Family, hash: Digest) { hash.Node? && hash.family == family }

  predicate AllLeaves(family: Family, hashes: seq<Digest>) {
    forall i :: 0 <= i < |hashes| ==> !IsNode(family, hashes[i])
  }

  lemma BottomOfParents(family: Family, level: seq<Digest>)
    ensures BottomOf(family, Parents(family, level)) == BottomOf(family, level)
  {
    var next := Parents(family, level);
    forall x | x in BottomOf(family, level) ensures x in BottomOf(family, next) {
      var i :| 0 <= i < |level| && x in Bottom(family, level[i]);
      ClimbOneIsParent(family, level, i);
      assert x in Bottom(family, next[i / 2]);
    }
    forall x | x in BottomOf(family, next) ensures x in BottomOf(family, level) {
      var i :| 0 <= i < |next| && x in Bottom(family, next[i]);
      var j := if 2 * i + 1 < |level| then 2 * i + 1 else 2 * i;
      assert x in Bottom(family, level[2 * i]) || x in Bottom(family, level[j]);
    }
  }

  lemma {:induction false} BottomOfRoot(family: Family, level: seq<Digest>)
    requires level != []
    ensures Bottom(family, Root(family, level)) == BottomOf(family, level)
    decreases |level|
  {
    if |level| > 1 {
      BottomOfParents(family, level);
      BottomOfRoot(family, Parents(family, level));
    } else {
      assert level[0] == Root(family, level);
    }
  }

  lemma {:induction false} ClimbKeepsBottom(family: Family, hash: Digest, index: nat, width: nat, siblings: seq<Digest>)
    ensures Bottom(family, hash) <= Bottom(family, Climb(family, hash, index, width, siblings))
    decreases |siblings|
  {
    if siblings != [] {
      ClimbKeepsBottom(family, ClimbOne(family, hash, index, width, siblings[0]), index / 2, Half(width),
                       siblings[1..]);
    }
  }

  /** Whatever index, count and siblings a proof claims, an accepted leaf hash is one of the
      hashes the root commits to. */
  lemma Soundness(family: Family, hashes: seq<Digest>, hash: Digest, index: nat, count: nat, siblings: seq<Digest>)
    requires hashes != [] && AllLeaves(family, hashes) && !IsNode(family, hash)
    requires Accepts(family, Root(family, hashes), hash, index, count, siblings)
    ensures hash in hashes
  {
    BottomOfRoot(family, hashes);
    ClimbKeepsBottom(family, hash, index, count, siblings);
    assert hash in Bottom(family, Root(family, hashes));
    var i :| 0 <= i < |hashes| && hash in Bottom(family, hashes[i]);
  }

  lemma {:induction false} ClimbIsNode(family: Family, hash: Digest, index: nat, width: nat, siblings: seq<Digest>)
    requires siblings != []
    ensures Climb(family, hash, index, width, siblings).Node?
    decreases |siblings|
  {
    if |siblings| > 1 {
      ClimbIsNode(family, ClimbOne(family, hash, index, width, siblings[0]), index / 2, Half(width), siblings[1..]);
    }
  }

  /** Nothing is accepted against the root of an empty list. */
  lemma EmptyRootAcceptsNothing(family: Family, empty: Digest, hash: Digest, index: nat, count: nat,
                                siblings: seq<Digest>)
    requires empty.EmptyRoot? && !hash.EmptyRoot?
    ensures !Accepts(family, empty, hash, index, count, siblings)
  {
    if siblings != [] {
      ClimbIsNode(family, hash, index, count, siblings);
    }
  }

  // ---------- positions ----------

  /** A tree whose every branch is exactly `height` nodes long. */
  predicate Perfect(family: Family, hash: Digest, height: nat)
    decreases height
  {
    if height == 0 then !IsNode(family, hash)
    else IsNode(family, hash) && Perfect(family, hash.left, height - 1) && Perfect(family, hash.right, height - 1)
  }

  lemma {:induction false} RootPerfect(family: Family, level: seq<Digest>, height: nat)
    requires level != [] && forall i :: 0 <= i < |level| ==> Perfect(family, level[i], height)
    ensures Perfect(family, Root(family, level), height + Height(|level|))
    decreases |level|
  {
    if |level| > 1 {
      RootPerfect(family, Parents(family, level), height + 1);
    }
  }

  lemma {:induction false} PerfectBelow(family: Family, hash: Digest, index: nat, width: nat, siblings: seq<Digest>,
                                        height: nat)
    requires Perfect(family, Climb(family, hash, index, width, siblings), height)
    ensures |siblings| <= height && Perfect(family, hash, height - |siblings|)
    decreases |siblings|
  {
    if siblings != [] {
      var up := ClimbOne(family, hash, index, width, siblings[0]);
      PerfectBelow(family, up, index / 2, Half(width), siblings[1..], height);
    }
  }

  lemma {:induction false} ClimbHitsPosition(family: Family, level: seq<Digest>, hash: Digest, index: nat, width: nat,
                                             siblings: seq<Digest>)
    requires index < |level| && |siblings| == Height(|level|)
    requires Climb(family, hash, index, width, siblings) == Root(family, level)
    ensures level[index] == hash
    decreases |level|
  {
    if |level| > 1 {
      var up := ClimbOne(family, hash, index, width, siblings[0]);
      ClimbHitsPosition(family, Parents(family, level), up, index / 2, Half(width), siblings[1..]);
      assert index % 2 == 0 ==> 2 * (index / 2) == index;
      assert index % 2 == 1 ==> 2 * (index / 2) + 1 == index;
    }
  }

  /** The verifier never compares the number of siblings with the claimed count.  It need not:
      an accepted proof always has one sibling per level of the true tree, and its leaf stands
      at the claimed index exactly when that index is below the true count. */
  lemma PositionBinding(family: Family, hashes: seq<Digest>, hash: Digest, index: nat, count: nat,
                        siblings: seq<Digest>)
    requires hashes != [] && AllLeaves(family, hashes) && !IsNode(family, hash)
    requires Accepts(family, Root(family, hashes), hash, index, count, siblings)
    ensures |siblings| == Height(|hashes|)
    ensures (index < |hashes| && hashes[index] == hash) <==> index < |hashes|
  {
    RootPerfect(family, hashes, 0);
    PerfectBelow(family, hash, index, count, siblings, Height(|hashes|));
    if index < |hashes| {
      ClimbHitsPosition(family, hashes, hash, index, count, siblings);
    }
  }

  /** A false count does move the claimed position: the first of two leaves is accepted as
      number 2 of 5. */
  lemma FalseCountMovesPosition(family: Family, a: Digest, b: Digest)
    ensures Accepts(family, Root(family, [a, b]), a, 2, 5, [b])
  {
    assert Parents(family, [a, b]) == [Node(family, a, b)];
    ClimbUnfold(family, a, 2, 5, [b], 0);
    assert [b][0..] == [b] && [b][1..] == [];
  }

  // ---------- the root determines the list ----------

  predicate Distinct(hashes: seq<Digest>) {
    forall i, j :: 0 <= i < j < |hashes| ==> hashes[i] != hashes[j]
  }

  lemma ParentsDistinct(family: Family, level: seq<Digest>)
    requires Distinct(level)
    ensures Distinct(Parents(family, level))
  {
    var next := Parents(family, level);
    forall i, j | 0 <= i < j < |next| ensures next[i] != next[j] {
      assert level[2 * i] != level[2 * j];
    }
  }

  /** Doubling the last node loses nothing when the nodes are distinct. */
  lemma ParentsInjective(family: Family, a: seq<Digest>, b: seq<Digest>)
    requires Distinct(a) && Distinct(b) && Parents(family, a) == Parents(family, b)
    ensures a == b
  {
    var pa, pb := Parents(family, a), Parents(family, b);
    if |a| < |b| {
      ParentsLonger(family, a, b);
    } else if |b| < |a| {
      ParentsLonger(family, b, a);
    }
    forall i | 0 <= i < |a| ensures a[i] == b[i] {
      assert pa[i / 2] == pb[i / 2];
      assert i % 2 == 0 ==> 2 * (i / 2) == i;
      assert i % 2 == 1 ==> 2 * (i / 2) + 1 == i;
    }
  }

  lemma ParentsLonger(family: Family, a: seq<Digest>, b: seq<Digest>)
    requires Distinct(b) && |a| < |b|
    ensures Parents(family, a) != Parents(family, b)
  {
    if Half(|a|) == Half(|b|) {
      var k := |a| / 2;
      assert b[2 * k] != b[2 * k + 1];
      assert Parents(family, a)[k] != Parents(family, b)[k];
    }
  }

  lemma {:induction false} RootInjective(family: Family, a: seq<Digest>, b: seq<Digest>, height: nat)
    requires a != [] && b != [] && Distinct(a) && Distinct(b)
    requires forall i :: 0 <= i < |a| ==> Perfect(family, a[i], height)
    requires forall i :: 0 <= i < |b| ==> Perfect(family, b[i], height)
    requires Root(family, a) == Root(family, b)
    ensures a == b
    decreases |a| + |b|
  {
    if |a| == 1 && |b| == 1 {
    } else if |a| == 1 || |b| == 1 {
      RootPerfect(family, a, height);
      RootPerfect(family, b, height);
      PerfectUnique(family, Root(family, a), height + Height(|a|), height + Height(|b|));
    } else {
      ParentsDistinct(family, a);
      ParentsDistinct(family, b);
      RootInjective(family, Parents(family, a), Parents(family, b), height + 1);
      ParentsInjective(family, a, b);
    }
  }

  lemma {:induction false} PerfectUnique(family: Family, hash: Digest, h: nat, k: nat)
    requires Perfect(family, hash, h) && Perfect(family, hash, k)
    ensures h == k
  {
    if h > 0 && k > 0 {
      PerfectUnique(family, hash.left, h - 1, k - 1);
    }
  }

  /** Two lists of distinct leaf hashes with the same root are the same list. */
  lemma RootDeterminesList(family: Family, a: seq<Digest>, b: seq<Digest>)
    requires a != [] && b != [] && Distinct(a) && Distinct(b)
    requires AllLeaves(family, a) && AllLeaves(family, b)
    requires Root(family, a) == Root(family, b)
    ensures a == b
  {
    RootInjective(family, a, b, 0);
  }
}
