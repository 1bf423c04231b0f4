/** From the block that staged a summary to the finalized block that certifies it: the headers a
    node hands out and the walk the importer makes along them. */
module Ancestry {
  import opened Types

  /** A node's view of its canonical chain. */
  datatype Node = Node(hashes: map<nat, Digest>, headers: map<Digest, BlockHeader>, justified: set<Digest>)

  predicate Known(node: Node, number: nat) { number in node.hashes && node.hashes[number] in node.headers }

  function HeaderAt(node: Node, number: nat): BlockHeader
    requires Known(node, number)
  {
    node.headers[node.hashes[number]]
  }

  /** `ancestry_headers`: the headers after `target` up to `proof`, or an error if one is missing. */
  method AncestryHeaders(node: Node, target: nat, proof: nat) returns (r: Option<seq<Encoded<BlockHeader>>>)
    ensures r.Some? <==> forall n :: target < n <= proof ==> Known(node, n)
    ensures r.Some? ==> |r.value| == (if proof > target then proof - target else 0)
                        && forall i :: 0 <= i < |r.value| ==> r.value[i] == Encoded(HeaderAt(node, target + 1 + i))
  {
    var found := [];
    var n := target + 1;
    while n <= proof
      invariant target + 1 <= n && (n <= proof + 1 || (proof <= target && n == target + 1))
      invariant forall k :: target < k < n ==> Known(node, k)
      invariant |found| == n - target - 1
      invariant forall i :: 0 <= i < |found| ==> found[i] == Encoded(HeaderAt(node, target + 1 + i))
    {
      if n !in node.hashes {
        assert !Known(node, n);
        return None;
      }
      if node.hashes[n] !in node.headers {
        assert !Known(node, n);
        return None;
      }
      found := found + [Encoded(HeaderAt(node, n))];
      n := n + 1;
    }
    r := Some(found);
  }

  predicate JustifiedAt(node: Node, n: nat) { n in node.hashes && node.hashes[n] in node.justified }

  /** `find_earliest_justified_descendant`. */
  method FindEarliestJustified(node: Node, target: nat, finalized: nat) returns (r: Option<nat>)
    ensures r.Some? ==> target <= r.value <= finalized && JustifiedAt(node, r.value)
                        && forall n :: target <= n < r.value ==> !JustifiedAt(node, n)
    ensures r.None? ==> forall n :: target <= n <= finalized ==> !JustifiedAt(node, n)
  {
    var n := target;
    while n <= finalized
      invariant target <= n && forall k :: target <= k < n ==> !JustifiedAt(node, k)
    {
      if JustifiedAt(node, n) {
        return Some(n);
      }
      n := n + 1;
    }
    r := None;
  }

  // ---------- the importer's walk ----------

  /** One header further: it must name the block reached so far and carry the next number. */
  predicate Follows(header: BlockHeader, hash: Digest, number: nat) {
    header.parentHash == hash && header.number == AsU32(number + 1)
  }

  /** Where the walk ends, or nothing if it breaks off. */
  function Walk(hash: Digest, number: nat, ancestry: seq<Encoded<BlockHeader>>): Option<(Digest, nat)> {
    if ancestry == [] then Some((hash, number))
    else
      var n := |ancestry| - 1;
      var reached := Walk(hash, number, ancestry[..n]);
      if reached.None? || ancestry[n].Garbage? || !Follows(ancestry[n].value, reached.value.0, reached.value.1)
          then None
      else Some((BlockDigest(ancestry[n].value), ancestry[n].value.number))
  }

  predicate ChainOk(c: Certificate) { Walk(c.targetHash, c.targetNumber, c.ancestry)
      == Some((c.proofHash, c.proofNumber)) }

  /** `verify_ancestry_chain`. */
  method VerifyAncestryChain(c: Certificate) returns (ok: bool)
    ensures ok <==> ChainOk(c)
  {
    var hash, number := c.targetHash, c.targetNumber;
    var i := 0;
    while i < |c.ancestry|
      invariant 0 <= i <= |c.ancestry| && Walk(c.targetHash, c.targetNumber, c.ancestry[..i]) == Some((hash, number))
    {
      assert c.ancestry[..i + 1][..i] == c.ancestry[..i];
      if c.ancestry[i].Garbage? || !Follows(c.ancestry[i].value, hash, number) {
        WalkBroken(c.targetHash, c.targetNumber, c.ancestry, i + 1);
        return false;
      }
      hash, number := BlockDigest(c.ancestry[i].value), c.ancestry[i].value.number;
      i := i + 1;
    }
    assert c.ancestry[..i] == c.ancestry;
    ok := hash == c.proofHash && number == c.proofNumber;
  }

  lemma {:induction false} WalkBroken(hash: Digest, number: nat, ancestry: seq<Encoded<BlockHeader>>, i: nat)
    requires i <= |ancestry| && Walk(hash, number, ancestry[..i]).None?
    ensures Walk(hash, number, ancestry).None?
    decreases |ancestry|
  {
    if i < |ancestry| {
      assert ancestry[..|ancestry| - 1][..i] == ancestry[..i];
      WalkBroken(hash, number, ancestry[..|ancestry| - 1], i);
    } else {
      assert ancestry[..i] == ancestry;
    }
  }

  // ---------- canonical chains ----------

  /** Numbered from the genesis block, each block naming its parent; fewer than 2^32 blocks. */
  ghost predicate Canonical(blocks: seq<BlockHeader>) {
    && 0 < |blocks| <= U32_MAX && blocks[0].parentHash == Zero
    && (forall n :: 0 <= n < |blocks| ==> blocks[n].number == n)
    && (forall n :: 0 < n < |blocks| ==> blocks[n].parentHash == BlockDigest(blocks[n - 1]))
  }

  function Segment(blocks: seq<BlockHeader>, target: nat, proof: nat): seq<Encoded<BlockHeader>>
    requires target <= proof < |blocks|
  {
    seq(proof - target, i requires 0 <= i < proof - target => Encoded(blocks[target + 1 + i]))
  }

  /** The headers of a canonical chain lead from the target to the proof block. */
  lemma {:induction false} WalkCanonical(blocks: seq<BlockHeader>, target: nat, proof: nat)
    requires Canonical(blocks) && target <= proof < |blocks|
    ensures Walk(BlockDigest(blocks[target]), target, Segment(blocks, target, proof))
        == Some((BlockDigest(blocks[proof]), proof))
    decreases proof
  {
    if target < proof {
      WalkCanonical(blocks, target, proof - 1);
      assert Segment(blocks, target, proof)[..proof - target - 1] == Segment(blocks, target, proof - 1);
    }
  }

  function FromGenesis(blocks: seq<BlockHeader>, proof: nat): seq<Encoded<BlockHeader>>
    requires proof < |blocks|
  {
    seq(proof + 1, i requires 0 <= i < proof + 1 => Encoded(blocks[i]))
  }

  /** The target is a canonical ancestor; or, by wrap-around of the 32-bit number, it poses as
      the parent of the genesis block. */
  ghost predicate Reaches(blocks: seq<BlockHeader>, hash: Digest, number: nat, ancestry: seq<Encoded<BlockHeader>>,
                          proof: nat)
    requires proof < |blocks|
  {
    || (number <= proof && hash == BlockDigest(blocks[number]) && ancestry == Segment(blocks, number, proof))
    || (number == U32_MAX && hash == Zero && ancestry == FromGenesis(blocks, proof))
  }

  /** Numbers stay within 32 bits, and a walk that has moved stands on a block. */
  lemma {:induction false} WalkNumbers(hash: Digest, number: nat, ancestry: seq<Encoded<BlockHeader>>)
    requires Walk(hash, number, ancestry).Some? && number <= U32_MAX
    ensures Walk(hash, number, ancestry).value.1 <= U32_MAX
    ensures ancestry != [] ==> Walk(hash, number, ancestry).value.0.BlockDigest?
  {
  }

  lemma ReachesNext(blocks: seq<BlockHeader>, hash: Digest, number: nat, ancestry: seq<Encoded<BlockHeader>>,
                    proof: nat)
    requires 0 < proof < |blocks| && Reaches(blocks, hash, number, ancestry, proof - 1)
    ensures Reaches(blocks, hash, number, ancestry + [Encoded(blocks[proof])], proof)
  {
    if number <= proof - 1 {
      assert ancestry + [Encoded(blocks[proof])] == Segment(blocks, number, proof) || number == U32_MAX;
    }
    assert FromGenesis(blocks, proof) == FromGenesis(blocks, proof - 1) + [Encoded(blocks[proof])];
  }

  /** The block before a canonical one is the canonical one before it; below genesis there is
      only the all-zero hash under the largest number. */
  lemma StepBack(blocks: seq<BlockHeader>, hash: Digest, number: nat, proof: nat)
    requires Canonical(blocks) && proof < |blocks| && number <= U32_MAX && Follows(blocks[proof], hash, number)
    ensures if proof > 0 then hash == BlockDigest(blocks[proof - 1]) && number == proof - 1
            else hash == Zero && number == U32_MAX
  {
  }

  /** A walk that ends at a canonical block passed only canonical blocks. */
  lemma {:induction false} WalkSound(blocks: seq<BlockHeader>, hash: Digest, number: nat,
                                     ancestry: seq<Encoded<BlockHeader>>, proof: nat)
    requires Canonical(blocks) && proof < |blocks| && number <= U32_MAX
    requires Walk(hash, number, ancestry) == Some((BlockDigest(blocks[proof]), proof))
    ensures Reaches(blocks, hash, number, ancestry, proof)
    decreases |ancestry|
  {
    if ancestry != [] {
      hide Reaches, Canonical, Follows;
      var n := |ancestry| - 1;
      assert ancestry[n] == Encoded(blocks[proof]) && ancestry == ancestry[..n] + [ancestry[n]];
      var reached := Walk(hash, number, ancestry[..n]).value;
      WalkNumbers(hash, number, ancestry[..n]);
      StepBack(blocks, reached.0, reached.1, proof);
      if proof > 0 {
        WalkSound(blocks, hash, number, ancestry[..n], proof - 1);
        ReachesNext(blocks, hash, number, ancestry[..n], proof);
      } else {
        OnlyGenesis(blocks, hash, number, ancestry);
      }
    }
  }

  lemma OnlyGenesis(blocks: seq<BlockHeader>, hash: Digest, number: nat, ancestry: seq<Encoded<BlockHeader>>)
    requires 0 < |blocks| && ancestry != [] && ancestry[|ancestry| - 1] == Encoded(blocks[0])
    requires Walk(hash, number, ancestry[..|ancestry| - 1]) == Some((Zero, U32_MAX)) && number <= U32_MAX
    ensures Reaches(blocks, hash, number, ancestry, 0)
  {
    WalkNumbers(hash, number, ancestry[..|ancestry| - 1]);
    assert ancestry == FromGenesis(blocks, 0);
  }

  lemma {:induction false} WalkFromGenesis(blocks: seq<BlockHeader>, proof: nat)
    requires Canonical(blocks) && proof < |blocks|
    ensures Walk(Zero, U32_MAX, FromGenesis(blocks, proof)) == Some((BlockDigest(blocks[proof]), proof))
    decreases proof
  {
    assert FromGenesis(blocks, proof)[..proof] == if proof == 0 then [] else FromGenesis(blocks, proof - 1);
    if proof > 0 {
      WalkFromGenesis(blocks, proof - 1);
    }
  }

  /** For a canonical proof block a certificate passes exactly when its target and headers are
      the canonical ones, apart from the one certificate that wraps around below genesis. */
  lemma AncestryIff(blocks: seq<BlockHeader>, c: Certificate)
    requires Canonical(blocks) && c.proofNumber < |blocks| && c.proofHash == BlockDigest(blocks[c.proofNumber])
    requires c.targetNumber <= U32_MAX
    ensures ChainOk(c) <==> Reaches(blocks, c.targetHash, c.targetNumber, c.ancestry, c.proofNumber)
  {
    if ChainOk(c) {
      WalkSound(blocks, c.targetHash, c.targetNumber, c.ancestry, c.proofNumber);
    } else {
      WalkFromGenesis(blocks, c.proofNumber);
      if c.targetNumber <= c.proofNumber {
        WalkCanonical(blocks, c.targetNumber, c.proofNumber);
      }
    }
  }

  /** A node that knows the canonical chain hands out exactly what the importer accepts. */
  lemma CertificateRoundTrip(blocks: seq<BlockHeader>, node: Node, target: nat, proof: nat,
                             headers: seq<Encoded<BlockHeader>>, setId: nat)
    requires Canonical(blocks) && target <= proof < |blocks|
    requires forall n :: 0 <= n < |blocks| ==> Known(node, n) && HeaderAt(node, n) == blocks[n]
    requires |headers| == proof - target && forall i :: 0 <= i < |headers| ==>
        headers[i] == Encoded(HeaderAt(node, target + 1 + i))
    ensures ChainOk(Certificate(setId, target, BlockDigest(blocks[target]), proof, BlockDigest(blocks[proof]), headers))
  {
    WalkCanonical(blocks, target, proof);
    assert headers == Segment(blocks, target, proof);
  }

  /** Header `i` names its predecessor, or `hash` if it is the first. */
  predicate LinkAt(hash: Digest, ancestry: seq<Encoded<BlockHeader>>, i: nat)
    requires i < |ancestry|
  {
    && ancestry[i].Encoded? && (i > 0 ==> ancestry[i - 1].Encoded?)
    && ancestry[i].value.parentHash == if i == 0 then hash else BlockDigest(ancestry[i - 1].value)
  }

  predicate Linked(hash: Digest, ancestry: seq<Encoded<BlockHeader>>) {
    forall i :: 0 <= i < |ancestry| ==> LinkAt(hash, ancestry, i)
  }

  /** Whatever the blocks are: as many parent links as there are headers lead from the proof block
      back to the target, and the heights differ by their number, modulo 2^32. */
  lemma {:induction false} WalkDescends(hash: Digest, number: nat, ancestry: seq<Encoded<BlockHeader>>)
    requires Walk(hash, number, ancestry).Some? && number <= U32_MAX
    ensures Linked(hash, ancestry)
    ensures var reached := Walk(hash, number, ancestry).value;
            && reached.0 == (if ancestry == [] then hash else BlockDigest(ancestry[|ancestry| - 1].value))
            && reached.1 == AsU32(number + |ancestry|)
    decreases |ancestry|
  {
    if ancestry != [] {
      var n := |ancestry| - 1;
      WalkDescends(hash, number, ancestry[..n]);
      forall i | 0 <= i < |ancestry| ensures LinkAt(hash, ancestry, i) {
        if i < n {
          assert LinkAt(hash, ancestry[..n], i);
        }
      }
      NextNumber(number + n);
    }
  }

  lemma NextNumber(n: nat)
    ensures AsU32(AsU32(n) + 1) == AsU32(n + 1)
  {
  }

  lemma AcceptedDescends(c: Certificate)
    requires ChainOk(c) && c.targetNumber <= U32_MAX
    ensures Linked(c.targetHash, c.ancestry) && c.proofNumber == AsU32(c.targetNumber + |c.ancestry|)
    ensures c.proofHash == if c.ancestry == [] then c.targetHash else BlockDigest(c.ancestry[|c.ancestry| - 1].value)
  {
    WalkDescends(c.targetHash, c.targetNumber, c.ancestry);
  }
}
