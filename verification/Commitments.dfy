/** Commitments to leaf lists: canonical order, root, inclusion proofs.  The statements are
    proved once for any leaf type and used for the three families of the protocol. */
module Commitments {
  import opened Types
  import opened Sorting
  import opened Merkle

  // ---------- any leaf type ----------

  function Hashes<L>(leaves: seq<L>, hashOf: L -> Digest): (hashes: seq<Digest>)
    ensures |hashes| == |leaves|
    ensures forall i :: 0 <= i < |leaves| ==> hashes[i] == hashOf(leaves[i])
  {
    seq(|leaves|, (i: nat) requires i < |leaves| => hashOf(leaves[i]))
  }

  /** `iter().position(..)`, or the length when nothing matches. */
  function Position<L>(leaves: seq<L>, wanted: L -> bool): (index: nat)
    ensures index <= |leaves|
    ensures index < |leaves| ==> wanted(leaves[index])
    ensures forall i :: 0 <= i < index ==> !wanted(leaves[i])
  {
    if leaves == [] then 0
    else if wanted(leaves[0]) then 0
    else
      var rest := Position(leaves[1..], wanted);
      assert forall i :: 1 <= i < rest + 1 ==> leaves[i] == leaves[1..][i - 1];
      rest + 1
  }

  function CommitRoot<L>(family: Family, empty: Digest, leaves: seq<L>, hashOf: L -> Digest,
                         leq: (L, L) -> bool): Digest {
    var ordered := Sort(leaves, leq);
    if ordered == [] then empty else Root(family, Hashes(ordered, hashOf))
  }

  /** Index and count are stored as 32-bit numbers. */
  function BuildProof<L>(family: Family, leaves: seq<L>, hashOf: L -> Digest, leq: (L, L) -> bool, wanted: L -> bool)
    : Option<Inclusion<L>>
  {
    var ordered := Sort(leaves, leq);
    var index := Position(ordered, wanted);
    if index == |ordered| then None
    else Some(Inclusion(PROOF_VERSION, ordered[index], AsU32(index), AsU32(|ordered|),
                        Siblings(family, Hashes(ordered, hashOf), index)))
  }

  predicate VerifyProof<L>(family: Family, root: Digest, proof: Inclusion<L>, hashOf: L -> Digest,
                           canonical: L -> bool) {
    canonical(proof.leaf)
    && Accepts(family, root, hashOf(proof.leaf), proof.leafIndex, proof.leafCount, proof.siblings)
  }

  /** `*_merkle_root`: order, then hash level by level. */
  method ComputeCommitRoot<L>(family: Family, empty: Digest, leaves: seq<L>, hashOf: L -> Digest, leq: (L, L) -> bool)
    returns (root: Digest)
    ensures root == CommitRoot(family, empty, leaves, hashOf, leq)
  {
    var ordered := Sort(leaves, leq);
    root := ComputeRoot(family, empty, Hashes(ordered, hashOf));
    assert ordered == [] <==> Hashes(ordered, hashOf) == [];
  }

  /** `build_*_inclusion_proof`. */
  method BuildInclusionProof<L>(family: Family, leaves: seq<L>, hashOf: L -> Digest, leq: (L, L) -> bool,
                                wanted: L -> bool)
    returns (proof: Option<Inclusion<L>>)
    ensures proof == BuildProof(family, leaves, hashOf, leq, wanted)
  {
    var ordered := Sort(leaves, leq);
    var leafIndex := Position(ordered, wanted);
    if leafIndex == |ordered| {
      return None;
    }
    var siblings := CollectSiblings(family, Hashes(ordered, hashOf), leafIndex);
    proof := Some(Inclusion(PROOF_VERSION, ordered[leafIndex], AsU32(leafIndex),
                            AsU32(|ordered|), siblings));
  }

  /** `verify_*_inclusion_proof`. */
  method VerifyInclusionProof<L>(family: Family, root: Digest, proof: Inclusion<L>, hashOf: L -> Digest,
                                 canonical: L -> bool)
    returns (ok: bool)
    ensures ok <==> VerifyProof(family, root, proof, hashOf, canonical)
  {
    if !canonical(proof.leaf) {
      return false;
    }
    ok := VerifyClimb(family, root, hashOf(proof.leaf), proof.leafIndex, proof.leafCount, proof.siblings);
  }

  /** What an ideal hash gives a family: canonical leaves with the same hash are the same leaf,
      and no leaf hash is a tree node or an empty root. */
  ghost predicate Ideal<L(!new)>(family: Family, hashOf: L -> Digest, canonical: L -> bool) {
    && (forall a, b :: canonical(a) && canonical(b) && hashOf(a) == hashOf(b) ==> a == b)
    && (forall a :: canonical(a) ==> !hashOf(a).Node? && !hashOf(a).EmptyRoot?)
  }

  predicate AllCanonical<L>(leaves: seq<L>, canonical: L -> bool) {
    forall i :: 0 <= i < |leaves| ==> canonical(leaves[i])
  }

  lemma SortedCanonical<L(!new)>(leaves: seq<L>, leq: (L, L) -> bool, canonical: L -> bool)
    requires AllCanonical(leaves, canonical)
    ensures AllCanonical(Sort(leaves, leq), canonical)
  {
    SortMembers(leaves, leq);
    var ordered := Sort(leaves, leq);
    forall i | 0 <= i < |ordered| ensures canonical(ordered[i]) {
      assert ordered[i] in ordered;
    }
  }

  /** Every accepted proof shows a committed leaf, whatever it claims about position and size. */
  lemma ProofSound<L(!new)>(family: Family, empty: Digest, leaves: seq<L>, hashOf: L -> Digest, leq: (L, L) -> bool,
                            canonical: L -> bool, proof: Inclusion<L>)
    requires Ideal(family, hashOf, canonical) && AllCanonical(leaves, canonical) && empty.EmptyRoot?
    requires VerifyProof(family, CommitRoot(family, empty, leaves, hashOf, leq), proof, hashOf, canonical)
    ensures proof.leaf in leaves
  {
    var ordered := Sort(leaves, leq);
    SortMembers(leaves, leq);
    SortedCanonical(leaves, leq, canonical);
    if ordered == [] {
      EmptyRootAcceptsNothing(family, empty, hashOf(proof.leaf), proof.leafIndex, proof.leafCount, proof.siblings);
    } else {
      Soundness(family, Hashes(ordered, hashOf), hashOf(proof.leaf), proof.leafIndex, proof.leafCount, proof.siblings);
      var i :| 0 <= i < |ordered| && Hashes(ordered, hashOf)[i] == hashOf(proof.leaf);
      assert ordered[i] == proof.leaf;
    }
  }

  /** The built proof, below 2^32 leaves: nothing is truncated. */
  lemma BuiltProof<L(!new)>(family: Family, leaves: seq<L>, hashOf: L -> Digest, leq: (L, L) -> bool, wanted: L -> bool,
                            leaf: L)
    returns (index: nat)
    requires |leaves| <= U32_MAX && leaf in leaves && wanted(leaf)
    ensures index < |leaves| && Sort(leaves, leq)[index] in leaves && wanted(Sort(leaves, leq)[index])
    ensures BuildProof(family, leaves, hashOf, leq, wanted)
         == Some(Inclusion(PROOF_VERSION, Sort(leaves, leq)[index], index, |leaves|,
                           Siblings(family, Hashes(Sort(leaves, leq), hashOf), index)))
  {
    var ordered := Sort(leaves, leq);
    SortMembers(leaves, leq);
    assert leaf in ordered;
    index := Position(ordered, wanted);
    assert ordered[index] in ordered;
  }

  /** Every built proof is accepted and shows a wanted leaf, up to 2^32 - 1 leaves. */
  lemma ProofComplete<L(!new)>(family: Family, empty: Digest, leaves: seq<L>, hashOf: L -> Digest, leq: (L, L) -> bool,
                               canonical: L -> bool, wanted: L -> bool, leaf: L) returns (proof: Inclusion<L>)
    requires AllCanonical(leaves, canonical) && |leaves| <= U32_MAX
    requires leaf in leaves && wanted(leaf)
    ensures BuildProof(family, leaves, hashOf, leq, wanted) == Some(proof)
    ensures proof.leaf in leaves && wanted(proof.leaf)
    ensures VerifyProof(family, CommitRoot(family, empty, leaves, hashOf, leq), proof, hashOf, canonical)
  {
    var index := BuiltProof(family, leaves, hashOf, leq, wanted, leaf);
    proof := BuildProof(family, leaves, hashOf, leq, wanted).value;
    Completeness(family, Hashes(Sort(leaves, leq), hashOf), index);
  }

  lemma RootPermutation<L(!new)>(family: Family, empty: Digest, a: seq<L>, b: seq<L>, hashOf: L -> Digest,
                                 leq: (L, L) -> bool)
    requires TotalPreorder(leq) && multiset(a) == multiset(b) && DistinctKeys(a, leq)
    ensures CommitRoot(family, empty, a, hashOf, leq) == CommitRoot(family, empty, b, hashOf, leq)
  {
    SortDistinct(a, leq);
    SortPermutation(a, b, leq);
  }

  lemma RootDetermines<L(!new)>(family: Family, empty: Digest, a: seq<L>, b: seq<L>, hashOf: L -> Digest,
                                leq: (L, L) -> bool,
                                canonical: L -> bool)
    requires Ideal(family, hashOf, canonical) && TotalPreorder(leq)
    requires AllCanonical(a, canonical) && AllCanonical(b, canonical)
    requires a != [] && b != [] && DistinctKeys(a, leq) && DistinctKeys(b, leq)
    requires CommitRoot(family, empty, a, hashOf, leq) == CommitRoot(family, empty, b, hashOf, leq)
    ensures Sort(a, leq) == Sort(b, leq)
  {
    var oa, ob := Sort(a, leq), Sort(b, leq);
    SortedCanonical(a, leq, canonical);
    SortedCanonical(b, leq, canonical);
    SortDistinct(a, leq);
    SortDistinct(b, leq);
    HashesDistinct(oa, hashOf, leq, canonical, family);
    HashesDistinct(ob, hashOf, leq, canonical, family);
    RootDeterminesList(family, Hashes(oa, hashOf), Hashes(ob, hashOf));
    forall i | 0 <= i < |oa| ensures oa[i] == ob[i] {
      assert Hashes(oa, hashOf)[i] == Hashes(ob, hashOf)[i];
    }
  }

  /** Over lists with distinct keys the root and the set of leaves determine each other. */
  lemma RootCanonical<L(!new)>(family: Family, empty: Digest, a: seq<L>, b: seq<L>, hashOf: L -> Digest,
                               leq: (L, L) -> bool,
                               canonical: L -> bool)
    requires Ideal(family, hashOf, canonical) && TotalPreorder(leq)
    requires AllCanonical(a, canonical) && AllCanonical(b, canonical)
    requires a != [] && b != [] && DistinctKeys(a, leq) && DistinctKeys(b, leq)
    ensures multiset(a) == multiset(b) <==>
            CommitRoot(family, empty, a, hashOf, leq) == CommitRoot(family, empty, b, hashOf, leq)
  {
    if multiset(a) == multiset(b) {
      RootPermutation(family, empty, a, b, hashOf, leq);
    } else if CommitRoot(family, empty, a, hashOf, leq) == CommitRoot(family, empty, b, hashOf, leq) {
      RootDetermines(family, empty, a, b, hashOf, leq, canonical);
    }
  }

  lemma HashesDistinct<L(!new)>(s: seq<L>, hashOf: L -> Digest, leq: (L, L) -> bool, canonical: L -> bool,
                                family: Family)
    requires Ideal(family, hashOf, canonical) && TotalPreorder(leq) && AllCanonical(s, canonical)
    requires DistinctKeys(s, leq)
    ensures Distinct(Hashes(s, hashOf)) && AllLeaves(family, Hashes(s, hashOf))
  {
    var hashes := Hashes(s, hashOf);
    forall i, j | 0 <= i < j < |hashes| ensures hashes[i] != hashes[j] {
      assert leq(s[i], s[i]);
      assert !(leq(s[i], s[j]) && leq(s[j], s[i]));
    }
  }

  // ---------- the three families ----------

  predicate IdLeq(a: ItemId, b: ItemId) {
    DomainRank(a.domain) < DomainRank(b.domain) || (a.domain == b.domain && a.sequence <= b.sequence)
  }

  /** `export_leaf_ordering`: block, extrinsic, id. */
  predicate ExportLeq(a: ExportLeaf, b: ExportLeaf) {
    var x, y := a.input, b.input;
    x.sourceBlock < y.sourceBlock ||
    (x.sourceBlock == y.sourceBlock &&
     (x.extrinsicIndex < y.extrinsicIndex || (x.extrinsicIndex == y.extrinsicIndex && IdLeq(x.exportId, y.exportId))))
  }

  predicate ImportLeq(a: FinalizedImportLeaf, b: FinalizedImportLeaf) {
    IdLeq(a.input.exportId, b.input.exportId)
  }

  function KindOrder(leaf: GovernanceLeaf): nat { if leaf.ProposalLeaf? then 0 else 1 }

  /** `governance_leaf_ordering`: target, kind, proposal, ordering domain. */
  predicate GovernanceLeq(a: GovernanceLeaf, b: GovernanceLeaf) {
    var ta, tb := DomainRank(a.TargetDomain()), DomainRank(b.TargetDomain());
    ta < tb ||
    (ta == tb &&
     (KindOrder(a) < KindOrder(b) ||
      (KindOrder(a) == KindOrder(b) &&
       (!IdLeq(b.ProposalId(), a.ProposalId()) ||
        (a.ProposalId() == b.ProposalId() && DomainRank(a.OrderingDomain()) <= DomainRank(b.OrderingDomain()))))))
  }

  lemma OrdersAreTotal()
    ensures TotalPreorder(ExportLeq) && TotalPreorder(ImportLeq) && TotalPreorder(GovernanceLeq)
  {
  }

  function ExportHash(leaf: ExportLeaf): Digest { leaf.exportHash }
  function ImportHash(leaf: FinalizedImportLeaf): Digest { leaf.importHash }
  function GovernanceHash(leaf: GovernanceLeaf): Digest { leaf.leafHash }
  predicate ExportCanonical(leaf: ExportLeaf) { leaf.Canonical() }
  predicate ImportCanonical(leaf: FinalizedImportLeaf) { leaf.Canonical() }
  predicate GovernanceCanonical(leaf: GovernanceLeaf) { leaf.Canonical() }

  function ExportRoot(domain: DomainId, epoch: EpochId, start: nat, end: nat, leaves: seq<ExportLeaf>): Digest {
    CommitRoot(ExportTree, EmptyRoot(ExportTree, domain, epoch, start, end), leaves, ExportHash, ExportLeq)
  }
  function ImportRoot(domain: DomainId, epoch: EpochId, start: nat, end: nat,
                      leaves: seq<FinalizedImportLeaf>): Digest {
    CommitRoot(ImportTree, EmptyRoot(ImportTree, domain, epoch, start, end), leaves, ImportHash, ImportLeq)
  }
  function GovernanceRoot(domain: DomainId, epoch: EpochId, start: nat, end: nat, leaves: seq<GovernanceLeaf>): Digest {
    CommitRoot(GovernanceTree, EmptyRoot(GovernanceTree, domain, epoch, start, end), leaves, GovernanceHash,
               GovernanceLeq)
  }

  function BuildExportProof(leaves: seq<ExportLeaf>, id: ItemId): Option<Inclusion<ExportLeaf>> {
    BuildProof(ExportTree, leaves, ExportHash, ExportLeq, (leaf: ExportLeaf) => leaf.input.exportId == id)
  }
  function BuildImportProof(leaves: seq<FinalizedImportLeaf>, id: ItemId): Option<Inclusion<FinalizedImportLeaf>> {
    BuildProof(ImportTree, leaves, ImportHash, ImportLeq, (leaf: FinalizedImportLeaf) => leaf.input.exportId == id)
  }
  function BuildGovernanceProof(leaves: seq<GovernanceLeaf>, hash: Digest): Option<Inclusion<GovernanceLeaf>> {
    BuildProof(GovernanceTree, leaves, GovernanceHash, GovernanceLeq, (leaf: GovernanceLeaf) => leaf.leafHash == hash)
  }

  predicate VerifyExport(root: Digest, proof: Inclusion<ExportLeaf>) {
    VerifyProof(ExportTree, root, proof, ExportHash, ExportCanonical)
  }
  predicate VerifyImport(root: Digest, proof: Inclusion<FinalizedImportLeaf>) {
    VerifyProof(ImportTree, root, proof, ImportHash, ImportCanonical)
  }
  predicate VerifyGovernance(root: Digest, proof: Inclusion<GovernanceLeaf>) {
    VerifyProof(GovernanceTree, root, proof, GovernanceHash, GovernanceCanonical)
  }

  lemma FamiliesAreIdeal()
    ensures Ideal(ExportTree, ExportHash, ExportCanonical)
    ensures Ideal(ImportTree, ImportHash, ImportCanonical)
    ensures Ideal(GovernanceTree, GovernanceHash, GovernanceCanonical)
  {
  }

  lemma ExportSound(domain: DomainId, epoch: EpochId, start: nat, end: nat, leaves: seq<ExportLeaf>,
                    proof: Inclusion<ExportLeaf>)
    requires AllCanonical(leaves, ExportCanonical)
    requires VerifyExport(ExportRoot(domain, epoch, start, end, leaves), proof)
    ensures proof.leaf in leaves
  {
    FamiliesAreIdeal();
    ProofSound(ExportTree, EmptyRoot(ExportTree, domain, epoch, start, end), leaves, ExportHash, ExportLeq,
               ExportCanonical, proof);
  }

  lemma ImportSound(domain: DomainId, epoch: EpochId, start: nat, end: nat, leaves: seq<FinalizedImportLeaf>,
                    proof: Inclusion<FinalizedImportLeaf>)
    requires AllCanonical(leaves, ImportCanonical)
    requires VerifyImport(ImportRoot(domain, epoch, start, end, leaves), proof)
    ensures proof.leaf in leaves
  {
    FamiliesAreIdeal();
    ProofSound(ImportTree, EmptyRoot(ImportTree, domain, epoch, start, end), leaves, ImportHash, ImportLeq,
               ImportCanonical, proof);
  }

  lemma GovernanceSound(domain: DomainId, epoch: EpochId, start: nat, end: nat, leaves: seq<GovernanceLeaf>,
                        proof: Inclusion<GovernanceLeaf>)
    requires AllCanonical(leaves, GovernanceCanonical)
    requires VerifyGovernance(GovernanceRoot(domain, epoch, start, end, leaves), proof)
    ensures proof.leaf in leaves
  {
    FamiliesAreIdeal();
    ProofSound(GovernanceTree, EmptyRoot(GovernanceTree, domain, epoch, start, end), leaves, GovernanceHash,
               GovernanceLeq, GovernanceCanonical, proof);
  }

  /** Export leaves with distinct ids: one canonical order, one root, whatever the storage order. */
  ghost predicate DistinctExportIds(leaves: seq<ExportLeaf>) {
    forall i, j :: 0 <= i < j < |leaves| ==> leaves[i].input.exportId != leaves[j].input.exportId
  }

  lemma ExportRootCanonical(domain: DomainId, epoch: EpochId, start: nat, end: nat, a: seq<ExportLeaf>,
                            b: seq<ExportLeaf>)
    requires DistinctExportIds(a) && DistinctExportIds(b)
    requires AllCanonical(a, ExportCanonical) && AllCanonical(b, ExportCanonical) && a != [] && b != []
    ensures multiset(a) == multiset(b) <==>
            ExportRoot(domain, epoch, start, end, a) == ExportRoot(domain, epoch, start, end, b)
  {
    OrdersAreTotal();
    FamiliesAreIdeal();
    ExportIdsAreKeys(a);
    ExportIdsAreKeys(b);
    RootCanonical(ExportTree, EmptyRoot(ExportTree, domain, epoch, start, end), a, b, ExportHash, ExportLeq,
                  ExportCanonical);
  }

  lemma ExportIdsAreKeys(leaves: seq<ExportLeaf>)
    requires DistinctExportIds(leaves)
    ensures DistinctKeys(leaves, ExportLeq)
  {
  }
}
