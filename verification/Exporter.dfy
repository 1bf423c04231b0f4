/** The exporter: committed leaves are grouped by the domain they are addressed to and packed
    with their inclusion proofs.  What it builds, the relay and the importer accept. */
module Exporter {
  import opened Types
  import opened Commitments
  import opened Packages
  import opened Chain
  import E = Epochs
  import T = Transfers
  import TP = TransfersProofs
  import G = Governance
  import GP = GovernanceProofs
  import GS = GovernanceSteps

  // ---------- grouping ----------

  /** The leaves addressed to one domain, in order. */
  function ForTarget<L>(leaves: seq<L>, addressee: L -> DomainId, d: DomainId): seq<L> {
    if leaves == [] then []
    else
      var n := |leaves| - 1;
      ForTarget(leaves[..n], addressee, d) + (if addressee(leaves[n]) == d then [leaves[n]] else [])
  }

  /** Every leaf is in the group of its addressee and in no other. */
  lemma {:induction false} GroupsPartition<L>(leaves: seq<L>, addressee: L -> DomainId, d: DomainId, leaf: L)
    ensures leaf in ForTarget(leaves, addressee, d) <==> leaf in leaves && addressee(leaf) == d
  {
    if leaves != [] {
      var n := |leaves| - 1;
      GroupsPartition(leaves[..n], addressee, d, leaf);
      assert leaves == leaves[..n] + [leaves[n]];
    }
  }

  /** `group_exports_by_target`, `group_finalized_imports_by_source`, `group_governance_by_target`. */
  method GroupByAddressee<L>(leaves: seq<L>, addressee: L -> DomainId) returns (groups: map<DomainId, seq<L>>)
    ensures forall d: DomainId :: (d in groups <==> ForTarget(leaves, addressee, d) != [])
                               && (d in groups ==> groups[d] == ForTarget(leaves, addressee, d))
  {
    groups := map[];
    var i := 0;
    while i < |leaves|
      invariant 0 <= i <= |leaves|
      invariant forall d: DomainId :: (d in groups <==> ForTarget(leaves[..i], addressee, d) != [])
                                   && (d in groups ==> groups[d] == ForTarget(leaves[..i], addressee, d))
    {
      var d := addressee(leaves[i]);
      assert leaves[..i + 1][..i] == leaves[..i];
      groups := groups[d := Lookup(groups, d, []) + [leaves[i]]];
      i := i + 1;
    }
    assert leaves[..i] == leaves;
  }

  datatype TargetInputs = TargetInputs(
    exports: seq<ExportLeaf>, completions: seq<FinalizedImportLeaf>, governance: seq<GovernanceLeaf>)

  method AddCompletions(inputs: map<DomainId, TargetInputs>, completions: map<DomainId, seq<FinalizedImportLeaf>>)
    returns (combined: map<DomainId, TargetInputs>)
    ensures combined.Keys == inputs.Keys + completions.Keys
    ensures forall d :: d in combined ==>
              combined[d] == if d in completions
                             then Lookup(inputs, d, TargetInputs([], [], [])).(completions := completions[d])
                             else inputs[d]
  {
    combined := inputs + map d | d in completions ::
      Lookup(inputs, d, TargetInputs([], [], [])).(completions := completions[d]);
  }

  /** `combine_target_inputs`: one entry per domain that anything is addressed to. */
  method CombineTargetInputs(exports: map<DomainId, seq<ExportLeaf>>,
                             completions: map<DomainId, seq<FinalizedImportLeaf>>,
                             governance: map<DomainId, seq<GovernanceLeaf>>)
    returns (combined: map<DomainId, TargetInputs>)
    ensures combined.Keys == exports.Keys + completions.Keys + governance.Keys
    ensures forall d :: d in combined ==>
              combined[d] == TargetInputs(Lookup(exports, d, []), Lookup(completions, d, []), Lookup(governance, d, []))
  {
    var one: map<DomainId, TargetInputs> := map d | d in exports :: TargetInputs(exports[d], [], []);
    var two := AddCompletions(one, completions);
    combined := two + map d | d in governance ::
      Lookup(two, d, TargetInputs([], [], [])).(governance := governance[d]);
  }

  // ---------- packing ----------

  /** All the proofs, or none if one is missing. */
  function ProofsFor<L>(group: seq<L>, build: L -> Option<Inclusion<L>>): Option<seq<Inclusion<L>>> {
    if group == [] then Some([])
    else
      var n := |group| - 1;
      var before := ProofsFor(group[..n], build);
      var last := build(group[n]);
      if before.None? || last.None? then None else Some(before.value + [last.value])
  }

  function EncodeExports(proofs: seq<Inclusion<ExportLeaf>>): seq<Encoded<InclusionProof>> {
    seq(|proofs|, i requires 0 <= i < |proofs| => Encoded(ExportProof(proofs[i])))
  }
  function EncodeCompletions(proofs: seq<Inclusion<FinalizedImportLeaf>>): seq<Encoded<InclusionProof>> {
    seq(|proofs|, i requires 0 <= i < |proofs| => Encoded(FinalizedImportProof(proofs[i])))
  }
  function EncodeGovernance(proofs: seq<Inclusion<GovernanceLeaf>>): seq<Encoded<InclusionProof>> {
    seq(|proofs|, i requires 0 <= i < |proofs| => Encoded(GovernanceProof(proofs[i])))
  }

  /** `from_bundle_with_mixed_proofs`. */
  function Pack(header: SummaryHeader, certificate: Certificate, storage: InclusionProof,
                exports: seq<Inclusion<ExportLeaf>>,
                completions: seq<Inclusion<FinalizedImportLeaf>>, governance: seq<Inclusion<GovernanceLeaf>>): Package
  {
    var items := [Encoded(storage)]
      + (EncodeExports(exports) + (EncodeCompletions(completions) + EncodeGovernance(governance)));
    var input := PackageInput(PACKAGE_VERSION, header, certificate, items, []);
    Package(input, PackageDigest(input))
  }

  /** What the node serves about one staged epoch. */
  datatype EpochData = EpochData(
    header: SummaryHeader, exports: seq<ExportLeaf>, completions: seq<FinalizedImportLeaf>,
    governance: seq<GovernanceLeaf>)

  predicate RootsMatch(data: EpochData) {
    var h := data.header.input;
    && h.exportRoot == ExportRoot(h.domain, h.epoch, h.start, h.end, data.exports)
    && h.importRoot == ImportRoot(h.domain, h.epoch, h.start, h.end, data.completions)
    && h.governanceRoot == GovernanceRoot(h.domain, h.epoch, h.start, h.end, data.governance)
  }

  function ExportAddressee(leaf: ExportLeaf): DomainId { leaf.input.targetDomain }
  function CompletionAddressee(leaf: FinalizedImportLeaf): DomainId { leaf.input.sourceDomain }
  function GovernanceAddressee(leaf: GovernanceLeaf): DomainId { leaf.TargetDomain() }

  function InputsFor(data: EpochData, d: DomainId): TargetInputs {
    TargetInputs(ForTarget(data.exports, ExportAddressee, d), ForTarget(data.completions, CompletionAddressee, d),
                 ForTarget(data.governance, GovernanceAddressee, d))
  }

  predicate HasInputs(inputs: TargetInputs) { inputs.exports != [] || inputs.completions != []
      || inputs.governance != [] }

  function ExportProofOf(data: EpochData): ExportLeaf -> Option<Inclusion<ExportLeaf>> {
    (leaf: ExportLeaf) => BuildExportProof(data.exports, leaf.input.exportId)
  }
  function CompletionProofOf(data: EpochData): FinalizedImportLeaf -> Option<Inclusion<FinalizedImportLeaf>> {
    (leaf: FinalizedImportLeaf) => BuildImportProof(data.completions, leaf.input.exportId)
  }
  function GovernanceProofOf(data: EpochData): GovernanceLeaf -> Option<Inclusion<GovernanceLeaf>> {
    (leaf: GovernanceLeaf) => BuildGovernanceProof(data.governance, leaf.leafHash)
  }

  /** The package for one target, if every proof can be built. */
  function BuildFor(data: EpochData, certificate: Certificate, storage: InclusionProof,
                    inputs: TargetInputs): Option<Package> {
    var exports := ProofsFor(inputs.exports, ExportProofOf(data));
    var completions := ProofsFor(inputs.completions, CompletionProofOf(data));
    var governance := ProofsFor(inputs.governance, GovernanceProofOf(data));
    if exports.None? || completions.None? || governance.None? then None
    else Some(Pack(data.header, certificate, storage, exports.value, completions.value, governance.value))
  }

  ghost predicate Buildable(data: EpochData, certificate: Certificate, storage: InclusionProof) {
    && RootsMatch(data)
    && forall d: DomainId :: HasInputs(InputsFor(data, d)) ==>
         BuildFor(data, certificate, storage, InputsFor(data, d)).Some?
  }

  method CollectInputs(data: EpochData) returns (combined: map<DomainId, TargetInputs>)
    ensures forall d: DomainId :: d in combined <==> HasInputs(InputsFor(data, d))
    ensures forall d: DomainId :: d in combined ==> combined[d] == InputsFor(data, d)
  {
    hide ForTarget;
    var exports := GroupByAddressee(data.exports, ExportAddressee);
    var completions := GroupByAddressee(data.completions, CompletionAddressee);
    var governance := GroupByAddressee(data.governance, GovernanceAddressee);
    combined := CombineTargetInputs(exports, completions, governance);
  }

  /** One certified epoch of `sync_once`: nothing when the roots disagree or a proof is missing,
      otherwise one package per domain with something addressed to it. */
  method BuildPackages(data: EpochData, certificate: Certificate, storage: InclusionProof)
    returns (r: Option<map<DomainId, Package>>)
    ensures r.Some? <==> Buildable(data, certificate, storage)
    ensures r.Some? ==> forall d: DomainId :: d in r.value <==> HasInputs(InputsFor(data, d))
    ensures r.Some? ==> forall d: DomainId :: d in r.value ==>
        Some(r.value[d]) == BuildFor(data, certificate, storage, InputsFor(data, d))
  {
    hide RootsMatch, HasInputs, InputsFor, BuildFor;
    if !RootsMatch(data) {
      return None;
    }
    var combined := CollectInputs(data);
    var packages: map<DomainId, Package> := map[];
    var domains := [Earth, Moon, Mars];
    var i := 0;
    while i < 3
      invariant 0 <= i <= 3
      invariant forall d: DomainId :: d in packages <==> DomainRank(d) < i && d in combined
      invariant forall d: DomainId :: d in packages ==>
          Some(packages[d]) == BuildFor(data, certificate, storage, InputsFor(data, d))
    {
      var d := domains[i];
      if d in combined {
        var package := BuildFor(data, certificate, storage, combined[d]);
        if package.None? {
          return None;
        }
        packages := packages[d := package.value];
      }
      i := i + 1;
    }
    r := Some(packages);
  }

  // ---------- end to end ----------

  /** Leaves of this epoch of this chain, each under its own key. */
  ghost predicate EpochOk(data: EpochData) {
    var h := data.header.input;
    && AllCanonical(data.exports, ExportCanonical) && AllCanonical(data.completions, ImportCanonical)
    && AllCanonical(data.governance, GovernanceCanonical)
    && (forall a, b :: a in data.exports && b in data.exports && a.input.exportId == b.input.exportId ==> a == b)
    && (forall a, b :: a in data.completions && b in data.completions && a.input.exportId == b.input.exportId ==>
          a == b)
    && (forall a :: a in data.exports ==> a.input.sourceDomain == h.domain && a.input.sourceEpoch == h.epoch)
    && (forall a :: a in data.completions ==> a.input.targetDomain == h.domain)
    && (forall a :: a in data.governance ==> a.LeafEpoch() == h.epoch && a.OrderingDomain() == h.domain)
  }

  /** Positions and counts fit into 32 bits. */
  predicate Small(data: EpochData) {
    && |data.exports| <= U32_MAX && |data.completions| <= U32_MAX
    && |data.governance| <= U32_MAX
  }

  predicate LeavesAre<L(==)>(proofs: seq<Inclusion<L>>, leaves: seq<L>) {
    |proofs| == |leaves| && forall i :: 0 <= i < |leaves| ==> proofs[i].leaf == leaves[i]
  }

  /** Proofs for a whole group, when each leaf has one that passes. */
  lemma {:induction false} ProofsBuilt<L(!new)>(group: seq<L>, build: L -> Option<Inclusion<L>>,
                                                ok: Inclusion<L> -> bool)
    requires forall leaf :: leaf in group ==>
        build(leaf).Some? && build(leaf).value.leaf == leaf && ok(build(leaf).value)
    ensures var r := ProofsFor(group, build);
            r.Some? && LeavesAre(r.value, group) && forall i :: 0 <= i < |r.value| ==> ok(r.value[i])
  {
    if group != [] {
      var n := |group| - 1;
      assert group[n] in group && forall leaf :: leaf in group[..n] ==> leaf in group;
      ProofsBuilt(group[..n], build, ok);
    }
  }

  lemma ExportProofsPass(data: EpochData, d: DomainId, leaf: ExportLeaf)
    requires RootsMatch(data) && EpochOk(data) && Small(data) && leaf in data.exports && ExportAddressee(leaf) == d
    ensures var r := ExportProofOf(data)(leaf);
              r.Some? && r.value.leaf == leaf && ForwardOk(data.header.input, d, r.value)
  {
    hide CommitRoot, BuildProof, VerifyProof;
    var h := data.header.input;
    var empty := EmptyRoot(ExportTree, h.domain, h.epoch, h.start, h.end);
    var proof := ProofComplete(ExportTree, empty, data.exports, ExportHash, ExportLeq, ExportCanonical,
                               (x: ExportLeaf) => x.input.exportId == leaf.input.exportId, leaf);
    assert ExportProofOf(data)(leaf) == Some(proof);
    assert VerifyExport(h.exportRoot, proof);
  }

  lemma CompletionProofsPass(data: EpochData, d: DomainId, leaf: FinalizedImportLeaf)
    requires RootsMatch(data) && EpochOk(data) && Small(data) && leaf in data.completions
    requires CompletionAddressee(leaf) == d
    ensures var r := CompletionProofOf(data)(leaf);
              r.Some? && r.value.leaf == leaf && CompletionOk(data.header.input, d, r.value)
  {
    hide CommitRoot, BuildProof, VerifyProof;
    var h := data.header.input;
    var empty := EmptyRoot(ImportTree, h.domain, h.epoch, h.start, h.end);
    var proof := ProofComplete(ImportTree, empty, data.completions, ImportHash, ImportLeq, ImportCanonical,
                               (x: FinalizedImportLeaf) => x.input.exportId == leaf.input.exportId, leaf);
    assert CompletionProofOf(data)(leaf) == Some(proof);
    assert VerifyImport(h.importRoot, proof);
  }

  lemma GovernanceProofsPass(data: EpochData, d: DomainId, leaf: GovernanceLeaf)
    requires RootsMatch(data) && EpochOk(data) && Small(data) && leaf in data.governance
    requires GovernanceAddressee(leaf) == d
    ensures var r := GovernanceProofOf(data)(leaf);
              r.Some? && r.value.leaf == leaf && GovernanceOk(data.header.input, d, r.value)
  {
    hide CommitRoot, BuildProof, VerifyProof;
    var h := data.header.input;
    var empty := EmptyRoot(GovernanceTree, h.domain, h.epoch, h.start, h.end);
    var proof := ProofComplete(GovernanceTree, empty, data.governance, GovernanceHash, GovernanceLeq,
                               GovernanceCanonical, (x: GovernanceLeaf) => x.leafHash == leaf.leafHash, leaf);
    assert GovernanceProofOf(data)(leaf) == Some(proof);
    assert VerifyGovernance(h.governanceRoot, proof);
    GP.SameHashSameLeaf(proof.leaf, leaf);
  }

  // ---------- unpacking ----------

  lemma {:induction false} ExportsInAppend(a: seq<Encoded<InclusionProof>>, b: seq<Encoded<InclusionProof>>)
    ensures ExportsIn(a + b) == ExportsIn(a) + ExportsIn(b)
    decreases |b|
  {
    if b == [] {
      assert a + b == a;
    } else {
      var n := |b| - 1;
      ExportsInAppend(a, b[..n]);
      assert (a + b)[..|a + b| - 1] == a + b[..n];
    }
  }

  lemma {:induction false} CompletionsInAppend(a: seq<Encoded<InclusionProof>>, b: seq<Encoded<InclusionProof>>)
    ensures CompletionsIn(a + b) == CompletionsIn(a) + CompletionsIn(b)
    decreases |b|
  {
    if b == [] {
      assert a + b == a;
    } else {
      var n := |b| - 1;
      CompletionsInAppend(a, b[..n]);
      assert (a + b)[..|a + b| - 1] == a + b[..n];
    }
  }

  lemma {:induction false} GovernanceInAppend(a: seq<Encoded<InclusionProof>>, b: seq<Encoded<InclusionProof>>)
    ensures GovernanceIn(a + b) == GovernanceIn(a) + GovernanceIn(b)
    decreases |b|
  {
    if b == [] {
      assert a + b == a;
    } else {
      var n := |b| - 1;
      GovernanceInAppend(a, b[..n]);
      assert (a + b)[..|a + b| - 1] == a + b[..n];
    }
  }

  lemma {:induction false} EncodedExports(proofs: seq<Inclusion<ExportLeaf>>)
    ensures var items := EncodeExports(proofs);
            ExportsIn(items) == proofs && CompletionsIn(items) == [] && GovernanceIn(items) == []
    decreases |proofs|
  {
    if proofs != [] {
      var n := |proofs| - 1;
      EncodedExports(proofs[..n]);
      assert EncodeExports(proofs)[..n] == EncodeExports(proofs[..n]);
    }
  }

  lemma {:induction false} EncodedCompletions(proofs: seq<Inclusion<FinalizedImportLeaf>>)
    ensures var items := EncodeCompletions(proofs);
            ExportsIn(items) == [] && CompletionsIn(items) == proofs && GovernanceIn(items) == []
    decreases |proofs|
  {
    if proofs != [] {
      var n := |proofs| - 1;
      EncodedCompletions(proofs[..n]);
      assert EncodeCompletions(proofs)[..n] == EncodeCompletions(proofs[..n]);
    }
  }

  lemma {:induction false} EncodedGovernance(proofs: seq<Inclusion<GovernanceLeaf>>)
    ensures var items := EncodeGovernance(proofs);
            ExportsIn(items) == [] && CompletionsIn(items) == [] && GovernanceIn(items) == proofs
    decreases |proofs|
  {
    if proofs != [] {
      var n := |proofs| - 1;
      EncodedGovernance(proofs[..n]);
      assert EncodeGovernance(proofs)[..n] == EncodeGovernance(proofs[..n]);
    }
  }

  /** Packing loses nothing: the flow of a package is what was put in. */
  lemma FlowOfPack(header: SummaryHeader, certificate: Certificate, storage: InclusionProof,
                   exports: seq<Inclusion<ExportLeaf>>,
                   completions: seq<Inclusion<FinalizedImportLeaf>>, governance: seq<Inclusion<GovernanceLeaf>>)
    requires exports != [] || completions != [] || governance != []
    ensures var package := Pack(header, certificate, storage, exports, completions, governance);
            |package.input.inclusionProofs| >= 2 && FlowOf(package) == Flow(exports, completions, governance)
  {
    hide ExportsIn, CompletionsIn, GovernanceIn;
    var e, c, g := EncodeExports(exports), EncodeCompletions(completions), EncodeGovernance(governance);
    assert ([Encoded(storage)] + (e + (c + g)))[1..] == e + (c + g);
    EncodedExports(exports);
    EncodedCompletions(completions);
    EncodedGovernance(governance);
    ExportsInAppend(e, c + g);
    ExportsInAppend(c, g);
    CompletionsInAppend(e, c + g);
    CompletionsInAppend(c, g);
    GovernanceInAppend(e, c + g);
    GovernanceInAppend(c, g);
  }

  /** Where each item of a package comes from. */
  lemma PackedItem(header: SummaryHeader, certificate: Certificate, storage: InclusionProof,
                   exports: seq<Inclusion<ExportLeaf>>,
                   completions: seq<Inclusion<FinalizedImportLeaf>>, governance: seq<Inclusion<GovernanceLeaf>>, i: nat)
    requires 1 <= i < |Pack(header, certificate, storage, exports, completions, governance).input.inclusionProofs|
    ensures var e := Pack(header, certificate, storage, exports, completions, governance).input.inclusionProofs[i];
            e.Encoded? && match e.value
                          case StorageProof(_, _, _) => false
                          case ExportProof(p) => p in exports
                          case FinalizedImportProof(p) => p in completions
                          case GovernanceProof(p) => p in governance
  {
  }

  /** A package of passing proofs, all for one domain, is accepted by the relay and the importer. */
  lemma PackAccepted(header: SummaryHeader, certificate: Certificate, storage: InclusionProof,
                     exports: seq<Inclusion<ExportLeaf>>,
                     completions: seq<Inclusion<FinalizedImportLeaf>>, governance: seq<Inclusion<GovernanceLeaf>>,
                         d: DomainId)
    requires storage.StorageProof? && (exports != [] || completions != [] || governance != [])
    requires forall p :: p in exports ==> ForwardOk(header.input, d, p)
    requires forall p :: p in completions ==> CompletionOk(header.input, d, p)
    requires forall p :: p in governance ==> GovernanceOk(header.input, d, p)
    ensures var package := Pack(header, certificate, storage, exports, completions, governance);
            WellFormed(package, d) && FlowOk(package, d)
  {
    hide VerifyExport, VerifyImport, VerifyGovernance;
    var package := Pack(header, certificate, storage, exports, completions, governance);
    var proofs := package.input.inclusionProofs;
    assert proofs[0] == Encoded(storage) && |proofs| == 1 + |exports| + |completions| + |governance|;
    forall i | 1 <= i < |proofs| ensures ItemOk(header.input, d, proofs[i]) && Addressed(header.input, proofs[i], d) {
      PackedItem(header, certificate, storage, exports, completions, governance, i);
    }
  }

  lemma ExportGroupBuilt(data: EpochData, d: DomainId)
    requires RootsMatch(data) && EpochOk(data) && Small(data)
    ensures var group := ForTarget(data.exports, ExportAddressee, d);
            var r := ProofsFor(group, ExportProofOf(data));
            r.Some? && LeavesAre(r.value, group) && forall p :: p in r.value ==> ForwardOk(data.header.input, d, p)
  {
    hide ForwardOk, RootsMatch, EpochOk, ExportProofOf, ProofsFor, ForTarget;
    var group := ForTarget(data.exports, ExportAddressee, d);
    forall leaf | leaf in group
      ensures var r := ExportProofOf(data)(leaf);
              r.Some? && r.value.leaf == leaf && ForwardOk(data.header.input, d, r.value)
    {
      GroupsPartition(data.exports, ExportAddressee, d, leaf);
      ExportProofsPass(data, d, leaf);
    }
    ProofsBuilt(group, ExportProofOf(data), p => ForwardOk(data.header.input, d, p));
  }

  lemma CompletionGroupBuilt(data: EpochData, d: DomainId)
    requires RootsMatch(data) && EpochOk(data) && Small(data)
    ensures var group := ForTarget(data.completions, CompletionAddressee, d);
            var r := ProofsFor(group, CompletionProofOf(data));
            r.Some? && LeavesAre(r.value, group) && forall p :: p in r.value ==> CompletionOk(data.header.input, d, p)
  {
    hide CompletionOk, RootsMatch, EpochOk, CompletionProofOf, ProofsFor, ForTarget;
    var group := ForTarget(data.completions, CompletionAddressee, d);
    forall leaf | leaf in group
      ensures var r := CompletionProofOf(data)(leaf);
              r.Some? && r.value.leaf == leaf && CompletionOk(data.header.input, d, r.value)
    {
      GroupsPartition(data.completions, CompletionAddressee, d, leaf);
      CompletionProofsPass(data, d, leaf);
    }
    ProofsBuilt(group, CompletionProofOf(data), p => CompletionOk(data.header.input, d, p));
  }

  lemma GovernanceGroupBuilt(data: EpochData, d: DomainId)
    requires RootsMatch(data) && EpochOk(data) && Small(data)
    ensures var group := ForTarget(data.governance, GovernanceAddressee, d);
            var r := ProofsFor(group, GovernanceProofOf(data));
            r.Some? && LeavesAre(r.value, group) && forall p :: p in r.value ==> GovernanceOk(data.header.input, d, p)
  {
    hide GovernanceOk, RootsMatch, EpochOk, GovernanceProofOf, ProofsFor, ForTarget;
    var group := ForTarget(data.governance, GovernanceAddressee, d);
    forall leaf | leaf in group
      ensures var r := GovernanceProofOf(data)(leaf);
              r.Some? && r.value.leaf == leaf && GovernanceOk(data.header.input, d, r.value)
    {
      GroupsPartition(data.governance, GovernanceAddressee, d, leaf);
      GovernanceProofsPass(data, d, leaf);
    }
    ProofsBuilt(group, GovernanceProofOf(data), p => GovernanceOk(data.header.input, d, p));
  }

  /** What an importer unpacks is exactly what was addressed to it, in order. */
  ghost predicate Carries(flow: Flow, inputs: TargetInputs) {
    LeavesAre(flow.exports, inputs.exports) && LeavesAre(flow.completions, inputs.completions)
        && LeavesAre(flow.governance, inputs.governance)
  }

  lemma EndToEnd(data: EpochData, certificate: Certificate, storage: InclusionProof, d: DomainId)
    requires RootsMatch(data) && EpochOk(data) && Small(data) && storage.StorageProof? && HasInputs(InputsFor(data, d))
    ensures var r := BuildFor(data, certificate, storage, InputsFor(data, d));
            && r.Some? && r.value.input.header == data.header && r.value.packageHash == PackageDigest(r.value.input)
            && WellFormed(r.value, d) && FlowOk(r.value, d) && Carries(FlowOf(r.value), InputsFor(data, d))
  {
    hide RootsMatch, EpochOk, ForTarget, ProofsFor, ForwardOk, CompletionOk, GovernanceOk, FlowOf, WellFormed, FlowOk;
    hide ExportProofOf, CompletionProofOf, GovernanceProofOf;
    ExportGroupBuilt(data, d);
    CompletionGroupBuilt(data, d);
    GovernanceGroupBuilt(data, d);
    var inputs := InputsFor(data, d);
    var e := ProofsFor(inputs.exports, ExportProofOf(data)).value;
    var c := ProofsFor(inputs.completions, CompletionProofOf(data)).value;
    var g := ProofsFor(inputs.governance, GovernanceProofOf(data)).value;
    PackAccepted(data.header, certificate, storage, e, c, g, d);
    FlowOfPack(data.header, certificate, storage, e, c, g);
  }

  // ---------- a chain's own epochs ----------

  /** What a node serves for a staged epoch. */
  function Served(c: Chain, e: EpochId): EpochData
    requires e in c.epochs.headers
  {
    EpochData(c.epochs.headers[e], T.CanonicalExports(c.transfers, e), T.CanonicalImports(c.transfers, e),
        G.CanonicalLeaves(c.governance, e))
  }

  lemma ServedRoots(c: Chain, e: EpochId)
    requires Inv(c) && e in c.epochs.headers
    ensures RootsMatch(Served(c, e)) && e < c.Epoch()
  {
    hide TP.Inv, GP.Inv, ExportRoot, ImportRoot, GovernanceRoot, E.Inv;
    HeadersAreClosed(c, e);
    assert Reproducible(c, e);
  }

  lemma ServedIsOk(c: Chain, e: EpochId)
    requires Inv(c) && e in c.epochs.headers
    ensures EpochOk(Served(c, e))
  {
    hide T.CanonicalExports, T.CanonicalImports, G.CanonicalLeaves, TP.ExportsInv, TP.ImportsInv, TP.HoldsInv;
    hide GP.LeavesInv, GP.LeafBacked, GP.CoreInv, E.Inv, RootsAt;
    var data := Served(c, e);
    HeadersAreClosed(c, e);
    TP.CanonicalLeavesAreCanonical(c.transfers, c.domain, c.Epoch(), e);
    forall leaf | leaf in data.exports
      ensures leaf.input.exportId in c.transfers.exports && c.transfers.exports[leaf.input.exportId].leaf == leaf
      ensures leaf.input.sourceDomain == c.domain && leaf.input.sourceEpoch == e
    {
      TP.CommittedExport(c.transfers, c.domain, c.Epoch(), e, leaf);
    }
    forall leaf | leaf in data.completions
      ensures leaf.input.exportId in c.transfers.observed
      ensures T.FinalizedLeafOf(c.transfers.observed[leaf.input.exportId]) == leaf
      ensures leaf.input.targetDomain == c.domain
    {
      TP.CommittedImport(c.transfers, c.domain, e, leaf);
    }
    forall leaf | leaf in data.governance
      ensures GovernanceCanonical(leaf) && leaf.LeafEpoch() == e && leaf.OrderingDomain() == c.domain
    {
      GS.CommittedLeaf(c.governance, c.domain, c.Epoch(), e, leaf);
    }
  }

  /** The envelope the exporter submits; more than 2^32 - 1 proofs do not fit its counter. */
  function EnvelopeFor(package: Package, target: DomainId, now: nat): Option<Envelope> {
    var header := package.input.header;
    var count := if package.input.inclusionProofs == [] then 0 else |package.input.inclusionProofs| - 1;
    if count > U32_MAX then None
    else Some(Envelope(header.input.domain, target, header.input.epoch, header.summaryHash, package.packageHash,
                       Encoded(package), count, now))
  }

  lemma EnvelopeAccepted(package: Package, target: DomainId, now: nat)
    requires WellFormed(package, target) && package.packageHash == PackageDigest(package.input)
    ensures EnvelopeFor(package, target, now).Some? <==> |package.input.inclusionProofs| - 1 <= U32_MAX
    ensures EnvelopeFor(package, target, now).Some? ==> EnvelopeOk(EnvelopeFor(package, target, now).value)
  {
  }

  function ItemCount(inputs: TargetInputs): nat { |inputs.exports| + |inputs.completions| + |inputs.governance| }

  /** The package has one proof per item, after the storage proof. */
  lemma BuiltCount(data: EpochData, certificate: Certificate, storage: InclusionProof, inputs: TargetInputs,
                   package: Package)
    requires BuildFor(data, certificate, storage, inputs) == Some(package)
    ensures |package.input.inclusionProofs| == 1 + ItemCount(inputs)
  {
    hide ExportProofOf, CompletionProofOf, GovernanceProofOf;
    ProofsCount(inputs.exports, ExportProofOf(data));
    ProofsCount(inputs.completions, CompletionProofOf(data));
    ProofsCount(inputs.governance, GovernanceProofOf(data));
  }

  lemma {:induction false} ProofsCount<L>(group: seq<L>, build: L -> Option<Inclusion<L>>)
    ensures ProofsFor(group, build).Some? ==> |ProofsFor(group, build).value| == |group|
  {
    if group != [] {
      ProofsCount(group[..|group| - 1], build);
    }
  }

  /** What becomes of the package for one target: the relay takes its envelope exactly when the
      number of items fits the counter, the importer accepts the package, and it carries exactly
      the leaves addressed there. */
  ghost predicate Deliverable(package: Package, inputs: TargetInputs, d: DomainId, now: nat) {
    && (EnvelopeFor(package, d, now).Some? <==> ItemCount(inputs) <= U32_MAX)
    && (EnvelopeFor(package, d, now).Some? ==> EnvelopeOk(EnvelopeFor(package, d, now).value))
    && WellFormed(package, d) && FlowOk(package, d) && Carries(FlowOf(package), inputs)
  }

  lemma OneDeliverable(data: EpochData, certificate: Certificate, storage: InclusionProof, d: DomainId, now: nat)
    requires RootsMatch(data) && EpochOk(data) && Small(data) && storage.StorageProof? && HasInputs(InputsFor(data, d))
    ensures var r := BuildFor(data, certificate, storage, InputsFor(data, d));
            r.Some? && Deliverable(r.value, InputsFor(data, d), d, now)
  {
    hide RootsMatch, EpochOk, InputsFor, BuildFor, Carries, WellFormed, HasInputs, FlowOf, ItemOk, EnvelopeFor;
    hide EnvelopeOk;
    EndToEnd(data, certificate, storage, d);
    var package := BuildFor(data, certificate, storage, InputsFor(data, d)).value;
    BuiltCount(data, certificate, storage, InputsFor(data, d), package);
    EnvelopeAccepted(package, d, now);
  }

  /** Every package the exporter builds from a chain's own storage passes the relay and the
      importer, and carries exactly the leaves addressed to its target.  Staged roots never
      disagree with storage, so the exporter's own checks never fire. */
  lemma PackagesAreDeliverable(c: Chain, e: EpochId, certificate: Certificate, storage: InclusionProof, now: nat)
    requires Inv(c) && e in c.epochs.headers && Small(Served(c, e)) && storage.StorageProof?
    ensures Buildable(Served(c, e), certificate, storage)
    ensures forall d: DomainId :: HasInputs(InputsFor(Served(c, e), d)) ==>
              var r := BuildFor(Served(c, e), certificate, storage, InputsFor(Served(c, e), d));
              r.Some? && Deliverable(r.value, InputsFor(Served(c, e), d), d, now)
  {
    hide Inv, RootsMatch, EpochOk, InputsFor, BuildFor, Deliverable, HasInputs;
    var data := Served(c, e);
    ServedRoots(c, e);
    ServedIsOk(c, e);
    forall d: DomainId | HasInputs(InputsFor(data, d))
      ensures var r := BuildFor(data, certificate, storage, InputsFor(data, d));
              r.Some? && Deliverable(r.value, InputsFor(data, d), d, now)
    {
      OneDeliverable(data, certificate, storage, d, now);
    }
  }
}
