/** What the relay and the importer accept as a package: the shape both of them check before
    anything is delivered, and the proof-by-proof verification the importer adds. */
module Packages {
  import opened Types
  import opened Commitments

  // ---------- shape ----------

  /** The domain a proof is addressed to: a completion goes back to the export's source. */
  function Addressee(p: InclusionProof): DomainId
    requires !p.StorageProof?
  {
    match p
    case ExportProof(proof) => proof.leaf.input.targetDomain
    case FinalizedImportProof(proof) => proof.leaf.input.sourceDomain
    case GovernanceProof(proof) => proof.leaf.TargetDomain()
  }

  /** A leaf can belong to the epoch that the header summarises. */
  predicate BelongsTo(header: SummaryInput, p: InclusionProof)
    requires !p.StorageProof?
  {
    match p
    case ExportProof(proof) => proof.leaf.input.sourceDomain == header.domain
      && proof.leaf.input.sourceEpoch == header.epoch
    case FinalizedImportProof(proof) => proof.leaf.input.targetDomain == header.domain
    case GovernanceProof(proof) =>
      (match proof.leaf
       case ProposalLeaf(leaf, _) => leaf.sourceDomain == header.domain && leaf.approvalEpoch == header.epoch
       case AckLeaf(leaf, _) => leaf.acknowledgedEpoch == header.epoch)
  }

  predicate Addressed(header: SummaryInput, e: Encoded<InclusionProof>, target: DomainId) {
    e.Encoded? && !e.value.StorageProof? && Addressee(e.value) == target && BelongsTo(header, e.value)
  }

  /** A storage proof first, then at least one item, all for one domain. */
  ghost predicate WellFormed(package: Package, target: DomainId) {
    var proofs := package.input.inclusionProofs;
    && |proofs| >= 2
    && proofs[0].Encoded? && proofs[0].value.StorageProof?
    && forall i :: 1 <= i < |proofs| ==> Addressed(package.input.header.input, proofs[i], target)
  }

  /** `derive_target_domain`: one pass that fixes the target at the first item. */
  method DeriveTargetDomain(package: Package) returns (r: Option<(DomainId, nat)>)
    ensures r.Some? ==> WellFormed(package, r.value.0) && r.value.1 == Min(|package.input.inclusionProofs| - 1, U32_MAX)
    ensures r.None? ==> forall target :: !WellFormed(package, target)
  {
    var proofs := package.input.inclusionProofs;
    var header := package.input.header.input;
    if |proofs| < 2 {
      return None;
    }
    if proofs[0].Garbage? || !proofs[0].value.StorageProof? {
      return None;
    }
    var target: Option<DomainId> := None;
    var count := 0;
    var i := 1;
    while i < |proofs|
      invariant 1 <= i <= |proofs| && count == Min(i - 1, U32_MAX)
      invariant target.None? <==> i == 1
      invariant target.Some? ==> forall k :: 1 <= k < i ==> Addressed(header, proofs[k], target.value)
    {
      if proofs[i].Garbage? || proofs[i].value.StorageProof? {
        return None;
      }
      count := SatAdd(count, 1, U32_MAX);
      var addressee := Addressee(proofs[i].value);
      if target.None? {
        target := Some(addressee);
      } else if target.value != addressee {
        assert Addressed(header, proofs[1], target.value);
        return None;
      }
      if !BelongsTo(header, proofs[i].value) {
        return None;
      }
      i := i + 1;
    }
    r := Some((target.value, count));
  }

  lemma OneTarget(package: Package, a: DomainId, b: DomainId)
    requires WellFormed(package, a) && WellFormed(package, b)
    ensures a == b
  {
    assert Addressed(package.input.header.input, package.input.inclusionProofs[1], a);
  }

  /** `inspect_package_for_ingest`. */
  method InspectForIngest(package: Package, importer: DomainId) returns (r: Option<nat>)
    ensures r.Some? <==> WellFormed(package, importer)
    ensures r.Some? ==> r.value == Min(|package.input.inclusionProofs| - 1, U32_MAX)
  {
    var derived := DeriveTargetDomain(package);
    if derived.None? {
      return None;
    }
    if derived.value.0 != importer {
      if WellFormed(package, importer) {
        OneTarget(package, derived.value.0, importer);
      }
      return None;
    }
    r := Some(derived.value.1);
  }

  datatype Envelope = Envelope(
    sourceDomain: DomainId, targetDomain: DomainId, epoch: EpochId, summaryHash: Digest, packageHash: Digest,
    packageBytes: Encoded<Package>, exportCount: nat, submittedAt: nat)

  /** Everything the envelope says is what the package says, and the package hash is its own. */
  ghost predicate EnvelopeOk(envelope: Envelope) {
    && envelope.packageBytes.Encoded?
    && var package := envelope.packageBytes.value;
       && package.packageHash == PackageDigest(package.input) && envelope.packageHash == package.packageHash
       && envelope.sourceDomain == package.input.header.input.domain
       && envelope.epoch == package.input.header.input.epoch
       && envelope.summaryHash == package.input.header.summaryHash
       && WellFormed(package, envelope.targetDomain)
       && envelope.exportCount == Min(|package.input.inclusionProofs| - 1, U32_MAX)
  }

  /** `decode_and_validate_envelope`. */
  method DecodeAndValidateEnvelope(bytes: Encoded<Envelope>) returns (r: Option<(Envelope, Package)>)
    ensures r.Some? <==> bytes.Encoded? && EnvelopeOk(bytes.value)
    ensures r.Some? ==> r.value.0 == bytes.value && Encoded(r.value.1) == bytes.value.packageBytes
  {
    if bytes.Garbage? {
      return None;
    }
    var envelope := bytes.value;
    if envelope.packageBytes.Garbage? {
      return None;
    }
    var package := envelope.packageBytes.value;
    if package.packageHash != PackageDigest(package.input) || package.packageHash != envelope.packageHash {
      return None;
    }
    if package.input.header.input.domain != envelope.sourceDomain || package.input.header.input.epoch != envelope.epoch
       || package.input.header.summaryHash != envelope.summaryHash {
      return None;
    }
    var derived := DeriveTargetDomain(package);
    if derived.None? {
      return None;
    }
    if derived.value.0 != envelope.targetDomain {
      if WellFormed(package, envelope.targetDomain) {
        OneTarget(package, derived.value.0, envelope.targetDomain);
      }
      return None;
    }
    if derived.value.1 != envelope.exportCount {
      return None;
    }
    r := Some((envelope, package));
  }

  // ---------- item-by-item verification ----------

  predicate ForwardOk(header: SummaryInput, importer: DomainId, proof: Inclusion<ExportLeaf>) {
    && proof.leaf.Canonical()
    && proof.leaf.input.sourceDomain == header.domain && proof.leaf.input.sourceEpoch == header.epoch
    && proof.leaf.input.targetDomain == importer && VerifyExport(header.exportRoot, proof)
  }

  predicate CompletionOk(header: SummaryInput, importer: DomainId, proof: Inclusion<FinalizedImportLeaf>) {
    && proof.leaf.Canonical() && proof.leaf.input.targetDomain == header.domain
    && proof.leaf.input.sourceDomain == importer && VerifyImport(header.importRoot, proof)
  }

  predicate GovernanceOk(header: SummaryInput, importer: DomainId, proof: Inclusion<GovernanceLeaf>) {
    && VerifyGovernance(header.governanceRoot, proof) && proof.leaf.Canonical()
    && proof.leaf.TargetDomain() == importer && proof.leaf.LeafEpoch() == header.epoch
    && (proof.leaf.ProposalLeaf? ==> proof.leaf.proposal.sourceDomain == header.domain)
  }

  predicate ItemOk(header: SummaryInput, importer: DomainId, e: Encoded<InclusionProof>) {
    e.Encoded? &&
      match e.value
      case StorageProof(_, _, _) => false
      case ExportProof(proof) => ForwardOk(header, importer, proof)
      case FinalizedImportProof(proof) => CompletionOk(header, importer, proof)
      case GovernanceProof(proof) => GovernanceOk(header, importer, proof)
  }

  /** The proofs of one kind, in order. */
  function ExportsIn(items: seq<Encoded<InclusionProof>>): seq<Inclusion<ExportLeaf>> {
    if items == [] then []
    else
      var n := |items| - 1;
      ExportsIn(items[..n])
      + (if items[n].Encoded? && items[n].value.ExportProof? then [items[n].value.exportProof] else [])
  }

  function CompletionsIn(items: seq<Encoded<InclusionProof>>): seq<Inclusion<FinalizedImportLeaf>> {
    if items == [] then []
    else
      var n := |items| - 1;
      CompletionsIn(items[..n])
      + (if items[n].Encoded? && items[n].value.FinalizedImportProof? then [items[n].value.importProof] else [])
  }

  function GovernanceIn(items: seq<Encoded<InclusionProof>>): seq<Inclusion<GovernanceLeaf>> {
    if items == [] then []
    else
      var n := |items| - 1;
      GovernanceIn(items[..n])
      + (if items[n].Encoded? && items[n].value.GovernanceProof? then [items[n].value.governanceProof] else [])
  }

  datatype Flow = Flow(
    exports: seq<Inclusion<ExportLeaf>>, completions: seq<Inclusion<FinalizedImportLeaf>>,
    governance: seq<Inclusion<GovernanceLeaf>>)

  ghost predicate FlowOk(package: Package, importer: DomainId) {
    && |package.input.inclusionProofs| >= 2
    && forall i :: 1 <= i < |package.input.inclusionProofs| ==>
         ItemOk(package.input.header.input, importer, package.input.inclusionProofs[i])
  }

  function FlowOf(package: Package): Flow
    requires |package.input.inclusionProofs| >= 2
  {
    var items := package.input.inclusionProofs[1..];
    Flow(ExportsIn(items), CompletionsIn(items), GovernanceIn(items))
  }

  /** Readable, and not a second storage proof. */
  predicate IsItem(e: Encoded<InclusionProof>) { e.Encoded? && !e.value.StorageProof? }

  /** `verify_forward_export_proofs`. */
  method VerifyForwardExportProofs(header: SummaryInput, importer: DomainId, items: seq<Encoded<InclusionProof>>)
    returns (r: Option<seq<Inclusion<ExportLeaf>>>)
    ensures r.Some? <==> forall i :: 0 <= i < |items| ==>
              IsItem(items[i]) && (items[i].value.ExportProof? ==>
                  ForwardOk(header, importer, items[i].value.exportProof))
    ensures r.Some? ==> r.value == ExportsIn(items)
  {
    var found := [];
    var i := 0;
    while i < |items|
      invariant 0 <= i <= |items| && found == ExportsIn(items[..i])
      invariant forall k :: 0 <= k < i ==>
        IsItem(items[k]) && (items[k].value.ExportProof? ==> ForwardOk(header, importer, items[k].value.exportProof))
    {
      assert items[..i + 1][..i] == items[..i];
      if !IsItem(items[i]) {
        return None;
      }
      if items[i].value.ExportProof? {
        if !ForwardOk(header, importer, items[i].value.exportProof) {
          return None;
        }
        found := found + [items[i].value.exportProof];
      }
      i := i + 1;
    }
    assert items[..i] == items;
    r := Some(found);
  }

  /** `verify_finalized_import_proofs`. */
  method VerifyFinalizedImportProofs(header: SummaryInput, importer: DomainId, items: seq<Encoded<InclusionProof>>)
    returns (r: Option<seq<Inclusion<FinalizedImportLeaf>>>)
    ensures r.Some? <==> forall i :: 0 <= i < |items| ==>
              IsItem(items[i]) && (items[i].value.FinalizedImportProof? ==>
                  CompletionOk(header, importer, items[i].value.importProof))
    ensures r.Some? ==> r.value == CompletionsIn(items)
  {
    var found := [];
    var i := 0;
    while i < |items|
      invariant 0 <= i <= |items| && found == CompletionsIn(items[..i])
      invariant forall k :: 0 <= k < i ==>
        IsItem(items[k]) && (items[k].value.FinalizedImportProof? ==>
            CompletionOk(header, importer, items[k].value.importProof))
    {
      assert items[..i + 1][..i] == items[..i];
      if !IsItem(items[i]) {
        return None;
      }
      if items[i].value.FinalizedImportProof? {
        if !CompletionOk(header, importer, items[i].value.importProof) {
          return None;
        }
        found := found + [items[i].value.importProof];
      }
      i := i + 1;
    }
    assert items[..i] == items;
    r := Some(found);
  }

  /** `verify_governance_proofs`. */
  method VerifyGovernanceProofs(header: SummaryInput, importer: DomainId, items: seq<Encoded<InclusionProof>>)
    returns (r: Option<seq<Inclusion<GovernanceLeaf>>>)
    ensures r.Some? <==> forall i :: 0 <= i < |items| ==>
              IsItem(items[i]) && (items[i].value.GovernanceProof? ==>
                  GovernanceOk(header, importer, items[i].value.governanceProof))
    ensures r.Some? ==> r.value == GovernanceIn(items)
  {
    var found := [];
    var i := 0;
    while i < |items|
      invariant 0 <= i <= |items| && found == GovernanceIn(items[..i])
      invariant forall k :: 0 <= k < i ==>
        IsItem(items[k]) && (items[k].value.GovernanceProof? ==>
            GovernanceOk(header, importer, items[k].value.governanceProof))
    {
      assert items[..i + 1][..i] == items[..i];
      if !IsItem(items[i]) {
        return None;
      }
      if items[i].value.GovernanceProof? {
        if !GovernanceOk(header, importer, items[i].value.governanceProof) {
          return None;
        }
        found := found + [items[i].value.governanceProof];
      }
      i := i + 1;
    }
    assert items[..i] == items;
    r := Some(found);
  }

  /** `verify_package_flow`: three passes over the same items. */
  method VerifyPackageFlow(package: Package, importer: DomainId) returns (r: Option<Flow>)
    ensures r.Some? <==> FlowOk(package, importer)
    ensures r.Some? ==> r.value == FlowOf(package)
  {
    var proofs := package.input.inclusionProofs;
    var header := package.input.header.input;
    if |proofs| < 2 {
      return None;
    }
    var items := proofs[1..];
    assert forall i :: 0 <= i < |items| ==> items[i] == proofs[i + 1];
    assert forall i :: 1 <= i < |proofs| ==> proofs[i] == items[i - 1];
    var exports := VerifyForwardExportProofs(header, importer, items);
    if exports.None? {
      return None;
    }
    var completions := VerifyFinalizedImportProofs(header, importer, items);
    if completions.None? {
      return None;
    }
    var governance := VerifyGovernanceProofs(header, importer, items);
    if governance.None? {
      return None;
    }
    r := Some(Flow(exports.value, completions.value, governance.value));
  }

  // ---------- what an accepted flow carries ----------

  lemma {:induction false} ExportsInMembers(items: seq<Encoded<InclusionProof>>, proof: Inclusion<ExportLeaf>)
    ensures proof in ExportsIn(items) <==> Encoded(ExportProof(proof)) in items
  {
    if items != [] {
      var n := |items| - 1;
      ExportsInMembers(items[..n], proof);
      assert items == items[..n] + [items[n]];
    }
  }

  lemma {:induction false} CompletionsInMembers(items: seq<Encoded<InclusionProof>>,
                                                proof: Inclusion<FinalizedImportLeaf>)
    ensures proof in CompletionsIn(items) <==> Encoded(FinalizedImportProof(proof)) in items
  {
    if items != [] {
      var n := |items| - 1;
      CompletionsInMembers(items[..n], proof);
      assert items == items[..n] + [items[n]];
    }
  }

  lemma {:induction false} GovernanceInMembers(items: seq<Encoded<InclusionProof>>, proof: Inclusion<GovernanceLeaf>)
    ensures proof in GovernanceIn(items) <==> Encoded(GovernanceProof(proof)) in items
  {
    if items != [] {
      var n := |items| - 1;
      GovernanceInMembers(items[..n], proof);
      assert items == items[..n] + [items[n]];
    }
  }

  /** Each proof of an accepted package has passed its own verification. */
  lemma FlowItems(package: Package, importer: DomainId)
    requires FlowOk(package, importer)
    ensures var header := package.input.header.input;
            var flow := FlowOf(package);
            && (forall p :: p in flow.exports ==> ForwardOk(header, importer, p))
            && (forall p :: p in flow.completions ==> CompletionOk(header, importer, p))
            && (forall p :: p in flow.governance ==> GovernanceOk(header, importer, p))
  {
    var header := package.input.header.input;
    var items := package.input.inclusionProofs[1..];
    forall e | e in items ensures ItemOk(header, importer, e) {
      var i :| 0 <= i < |items| && items[i] == e;
      assert items[i] == package.input.inclusionProofs[i + 1];
    }
    forall p | p in ExportsIn(items) ensures ForwardOk(header, importer, p) {
      ExportsInMembers(items, p);
    }
    forall p | p in CompletionsIn(items) ensures CompletionOk(header, importer, p) {
      CompletionsInMembers(items, p);
    }
    forall p | p in GovernanceIn(items) ensures GovernanceOk(header, importer, p) {
      GovernanceInMembers(items, p);
    }
  }
}
