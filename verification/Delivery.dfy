/** Nothing committed is ever out of reach: at any later time the package that the exporter
    builds from the source's storage is evidence the destination accepts. */
module Delivery {
  import opened Types
  import opened Packages
  import opened Exporter
  import opened Chain
  import opened Network
  import opened Settlement
  import opened Agreement
  import opened Theorems
  import E = Epochs
  import T = Transfers
  import TP = TransfersProofs
  import G = Governance
  import GP = GovernanceProofs
  import GS = GovernanceSteps

  lemma ClosedEpochHasHeader(c: Chain, e: EpochId)
    requires Inv(c) && e < c.Epoch()
    ensures e in c.epochs.headers && c.epochs.headers[e].input.domain == c.domain
    ensures c.epochs.headers[e].input.epoch == e
  {
    hide TP.Inv, GP.Inv, RootsAt;
    assert e in c.epochs.headers;
    HeadersAreClosed(c, e);
  }

  /** Where a committed export is found. */
  lemma CommittedIsServed(c: Chain, id: ItemId)
    requires Inv(c) && HasCommitted(c.transfers, id)
    ensures var leaf := c.transfers.exports[id].leaf;
            leaf.input.exportId == id && leaf.input.sourceEpoch < c.Epoch()
              && leaf in T.CanonicalExports(c.transfers, leaf.input.sourceEpoch)
  {
    hide E.Inv, GP.Inv, RootsAt, T.CanonicalExports;
    assert TP.ExportOk(c.transfers, c.domain, c.Epoch(), id);
    var leaf := c.transfers.exports[id].leaf;
    TP.CanonicalExportsMembers(c.transfers, leaf.input.sourceEpoch, leaf);
  }

  lemma Certifies(w: World, d: DomainId, e: EpochId, package: Package)
    requires ChainsOk(w) && e < w.At(d).Epoch()
    requires e in w.At(d).epochs.headers && package.input.header == w.At(d).epochs.headers[e]
    ensures Certified(w, package)
  {
    hide Inv;
    ClosedEpochHasHeader(w.At(d), e);
  }

  lemma ProofOf<L>(proofs: seq<Inclusion<L>>, leaves: seq<L>, leaf: L) returns (proof: Inclusion<L>)
    requires LeavesAre(proofs, leaves) && leaf in leaves
    ensures proof in proofs && proof.leaf == leaf
  {
    var i :| 0 <= i < |leaves| && leaves[i] == leaf;
    proof := proofs[i];
  }

  /** The package for one target of a closed epoch, and that it verifies there. */
  lemma PackageVerifies(w: World, d: DomainId, e: EpochId, target: DomainId, certificate: Certificate,
                        storage: InclusionProof) returns (package: Package)
    requires ChainsOk(w) && e < w.At(d).Epoch() && storage.StorageProof? && e in w.At(d).epochs.headers
    requires Small(Served(w.At(d), e)) && HasInputs(InputsFor(Served(w.At(d), e), target))
    ensures Some(package) == BuildFor(Served(w.At(d), e), certificate, storage, InputsFor(Served(w.At(d), e), target))
    ensures |package.input.inclusionProofs| >= 2 && Verified(w, target, package)
    ensures Carries(FlowOf(package), InputsFor(Served(w.At(d), e), target))
  {
    hide Inv, Served, InputsFor, HasInputs, BuildFor, Carries, Certified, RootsMatch, EpochOk, Small, WellFormed;
    hide ItemOk, FlowOf;
    var data := Served(w.At(d), e);
    ServedRoots(w.At(d), e);
    ServedIsOk(w.At(d), e);
    EndToEnd(data, certificate, storage, target);
    package := BuildFor(data, certificate, storage, InputsFor(data, target)).value;
    ServedHeader(w.At(d), e);
    Certifies(w, d, e, package);
  }

  lemma ServedHeader(c: Chain, e: EpochId)
    requires e in c.epochs.headers
    ensures Served(c, e).header == c.epochs.headers[e]
  {
  }

  lemma AddressedExport(data: EpochData, leaf: ExportLeaf)
    requires leaf in data.exports
    ensures leaf in InputsFor(data, leaf.input.targetDomain).exports
    ensures HasInputs(InputsFor(data, leaf.input.targetDomain))
  {
    GroupsPartition(data.exports, ExportAddressee, leaf.input.targetDomain, leaf);
  }

  lemma AddressedCompletion(data: EpochData, leaf: FinalizedImportLeaf)
    requires leaf in data.completions
    ensures leaf in InputsFor(data, leaf.input.sourceDomain).completions
    ensures HasInputs(InputsFor(data, leaf.input.sourceDomain))
  {
    GroupsPartition(data.completions, CompletionAddressee, leaf.input.sourceDomain, leaf);
  }

  /** Every committed export can be observed at its target: its claim is backed, and the call
      succeeds unless the export is known there already. */
  lemma CommittedCanBeObserved(w: World, d: DomainId, id: ItemId, who: Account, certificate: Certificate,
                               storage: InclusionProof)
    returns (claim: T.ObservedClaim)
    requires ChainsOk(w) && HasCommitted(Ledger(w, d), id) && storage.StorageProof?
    requires var x := Ledger(w, d).exports[id].leaf.input;
             T.Gate(Ledger(w, x.targetDomain), who).None?
             && (x.sourceEpoch in w.At(d).epochs.headers ==> Small(Served(w.At(d), x.sourceEpoch)))
    ensures var x := Ledger(w, d).exports[id].leaf.input;
            && claim.exportId == id && Matches(x, claim) && Admissible(w, ObserveImport(x.targetDomain, who, claim))
            && (id !in Ledger(w, x.targetDomain).observed ==>
                  Outcome(w.At(x.targetDomain), ObserveImport(x.targetDomain, who, claim)).Some?)
  {
    hide Inv, Served, InputsFor, HasInputs, Carries, Small, Verified, FlowOf, T.CanonicalExports, Admissible, Outcome;
    hide BuildFor;
    var c := w.At(d);
    var leaf := c.transfers.exports[id].leaf;
    var e, target := leaf.input.sourceEpoch, leaf.input.targetDomain;
    CommittedIsServed(c, id);
    ClosedEpochHasHeader(c, e);
    ServedExports(c, e);
    AddressedExport(Served(c, e), leaf);
    var package := PackageVerifies(w, d, e, target, certificate, storage);
    CarriesExports(FlowOf(package), InputsFor(Served(c, e), target));
    var proof := ProofOf(FlowOf(package).exports, InputsFor(Served(c, e), target).exports, leaf);
    claim := ClaimOf(package, leaf);
    ObserveWith(w, target, who, package, proof, claim);
  }

  lemma ObserveWith(w: World, d: DomainId, who: Account, package: Package, proof: Inclusion<ExportLeaf>,
                    claim: T.ObservedClaim)
    requires ChainsOk(w) && BacksObservation(w, d, package, proof, claim) && T.Gate(Ledger(w, d), who).None?
    ensures Admissible(w, ObserveImport(d, who, claim))
    ensures claim.exportId !in Ledger(w, d).observed ==> Outcome(w.At(d), ObserveImport(d, who, claim)).Some?
  {
    hide Inv, BacksObservation, T.Observe;
    ObservationAccepted(w, d, who, package, proof, claim);
  }

  lemma AcknowledgeWith(w: World, d: DomainId, who: Account, package: Package, proof: Inclusion<FinalizedImportLeaf>,
                        claim: T.FinalizationClaim)
    requires ChainsOk(w) && SettlementInv(w) && BacksCompletion(w, d, package, proof, claim)
    requires T.Gate(Ledger(w, d), who).None?
    ensures Admissible(w, AcknowledgeExport(d, who, claim))
    ensures !HasResolved(Ledger(w, d), claim.exportId) ==> Outcome(w.At(d), AcknowledgeExport(d, who, claim)).Some?
  {
    hide Inv, BacksCompletion, T.Acknowledge, SettlementInv, HasResolved;
    CompletionAccepted(w, d, who, package, proof, claim);
  }

  lemma ServedExports(c: Chain, e: EpochId)
    requires e in c.epochs.headers
    ensures Served(c, e).exports == T.CanonicalExports(c.transfers, e)
    ensures Served(c, e).completions == T.CanonicalImports(c.transfers, e)
    ensures Served(c, e).governance == G.CanonicalLeaves(c.governance, e)
  {
  }

  lemma CarriesExports(flow: Flow, inputs: TargetInputs)
    requires Carries(flow, inputs)
    ensures LeavesAre(flow.exports, inputs.exports) && LeavesAre(flow.completions, inputs.completions)
    ensures LeavesAre(flow.governance, inputs.governance)
  {
  }

  lemma FinalizedIsServed(t: T.State, domain: DomainId, e: EpochId, id: ItemId)
    requires TP.ImportsInv(t, domain) && id in T.ImportIds(t, e)
    ensures HasMinted(t, id) && t.observed[id].claim.exportId == id
    ensures T.FinalizedLeafOf(t.observed[id]) in T.CanonicalImports(t, e)
  {
    hide T.CanonicalImports;
    assert TP.ImportListOk(t, e);
    TP.CanonicalImportsMembers(t, e, T.FinalizedLeafOf(t.observed[id]));
  }

  /** Every mint of a closed epoch can be acknowledged at the source: the completion is backed,
      and the call succeeds unless the export is resolved already. */
  lemma MintedCanBeAcknowledged(w: World, d: DomainId, e: EpochId, id: ItemId, who: Account, certificate: Certificate,
                                storage: InclusionProof)
    returns (claim: T.FinalizationClaim)
    requires ChainsOk(w) && SettlementInv(w) && id in T.ImportIds(Ledger(w, d), e) && e < w.At(d).Epoch()
    requires storage.StorageProof?
    requires e in w.At(d).epochs.headers ==> Small(Served(w.At(d), e))
    requires id in Ledger(w, d).observed ==> T.Gate(Ledger(w, Ledger(w, d).observed[id].claim.sourceDomain), who).None?
    ensures id in Ledger(w, d).observed
    ensures var source := Ledger(w, d).observed[id].claim.sourceDomain;
            && claim.exportId == id && Admissible(w, AcknowledgeExport(source, who, claim))
            && (!HasResolved(Ledger(w, source), id) ==>
                  Outcome(w.At(source), AcknowledgeExport(source, who, claim)).Some?)
  {
    hide Served, InputsFor, HasInputs, Carries, Small, Verified, FlowOf, T.CanonicalImports, HasResolved, Admissible;
    hide Outcome, BuildFor, E.Inv, GP.Inv, RootsAt, SettlementInv, TP.ImportsInv, TP.ExportsInv, TP.HoldsInv;
    var c := w.At(d);
    assert Inv(c) && c.domain == d;
    FinalizedIsServed(c.transfers, d, e, id);
    var leaf := T.FinalizedLeafOf(c.transfers.observed[id]);
    var source := leaf.input.sourceDomain;
    ClosedEpochHasHeader(c, e);
    ServedExports(c, e);
    AddressedCompletion(Served(c, e), leaf);
    var package := PackageVerifies(w, d, e, source, certificate, storage);
    CarriesExports(FlowOf(package), InputsFor(Served(c, e), source));
    var proof := ProofOf(FlowOf(package).completions, InputsFor(Served(c, e), source).completions, leaf);
    claim := CompletionOf(package, leaf);
    AcknowledgeWith(w, source, who, package, proof, claim);
  }

  lemma AddressedGovernance(data: EpochData, leaf: GovernanceLeaf)
    requires leaf in data.governance
    ensures leaf in InputsFor(data, leaf.TargetDomain()).governance && HasInputs(InputsFor(data, leaf.TargetDomain()))
  {
    GroupsPartition(data.governance, GovernanceAddressee, leaf.TargetDomain(), leaf);
  }

  /** Every committed governance leaf has a package that its target verifies. */
  lemma LeafHasPackage(w: World, d: DomainId, e: EpochId, leaf: GovernanceLeaf, certificate: Certificate,
                       storage: InclusionProof)
    returns (package: Package, proof: Inclusion<GovernanceLeaf>)
    requires ChainsOk(w) && e < w.At(d).Epoch() && leaf in G.CanonicalLeaves(Council(w, d), e) && storage.StorageProof?
    requires e in w.At(d).epochs.headers ==> Small(Served(w.At(d), e))
    ensures BacksGovernance(w, leaf.TargetDomain(), package, proof) && proof.leaf == leaf
    ensures package.input.header.input.domain == d
  {
    hide Inv, Served, InputsFor, HasInputs, Carries, Small, Verified, FlowOf, G.CanonicalLeaves, BuildFor;
    var c, target := w.At(d), leaf.TargetDomain();
    ClosedEpochHasHeader(c, e);
    ServedExports(c, e);
    AddressedGovernance(Served(c, e), leaf);
    package := PackageVerifies(w, d, e, target, certificate, storage);
    PackageOf(c, e, certificate, storage, InputsFor(Served(c, e), target), package);
    CarriesExports(FlowOf(package), InputsFor(Served(c, e), target));
    proof := ProofOf(FlowOf(package).governance, InputsFor(Served(c, e), target).governance, leaf);
  }

  lemma PackageOf(c: Chain, e: EpochId, certificate: Certificate, storage: InclusionProof, inputs: TargetInputs,
                  package: Package)
    requires e in c.epochs.headers && BuildFor(Served(c, e), certificate, storage, inputs) == Some(package)
    ensures package.input.header == c.epochs.headers[e]
  {
  }

  /** A proposal leaf is never addressed to its own source. */
  lemma ProposalGoesElsewhere(w: World, d: DomainId, e: EpochId, leaf: GovernanceLeaf)
    requires ChainsOk(w) && leaf.ProposalLeaf? && leaf in G.CanonicalLeaves(Council(w, d), e)
    ensures leaf.TargetDomain() != d
  {
    hide E.Inv, TP.Inv, RootsAt, GP.LeavesInv, GP.QueuesInv, G.CanonicalLeaves;
    assert w.At(d).domain == d && Inv(w.At(d));
    GS.CommittedLeaf(Council(w, d), d, w.At(d).Epoch(), e, leaf);
    assert GP.RecordOk(Council(w, d), d, leaf.ProposalId());
  }

  /** Every committed proposal can be imported at its target: the call is backed, and succeeds
      unless the proposal is known there already. */
  lemma ProposalCanBeImported(w: World, d: DomainId, e: EpochId, leaf: GovernanceLeaf, who: Account,
                              certificate: Certificate, storage: InclusionProof)
    requires ChainsOk(w) && e < w.At(d).Epoch() && leaf in G.CanonicalLeaves(Council(w, d), e) && storage.StorageProof?
    requires e in w.At(d).epochs.headers ==> Small(Served(w.At(d), e))
    requires leaf.ProposalLeaf? && G.Gate(Council(w, leaf.TargetDomain()), who).None?
    ensures var k := leaf.TargetDomain();
            var a := ImportProposal(k, who, leaf.proposal);
            && k != d && Admissible(w, a)
            && (leaf.ProposalId() !in Council(w, k).proposals ==> Outcome(w.At(k), a).Some?)
  {
    hide Inv, Small, Served, G.CanonicalLeaves, G.ImportProposal, BacksGovernance;
    var package, proof := LeafHasPackage(w, d, e, leaf, certificate, storage);
    ProposalGoesElsewhere(w, d, e, leaf);
    ProposalAccepted(w, leaf.TargetDomain(), who, package, proof);
  }

  /** The same for acknowledgements, once their proposal is known. */
  lemma AckCanBeImported(w: World, d: DomainId, e: EpochId, leaf: GovernanceLeaf, who: Account,
                         certificate: Certificate, storage: InclusionProof)
    requires ChainsOk(w) && AgreementInv(w) && e < w.At(d).Epoch() && leaf in G.CanonicalLeaves(Council(w, d), e)
    requires storage.StorageProof? && (e in w.At(d).epochs.headers ==> Small(Served(w.At(d), e)))
    requires leaf.AckLeaf? && G.Gate(Council(w, leaf.TargetDomain()), who).None?
    ensures var k := leaf.TargetDomain();
            var a := ImportAck(k, who, leaf.ack);
            && Admissible(w, a)
            && (leaf.ProposalId() !in Council(w, k).proposals
                || (leaf.ProposalId(), leaf.ack.acknowledgingDomain) in Council(w, k).acks
                || Outcome(w.At(k), a).Some?)
  {
    hide Inv, Small, Served, G.CanonicalLeaves, G.ImportAck, BacksGovernance, AgreementInv;
    var package, proof := LeafHasPackage(w, d, e, leaf, certificate, storage);
    AckAccepted(w, leaf.TargetDomain(), who, package, proof);
  }
}
