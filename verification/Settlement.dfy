/** Settlement across chains: nothing is observed at a destination that its source has not
    committed, and nothing is resolved at a source that its destination has not minted. */
module Settlement {
  import opened Types
  import opened Commitments
  import opened Packages
  import opened Chain
  import opened Network
  import E = Epochs
  import T = Transfers
  import TP = TransfersProofs
  import GP = GovernanceProofs

  ghost predicate ChainsOk(w: World) { forall d: DomainId :: w.At(d).domain == d && Inv(w.At(d)) }

  function Ledger(w: World, d: DomainId): T.State { w.At(d).transfers }

  predicate Matches(x: ExportLeafInput, claim: T.ObservedClaim) {
    && x.sourceDomain == claim.sourceDomain && x.targetDomain == claim.targetDomain
    && x.sourceEpoch == claim.sourceEpoch
    && x.recipient == claim.recipient && x.amount == claim.amount
  }

  predicate HasCommitted(t: T.State, id: ItemId) { id in t.exports && t.exports[id].status != T.LocalFinal }
  predicate HasResolved(t: T.State, id: ItemId) { id in t.exports && t.exports[id].status == T.RemoteFinalized }
  predicate HasMinted(t: T.State, id: ItemId) { id in t.observed && t.observed[id].status == T.ImportFinalized }

  /** An observed import is an export that its source has committed, field by field. */
  ghost predicate ImportBacked(w: World, d: DomainId, id: ItemId) {
    id in Ledger(w, d).observed ==>
      var claim := Ledger(w, d).observed[id].claim;
      var source := Ledger(w, claim.sourceDomain);
      HasCommitted(source, id) && Matches(source.exports[id].leaf.input, claim)
  }

  /** A resolved export has been minted where it was sent. */
  ghost predicate ExportSettled(w: World, d: DomainId, id: ItemId) {
    HasResolved(Ledger(w, d), id) ==> HasMinted(Ledger(w, Ledger(w, d).exports[id].leaf.input.targetDomain), id)
  }

  ghost predicate SettlementInv(w: World) {
    && (forall d: DomainId, id :: ImportBacked(w, d, id))
    && (forall d: DomainId, id :: ExportSettled(w, d, id))
  }

  // ---------- what a verified package proves ----------

  lemma CertifiedRoots(w: World, package: Package)
    requires ChainsOk(w) && Certified(w, package)
    ensures var header := package.input.header.input;
            var c := w.At(header.domain);
            && header.epoch < c.Epoch()
            && E.Roots(header.exportRoot, header.importRoot, header.governanceRoot)
                 == RootsAt(c, header.epoch, header.start, header.end)
  {
    hide TP.Inv, RootsAt;
    var header := package.input.header.input;
    var c := w.At(header.domain);
    HeadersAreClosed(c, header.epoch);
    assert Reproducible(c, header.epoch);
  }

  /** A verified export proof shows an export that the source has committed. */
  lemma ObservationBacked(w: World, d: DomainId, package: Package, proof: Inclusion<ExportLeaf>)
    requires ChainsOk(w) && Verified(w, d, package) && proof in FlowOf(package).exports
    ensures var x := proof.leaf.input;
            var source := Ledger(w, x.sourceDomain);
            && x.sourceDomain != d && x.targetDomain == d
            && HasCommitted(source, x.exportId) && source.exports[x.exportId].leaf == proof.leaf
  {
    var header := package.input.header.input;
    var c := w.At(header.domain);
    CertifiedRoots(w, package);
    FlowItems(package, d);
    assert ForwardOk(header, d, proof);
    ExportProofMeans(c, header, proof);
  }

  lemma ExportProofMeans(c: Chain, header: SummaryInput, proof: Inclusion<ExportLeaf>)
    requires Inv(c) && header.epoch < c.Epoch() && VerifyExport(header.exportRoot, proof)
    requires header.exportRoot == RootsAt(c, header.epoch, header.start, header.end).exportRoot
    ensures var id := proof.leaf.input.exportId;
            HasCommitted(c.transfers, id) && c.transfers.exports[id].leaf == proof.leaf
                && proof.leaf.input.targetDomain != c.domain
  {
    hide VerifyExport, ExportRoot, T.CanonicalExports, TP.ExportsInv, ImportRoot, GovernanceRoot;
    TP.CanonicalLeavesAreCanonical(c.transfers, c.domain, c.Epoch(), header.epoch);
    ExportSound(c.domain, header.epoch, header.start, header.end, T.CanonicalExports(c.transfers, header.epoch), proof);
    TP.CommittedExport(c.transfers, c.domain, c.Epoch(), header.epoch, proof.leaf);
  }

  lemma CompletionProofMeans(c: Chain, header: SummaryInput, proof: Inclusion<FinalizedImportLeaf>)
    requires Inv(c) && header.epoch < c.Epoch() && VerifyImport(header.importRoot, proof)
    requires header.importRoot == RootsAt(c, header.epoch, header.start, header.end).importRoot
    ensures var id := proof.leaf.input.exportId;
            HasMinted(c.transfers, id) && T.FinalizedLeafOf(c.transfers.observed[id]) == proof.leaf
  {
    hide VerifyImport, ImportRoot, T.CanonicalImports, TP.ImportsInv, ExportRoot, GovernanceRoot;
    TP.CanonicalLeavesAreCanonical(c.transfers, c.domain, c.Epoch(), header.epoch);
    ImportSound(c.domain, header.epoch, header.start, header.end, T.CanonicalImports(c.transfers, header.epoch), proof);
    TP.CommittedImport(c.transfers, c.domain, header.epoch, proof.leaf);
  }

  /** A verified completion proof shows a mint at the domain that issued the package. */
  lemma CompletionBacked(w: World, d: DomainId, package: Package, proof: Inclusion<FinalizedImportLeaf>)
    requires ChainsOk(w) && Verified(w, d, package) && proof in FlowOf(package).completions
    ensures var x := proof.leaf.input;
            var target := Ledger(w, x.targetDomain);
            && x.sourceDomain == d && HasMinted(target, x.exportId)
            && T.FinalizedLeafOf(target.observed[x.exportId]) == proof.leaf
  {
    var header := package.input.header.input;
    CertifiedRoots(w, package);
    FlowItems(package, d);
    assert CompletionOk(header, d, proof);
    CompletionProofMeans(w.At(header.domain), header, proof);
  }

  // ---------- what one action changes ----------

  /** Only an observation adds to the observed imports. */
  lemma ObservedOnly(c: Chain, a: Action, c': Chain, id: ItemId)
    requires Outcome(c, a) == Some(c') && id in c'.transfers.observed && id !in c.transfers.observed
    ensures a.ObserveImport? && T.Gate(c.transfers, a.who).None? && id == a.observed.exportId
    ensures c'.transfers.observed[id].claim == a.observed && a.observed.targetDomain == c.domain
    ensures c'.transfers.observed[id].status == T.RemoteObserved
  {
    hide E.OnInitialize, RootsAt, T.CanonicalExports, GovernanceCall, GP.Inv;
  }

  lemma CommitNotResolved(t: T.State, domain: DomainId, epoch: EpochId, id: ItemId)
    requires TP.ExportsInv(t, domain, epoch) && HasResolved(T.CommitExports(t, epoch), id)
    ensures HasResolved(t, id)
  {
    hide T.CommitExports, TP.ExportsInv;
    TP.CommitEffect(t, domain, epoch, id);
  }

  /** Only an acknowledgement resolves an export. */
  lemma ResolvedOnly(c: Chain, a: Action, c': Chain, id: ItemId)
    requires Inv(c) && Outcome(c, a) == Some(c') && HasResolved(c'.transfers, id) && !HasResolved(c.transfers, id)
    ensures a.AcknowledgeExport? && T.Gate(c.transfers, a.who).None? && id == a.completion.exportId
    ensures id in c.transfers.exports && T.AckCheck(c.transfers.exports[id], a.completion).None?
    ensures c'.transfers.exports[id].leaf == c.transfers.exports[id].leaf
  {
    hide E.OnInitialize, RootsAt, T.CommitExports, TP.ExportsInv, GovernanceCall, E.Inv, GP.Inv;
    if a.Block? {
      if c'.transfers != c.transfers {
        CommitNotResolved(c.transfers, c.domain, c.Epoch(), id);
      }
    }
  }

  // ---------- preservation ----------

  lemma BackedKept(w: World, w': World, d: DomainId, x: DomainId, id: ItemId)
    requires (forall y: DomainId :: y != d ==> w'.At(y) == w.At(y))
    requires TP.Evolves(Ledger(w, d), Ledger(w', d), w.At(d).Epoch())
    requires ImportBacked(w, x, id) && (id in Ledger(w', x).observed ==> id in Ledger(w, x).observed)
    ensures ImportBacked(w', x, id)
  {
  }

  lemma SettledKept(w: World, w': World, d: DomainId, x: DomainId, id: ItemId)
    requires (forall y: DomainId :: y != d ==> w'.At(y) == w.At(y))
    requires TP.Evolves(Ledger(w, d), Ledger(w', d), w.At(d).Epoch())
    requires ExportSettled(w, x, id) && (HasResolved(Ledger(w', x), id) ==> HasResolved(Ledger(w, x), id))
    ensures ExportSettled(w', x, id)
  {
  }

  lemma NewBacked(w: World, a: Action, c': Chain, id: ItemId)
    requires ChainsOk(w) && Admissible(w, a) && Outcome(w.At(a.domain), a) == Some(c')
    requires id in c'.transfers.observed && id !in Ledger(w, a.domain).observed
    ensures var claim := c'.transfers.observed[id].claim;
            var source := Ledger(w, claim.sourceDomain);
            claim.sourceDomain != a.domain && HasCommitted(source, id) && Matches(source.exports[id].leaf.input, claim)
  {
    hide Outcome, Inv, Verified, HasCommitted;
    ObservedOnly(w.At(a.domain), a, c', id);
    var package, proof :| BacksObservation(w, a.domain, package, proof, a.observed);
    ObservationBacked(w, a.domain, package, proof);
  }

  lemma NewSettled(w: World, a: Action, c': Chain, id: ItemId)
    requires ChainsOk(w) && Admissible(w, a) && Outcome(w.At(a.domain), a) == Some(c')
    requires HasResolved(c'.transfers, id) && !HasResolved(Ledger(w, a.domain), id)
    ensures var target := c'.transfers.exports[id].leaf.input.targetDomain;
            target != a.domain && HasMinted(Ledger(w, target), id)
  {
    hide Outcome, Verified, E.Inv, GP.Inv, RootsAt;
    var c := w.At(a.domain);
    ResolvedOnly(c, a, c', id);
    var package, proof :| BacksCompletion(w, a.domain, package, proof, a.completion);
    CompletionBacked(w, a.domain, package, proof);
    assert TP.ExportOk(c.transfers, c.domain, c.Epoch(), id);
  }

  lemma BackedStep(w: World, a: Action, c': Chain, w': World, d: DomainId, id: ItemId)
    requires ChainsOk(w) && Admissible(w, a) && Outcome(w.At(a.domain), a) == Some(c')
    requires w' == w.With(a.domain, c').(log := w'.log)
    requires TP.Evolves(Ledger(w, a.domain), c'.transfers, w.At(a.domain).Epoch()) && ImportBacked(w, d, id)
    ensures ImportBacked(w', d, id)
  {
    hide ChainsOk, Outcome, TP.Evolves, Admissible, HasCommitted;
    if d == a.domain && id in c'.transfers.observed && id !in Ledger(w, d).observed {
      NewBacked(w, a, c', id);
    } else {
      BackedKept(w, w', a.domain, d, id);
    }
  }

  lemma SettledStep(w: World, a: Action, c': Chain, w': World, d: DomainId, id: ItemId)
    requires ChainsOk(w) && Admissible(w, a) && Outcome(w.At(a.domain), a) == Some(c')
    requires w' == w.With(a.domain, c').(log := w'.log)
    requires TP.Evolves(Ledger(w, a.domain), c'.transfers, w.At(a.domain).Epoch()) && ExportSettled(w, d, id)
    ensures ExportSettled(w', d, id)
  {
    hide ChainsOk, Outcome, TP.Evolves, Admissible, HasMinted;
    if d == a.domain && HasResolved(c'.transfers, id) && !HasResolved(Ledger(w, d), id) {
      NewSettled(w, a, c', id);
    } else {
      SettledKept(w, w', a.domain, d, id);
    }
  }

  lemma SettlementStep(w: World, a: Action, c': Chain, w': World)
    requires ChainsOk(w) && SettlementInv(w) && Admissible(w, a) && Outcome(w.At(a.domain), a) == Some(c')
    requires w' == w.With(a.domain, c').(log := w'.log)
    requires TP.Evolves(Ledger(w, a.domain), c'.transfers, w.At(a.domain).Epoch())
    ensures SettlementInv(w')
  {
    hide ChainsOk, Outcome, TP.Evolves, Admissible, ImportBacked, ExportSettled;
    forall d: DomainId, id ensures ImportBacked(w', d, id) {
      BackedStep(w, a, c', w', d, id);
    }
    forall d: DomainId, id ensures ExportSettled(w', d, id) {
      SettledStep(w, a, c', w', d, id);
    }
  }
}
