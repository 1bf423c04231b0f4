/** What users of the system rely on, read off the invariant of every run. */
module Theorems {
  import opened Types
  import opened Packages
  import opened Chain
  import opened Network
  import opened Settlement
  import opened History
  import opened Conservation
  import opened Agreement
  import opened GovernanceTiming
  import opened Runs
  import E = Epochs
  import T = Transfers
  import TP = TransfersProofs
  import G = Governance
  import GP = GovernanceProofs
  import GS = GovernanceSteps
  import V = Voting

  // ---------- settlement ----------

  /** Created, then committed, then minted, then burnt. */
  ghost predicate FullHistory(log: seq<Event>, id: ItemId, i: nat, j: nat, k: nat, l: nat) {
    i < j < k < l < |log| && log[i] == Created(id) && log[j] == Committed(id) && log[k] == Minted(id)
      && log[l] == Burnt(id)
  }

  lemma OrderedHistory(log: seq<Event>, id: ItemId)
    requires Ordered(log) && Burnt(id) in log
    ensures exists i, j, k, l :: FullHistory(log, id, i, j, k, l)
  {
    var l: nat :| l < |log| && log[l] == Burnt(id);
    var k := Precedes(log, l);
    var j := Precedes(log, k);
    var i := Precedes(log, j);
    assert FullHistory(log, id, i, j, k, l);
  }

  lemma OrderedDistinct(log: seq<Event>)
    requires Ordered(log)
    ensures forall i, j :: 0 <= i < j < |log| ==> log[i] != log[j]
  {
    forall i, j | 0 <= i < j < |log| ensures log[i] != log[j] {
      assert log[j] !in log[..j] && log[i] == log[..j][i];
    }
  }

  /** Whenever a hold has been burnt, the log shows the export created, then committed, then
      minted, then burnt, and no event ever occurs twice. */
  lemma BurnHistory(w: World, actions: seq<Action>, id: ItemId)
    requires GenesisWorld(w) && Legal(w, actions) && HasResolved(Ledger(Exec(w, actions), id.domain), id)
    ensures exists i, j, k, l :: FullHistory(Exec(w, actions).log, id, i, j, k, l)
    ensures forall i, j :: 0 <= i < j < |Exec(w, actions).log| ==> Exec(w, actions).log[i] != Exec(w, actions).log[j]
  {
    hide GenesisWorld, Legal, Exec, ChainsOk, SettlementInv, AgreementInv, PalletFacts, HasResolved, Ordered;
    hide FullHistory;
    EveryRun(w, actions);
    assert Happened(Exec(w, actions), Burnt(id));
    OrderedHistory(Exec(w, actions).log, id);
    OrderedDistinct(Exec(w, actions).log);
  }

  lemma Precedes(log: seq<Event>, i: nat) returns (k: nat)
    requires Ordered(log) && i < |log| && Before(log[i]).Some?
    ensures k < i && log[k] == Before(log[i]).value
  {
    k :| 0 <= k < |log[..i]| && log[..i][k] == Before(log[i]).value;
  }

  /** Created, then committed, then minted. */
  ghost predicate HistoryToMint(log: seq<Event>, id: ItemId, i: nat, j: nat, k: nat) {
    i < j < k < |log| && log[i] == Created(id) && log[j] == Committed(id) && log[k] == Minted(id)
  }

  /** Whatever has been minted was minted once, only at its target, with the committed recipient
      and amount, after the export was created and then committed. */
  lemma MintHistory(w: World, actions: seq<Action>, d: DomainId, id: ItemId)
    requires GenesisWorld(w) && Legal(w, actions) && HasMinted(Ledger(Exec(w, actions), d), id)
    ensures var v := Exec(w, actions);
            var source := Ledger(v, id.domain);
            && HasCommitted(source, id) && source.exports[id].leaf.input.targetDomain == d
            && Matches(source.exports[id].leaf.input, Ledger(v, d).observed[id].claim)
            && (exists i, j, k :: HistoryToMint(v.log, id, i, j, k))
            && (forall i, j :: 0 <= i < j < |v.log| ==> v.log[i] != v.log[j])
  {
    hide GenesisWorld, Legal, Exec, AgreementInv, PalletFacts, Ordered, HistoryToMint, ChainsOk, SettlementInv;
    hide HasMinted, Matches;
    EveryRun(w, actions);
    var v := Exec(w, actions);
    MintFacts(v, d, id);
    MintedHappened(v, d, id);
    OrderedMint(v.log, id);
    OrderedDistinct(v.log);
  }

  lemma MintedHappened(w: World, d: DomainId, id: ItemId)
    requires HasMinted(Ledger(w, d), id) && HasCommitted(Ledger(w, id.domain), id)
    requires Ledger(w, id.domain).exports[id].leaf.input.targetDomain == d
    ensures Happened(w, Minted(id))
  {
  }

  lemma MintFacts(w: World, d: DomainId, id: ItemId)
    requires ChainsOk(w) && SettlementInv(w) && HasMinted(Ledger(w, d), id)
    ensures var source := Ledger(w, id.domain);
            && HasCommitted(source, id) && source.exports[id].leaf.input.targetDomain == d
            && Matches(source.exports[id].leaf.input, Ledger(w, d).observed[id].claim)
  {
    hide E.Inv, GP.Inv, RootsAt, TP.ExportsInv, TP.HoldsInv;
    assert w.At(d).domain == d && Inv(w.At(d)) && ImportBacked(w, d, id);
    MintBacked(w, d, id);
    ExportDomain(w, Ledger(w, d).observed[id].claim.sourceDomain, id);
  }

  lemma OrderedMint(log: seq<Event>, id: ItemId)
    requires Ordered(log) && Minted(id) in log
    ensures exists i, j, k :: HistoryToMint(log, id, i, j, k)
  {
    var k: nat :| k < |log| && log[k] == Minted(id);
    var j := Precedes(log, k);
    var i := Precedes(log, j);
    assert HistoryToMint(log, id, i, j, k);
  }

  /** The total is what genesis put into circulation. */
  lemma SupplyIsConstant(w: World, actions: seq<Action>)
    requires GenesisWorld(w) && Legal(w, actions)
    ensures TotalValue(Exec(w, actions))
         == FreeTotal(Ledger(w, Earth)) + FreeTotal(Ledger(w, Moon)) + FreeTotal(Ledger(w, Mars))
  {
    hide Legal, Exec, WorldInv, FreeTotal, GenesisChain;
    EveryRun(w, actions);
    forall d: DomainId ensures InFlight(w, d) == 0 {
      GenesisChainOk(w.At(d), d);
    }
  }

  /** The log is only ever appended to. */
  lemma {:induction false} LogGrows(w: World, actions: seq<Action>)
    ensures w.log <= Exec(w, actions).log
    decreases |actions|
  {
    hide Outcome, Events;
    if actions != [] {
      LogGrows(w, actions[..|actions| - 1]);
    }
  }

  /** What has happened to an export stays so in every run; in particular a resolved export is
      never committed again. */
  lemma HappenedForever(w: World, actions: seq<Action>, e: Event)
    requires WorldInv(w) && Legal(w, actions) && Happened(w, e)
    ensures Happened(Exec(w, actions), e)
  {
    hide ChainsOk, SettlementInv, AgreementInv, PalletFacts, Happened, Legal, Exec, Ordered;
    RunKeeps(w, actions);
    LogGrows(w, actions);
  }

  lemma ResolvedForever(w: World, actions: seq<Action>, id: ItemId)
    requires WorldInv(w) && Legal(w, actions) && HasResolved(Ledger(w, id.domain), id)
    ensures HasResolved(Ledger(Exec(w, actions), id.domain), id)
  {
    hide WorldInv, Legal, Exec, HasResolved;
    assert Happened(w, Burnt(id));
    HappenedForever(w, actions, Burnt(id));
  }

  // ---------- delivery ----------

  /** A package once verified stays verified, however late it is used. */
  lemma VerifiedForever(w: World, a: Action, d: DomainId, package: Package)
    requires WorldInv(w) && Admissible(w, a) && Verified(w, d, package)
    ensures Verified(Apply(w, a), d, package)
  {
    hide Inv, Outcome, SettlementInv, LogInv, AgreementInv, Admissible, PalletFacts, World.At, World.With, Events;
    hide FlowOk, TP.Evolves, GP.Evolves;
    var c := w.At(a.domain);
    if Outcome(c, a).Some? {
      WithAt(w, a.domain, Outcome(c, a).value, Apply(w, a).log);
      LocalStep(w, a, Outcome(c, a).value);
    }
  }

  /** A verified observation is refused only as a duplicate. */
  lemma ObservationAccepted(w: World, d: DomainId, who: Account, package: Package, proof: Inclusion<ExportLeaf>,
                            claim: T.ObservedClaim)
    requires ChainsOk(w) && BacksObservation(w, d, package, proof, claim) && T.Gate(Ledger(w, d), who).None?
    ensures var r := T.Observe(Ledger(w, d), TransfersEnv(w.At(d), 0), who, claim);
            if claim.exportId in Ledger(w, d).observed then r == Err(T.DuplicateObservedImport) else r.Ok?
  {
    hide Inv, Verified;
    ObservationBacked(w, d, package, proof);
    assert w.At(d).domain == d;
  }

  /** A verified completion is refused only as a duplicate: the export is there, the facts
      match and the hold covers the amount. */
  lemma CompletionAccepted(w: World, d: DomainId, who: Account, package: Package, proof: Inclusion<FinalizedImportLeaf>,
                           claim: T.FinalizationClaim)
    requires ChainsOk(w) && SettlementInv(w) && BacksCompletion(w, d, package, proof, claim)
    requires T.Gate(Ledger(w, d), who).None?
    ensures var r := T.Acknowledge(Ledger(w, d), TransfersEnv(w.At(d), 0), who, claim);
            if HasResolved(Ledger(w, d), claim.exportId) then r == Err(T.DuplicateFinalizedImport) else r.Ok?
  {
    hide Verified, E.Inv, GP.Inv, RootsAt, TP.ExportsInv, TP.ImportsInv;
    var t, id := Ledger(w, d), claim.exportId;
    CompletionBacked(w, d, package, proof);
    assert ImportBacked(w, claim.targetDomain, id);
    assert w.At(d).domain == d && Inv(w.At(d));
    CompletionChecks(w, d, proof.leaf, claim);
    if !HasResolved(t, id) {
      TP.HoldCovers(t, id);
    }
  }

  lemma CompletionChecks(w: World, d: DomainId, leaf: FinalizedImportLeaf, claim: T.FinalizationClaim)
    requires var target := Ledger(w, leaf.input.targetDomain);
             && leaf.input.sourceDomain == d && HasMinted(target, leaf.input.exportId)
             && T.FinalizedLeafOf(target.observed[leaf.input.exportId]) == leaf
             && ImportBacked(w, leaf.input.targetDomain, leaf.input.exportId)
    requires claim.exportId == leaf.input.exportId && claim.sourceDomain == leaf.input.sourceDomain
    requires claim.targetDomain == leaf.input.targetDomain && claim.sourceEpoch == leaf.input.sourceEpoch
    requires claim.recipient == leaf.input.recipient && claim.amount == leaf.input.amount
    ensures claim.exportId in Ledger(w, d).exports
    ensures T.AckCheck(Ledger(w, d).exports[claim.exportId], claim) ==
              if HasResolved(Ledger(w, d), claim.exportId) then Some(T.DuplicateFinalizedImport) else None
  {
  }

  // ---------- governance ----------

  /** Any two approved copies of a proposal, on any chains, state the same facts. */
  lemma CopiesAgree(w: World, d: DomainId, k: DomainId, id: ItemId)
    requires ChainsOk(w) && AgreementInv(w) && id in Council(w, d).proposals && id in Council(w, k).proposals
    requires GP.Live(Council(w, d).proposals[id].status) && GP.Live(Council(w, k).proposals[id].status)
    ensures SameFacts(Council(w, d).proposals[id], Council(w, k).proposals[id])
  {
    hide Inv;
    HomeDomain(w, d, id);
    HomeDomain(w, k, id);
    assert CopyAgrees(w, d, id) && CopyAgrees(w, k, id);
  }

  /** A proposal that is scheduled or active anywhere is held by every chain it targets, with
      the same payload, version and activation epoch. */
  lemma ScheduledEverywhere(w: World, d: DomainId, id: ItemId, k: DomainId)
    requires ChainsOk(w) && AgreementInv(w) && id in Council(w, d).proposals
    requires var p := Council(w, d).proposals[id];
             (p.status == G.Scheduled || p.status == G.Activated) && k in p.targetDomains
    ensures id in Council(w, k).proposals && GP.Live(Council(w, k).proposals[id].status)
    ensures SameFacts(Council(w, d).proposals[id], Council(w, k).proposals[id])
  {
    hide E.Inv, TP.Inv, RootsAt, GP.LeavesInv, GP.QueuesInv;
    assert w.At(d).domain == d && GP.RecordOk(Council(w, d), d, id);
    assert AckReal(w, d, id, k);
    ImportedIsLive(w, k, id);
    CopiesAgree(w, d, k, id);
  }

  /** Activation: never early; in the first block of the activation epoch when scheduled before
      that epoch; within one epoch of a late scheduling, where `Activation.ActivatesInItsBlock` names
      the block. */
  lemma ActivatedOnTime(w: World, d: DomainId, id: ItemId)
    requires WorldInv(w) && id in Council(w, d).activations && Council(w, d).activations[id].status == G.Activated
    ensures var a, length := Council(w, d).activations[id], w.At(d).epochs.length;
            && a.scheduledAt.Some? && a.activatedAtEpoch.Some? && a.activatedAtHeight.Some?
            && a.activationEpoch <= a.activatedAtEpoch.value
            && InEpoch(a.activatedAtHeight.value, a.activatedAtEpoch.value, length)
            && (a.scheduledAt.value < a.activationEpoch ==>
                  a.activatedAtEpoch.value == a.activationEpoch
                    && a.activatedAtHeight.value == a.activationEpoch * length + 1)
            && (a.scheduledAt.value >= a.activationEpoch ==> a.activatedAtEpoch.value <= a.scheduledAt.value + 1)
  {
    hide ChainsOk, SettlementInv, LogInv, AgreementInv;
    assert PalletFacts(w.At(d));
    E.BeforeIsProduct(Council(w, d).activations[id].activationEpoch, w.At(d).epochs.length);
  }

  /** Proposals, epochs and domains only move forward, in every run. */
  lemma {:induction false} ProposalsGrowOverRuns(w: World, actions: seq<Action>, d: DomainId)
    requires WorldInv(w) && Legal(w, actions)
    ensures GP.ProposalsGrow(Council(w, d).proposals, Council(Exec(w, actions), d).proposals)
    ensures w.At(d).Epoch() <= Exec(w, actions).At(d).Epoch() && Exec(w, actions).At(d).domain == w.At(d).domain
    decreases |actions|
  {
    hide WorldInv, Admissible, Apply, World.At, GP.ProposalsGrow;
    if actions == [] {
      SameProposals(Council(w, d).proposals);
    } else {
      var n := |actions| - 1;
      var v := Exec(w, actions[..n]);
      ProposalsGrowOverRuns(w, actions[..n], d);
      RunKeeps(w, actions[..n]);
      ProposalsGrowOnce(v, actions[n], d);
      GS.GrowTransitive(Council(w, d).proposals, Council(v, d).proposals, Council(Apply(v, actions[n]), d).proposals);
    }
  }

  lemma SameProposals(proposals: map<ItemId, G.Proposal>)
    ensures GP.ProposalsGrow(proposals, proposals)
  {
  }

  lemma ProposalsGrowOnce(w: World, a: Action, d: DomainId)
    requires WorldInv(w) && Admissible(w, a)
    ensures GP.ProposalsGrow(Council(w, d).proposals, Council(Apply(w, a), d).proposals)
    ensures w.At(d).Epoch() <= Apply(w, a).At(d).Epoch() && Apply(w, a).At(d).domain == w.At(d).domain
  {
    hide Inv, Outcome, SettlementInv, LogInv, AgreementInv, Admissible, PalletFacts, World.At, World.With, Events;
    hide TP.Evolves, GP.ProposalsGrow, GP.LeavesGrow;
    var c := w.At(a.domain);
    SameProposals(Council(w, d).proposals);
    if Outcome(c, a).Some? {
      WithAt(w, a.domain, Outcome(c, a).value, Apply(w, a).log);
      LocalStep(w, a, Outcome(c, a).value);
    }
  }

  /** Once a proposal can be closed, no ballot on it is accepted in any continuation. */
  lemma ClosingEndsVotingForever(w: World, actions: seq<Action>, d: DomainId, id: ItemId, who: Account,
                                 choice: G.Choice)
    requires WorldInv(w) && Legal(w, actions)
    requires G.CloseProposal(Council(w, d), GovernanceEnv(w.At(d)), id).Ok?
    ensures var v := Exec(w, actions);
            G.CastVote(Council(v, d), GovernanceEnv(v.At(d)), who, id, choice).Err?
  {
    hide WorldInv, Legal, Exec, World.At, GP.ProposalsGrow, G.CloseProposal, G.CastVote;
    ProposalsGrowOverRuns(w, actions, d);
    var v := Exec(w, actions);
    V.ClosingEndsVoting(Council(w, d), GovernanceEnv(w.At(d)), id, Council(v, d), GovernanceEnv(v.At(d)), who, choice);
  }

  /** A verified proposal from another chain is refused only as a duplicate. */
  lemma ProposalAccepted(w: World, d: DomainId, who: Account, package: Package, proof: Inclusion<GovernanceLeaf>)
    requires ChainsOk(w) && BacksGovernance(w, d, package, proof) && proof.leaf.ProposalLeaf?
    requires package.input.header.input.domain != d && G.Gate(Council(w, d), who).None?
    ensures var r := G.ImportProposal(Council(w, d), GovernanceEnv(w.At(d)), who, proof.leaf.proposal);
            if proof.leaf.proposal.proposalId in Council(w, d).proposals then r == Err(G.DuplicateImportedProposal)
                else r.Ok?
  {
    hide Verified, E.Inv, TP.Inv, RootsAt, GP.LeavesInv, GP.QueuesInv, G.RecordLocalAck, G.MaybeSchedule;
    GovernanceLeafBacked(w, d, package, proof);
    var s := package.input.header.input.domain;
    assert w.At(d).domain == d && w.At(s).domain == s;
    assert GP.RecordOk(Council(w, s), s, proof.leaf.proposal.proposalId);
  }

  /** A verified acknowledgement is refused only as a duplicate or ahead of its proposal. */
  lemma AckAccepted(w: World, d: DomainId, who: Account, package: Package, proof: Inclusion<GovernanceLeaf>)
    requires ChainsOk(w) && AgreementInv(w) && BacksGovernance(w, d, package, proof) && proof.leaf.AckLeaf?
    requires G.Gate(Council(w, d), who).None?
    ensures var leaf := proof.leaf.ack;
            var r := G.ImportAck(Council(w, d), GovernanceEnv(w.At(d)), who, leaf);
            if (leaf.proposalId, leaf.acknowledgingDomain) in Council(w, d).acks then r == Err(G.DuplicateImportedAck)
            else if leaf.proposalId !in Council(w, d).proposals then r == Err(G.ProposalNotKnown)
            else r.Ok?
  {
    hide Verified, Inv, G.NoteAck;
    var leaf := proof.leaf.ack;
    var k := leaf.acknowledgingDomain;
    assert w.At(d).domain == d;
    GovernanceLeafBacked(w, d, package, proof);
    if leaf.proposalId in Council(w, d).proposals {
      AckFactsMatch(w, d, k, leaf.proposalId);
    }
  }

  lemma AckFactsMatch(w: World, d: DomainId, k: DomainId, id: ItemId)
    requires ChainsOk(w) && AgreementInv(w) && Imported(Council(w, k), k, id) && id in Council(w, d).proposals
    ensures SameFacts(Council(w, d).proposals[id], Council(w, k).proposals[id])
  {
    hide Inv;
    HomeDomain(w, d, id);
    HomeDomain(w, k, id);
    assert CopyAgrees(w, k, id);
    ImportedIsLive(w, k, id);
    if d != id.domain {
      ImportedIsLive(w, d, id);
    }
    CopiesAgree(w, d, k, id);
  }

  /** Ids of new proposals are fresh until the counter saturates. */
  lemma ProposalIdsFresh(w: World, d: DomainId)
    requires ChainsOk(w) && AgreementInv(w) && Council(w, d).nextSequence < U64_MAX
    ensures ItemId(d, Council(w, d).nextSequence) !in Council(w, d).proposals
  {
    hide Inv;
    var id := ItemId(d, Council(w, d).nextSequence);
    if id in Council(w, d).proposals {
      HomeDomain(w, d, id);
      assert GP.SequenceOk(Council(w, d), d);
    }
  }
}
