/** Governance across chains: every copy of a proposal says the same, acknowledgements are real,
    and nothing is scheduled anywhere before every target holds the proposal. */
module Agreement {
  import opened Types
  import opened Commitments
  import opened Packages
  import opened Chain
  import opened Network
  import opened Settlement
  import opened Ballots
  import E = Epochs
  import T = Transfers
  import TP = TransfersProofs
  import G = Governance
  import GP = GovernanceProofs
  import GS = GovernanceSteps

  function Council(w: World, d: DomainId): G.State { w.At(d).governance }

  predicate SameFacts(p: G.Proposal, q: G.Proposal) {
    && p.sourceDomain == q.sourceDomain && p.targetDomains == q.targetDomains && p.payloadHash == q.payloadHash
    && p.newVersion == q.newVersion && p.activationEpoch == q.activationEpoch && p.approvalEpoch == q.approvalEpoch
    && p.proposer == q.proposer && p.createdEpoch == q.createdEpoch
    && p.votingStart == q.votingStart && p.votingEnd == q.votingEnd
  }

  /** A proposal held by another chain than its source, with its source's approval. */
  ghost predicate Imported(g: G.State, d: DomainId, id: ItemId) {
    id in g.proposals && g.proposals[id].sourceDomain != d
  }

  /** An imported copy states what its source approved. */
  ghost predicate CopyAgrees(w: World, d: DomainId, id: ItemId) {
    Imported(Council(w, d), d, id) ==>
      var p := Council(w, d).proposals[id];
      var source := Council(w, p.sourceDomain);
      id in source.proposals && GP.Live(source.proposals[id].status) && SameFacts(p, source.proposals[id])
  }

  /** A known acknowledgement comes from a chain that has imported the proposal. */
  ghost predicate AckReal(w: World, d: DomainId, id: ItemId, k: DomainId) {
    GP.Knows(Council(w, d), id, k) ==> Imported(Council(w, k), k, id)
  }

  ghost predicate AgreementInv(w: World) {
    && (forall d: DomainId, id :: CopyAgrees(w, d, id))
    && (forall d: DomainId, id, k: DomainId :: AckReal(w, d, id, k))
    && (forall d: DomainId :: GP.SequenceOk(Council(w, d), d))
  }

  // ---------- what a verified package proves ----------

  lemma GovernanceProofMeans(c: Chain, header: SummaryInput, proof: Inclusion<GovernanceLeaf>)
    requires Inv(c) && header.epoch < c.Epoch() && VerifyGovernance(header.governanceRoot, proof)
    requires header.governanceRoot == RootsAt(c, header.epoch, header.start, header.end).governanceRoot
    ensures GP.LeafBacked(c.governance.proposals, c.domain, proof.leaf)
  {
    hide VerifyGovernance, GovernanceRoot, ExportRoot, ImportRoot, G.CanonicalLeaves, GP.LeafBacked, GP.LeavesInv;
    hide GP.CoreInv, TP.Inv, E.Inv;
    var leaves := G.CanonicalLeaves(c.governance, header.epoch);
    forall i | 0 <= i < |leaves| ensures GovernanceCanonical(leaves[i]) {
      GS.CommittedLeaf(c.governance, c.domain, c.Epoch(), header.epoch, leaves[i]);
    }
    GovernanceSound(c.domain, header.epoch, header.start, header.end, leaves, proof);
    GS.CommittedLeaf(c.governance, c.domain, c.Epoch(), header.epoch, proof.leaf);
  }

  /** A verified governance proof shows what the issuing chain holds. */
  lemma GovernanceLeafBacked(w: World, d: DomainId, package: Package, proof: Inclusion<GovernanceLeaf>)
    requires ChainsOk(w) && BacksGovernance(w, d, package, proof)
    ensures var s := package.input.header.input.domain;
            GP.LeafBacked(Council(w, s).proposals, s, proof.leaf)
    ensures proof.leaf.TargetDomain() == d
    ensures proof.leaf.ProposalLeaf? ==> proof.leaf.proposal.sourceDomain == package.input.header.input.domain
  {
    hide RootsAt, GP.LeafBacked, Inv, VerifyGovernance;
    var header := package.input.header.input;
    CertifiedRoots(w, package);
    FlowItems(package, d);
    assert GovernanceOk(header, d, proof);
    GovernanceProofMeans(w.At(header.domain), header, proof);
  }

  // ---------- what one action changes ----------

  lemma ImportAdds(s: G.State, env: G.Env, who: Account, leaf: ProposalLeafInput, s': G.State)
    requires GP.Inv(s, env.domain, env.epoch) && G.ImportProposal(s, env, who, leaf) == Ok(s')
    ensures leaf.proposalId in s'.proposals && SameFacts(s'.proposals[leaf.proposalId], G.ImportedProposal(leaf))
    ensures forall id :: id in s'.proposals ==> id in s.proposals || id == leaf.proposalId
  {
    hide G.RecordLocalAck, GP.CoreInv, GP.LeavesInv, GP.AcksFrom, GP.ProposalsGrow;
    var s1 := GS.Stored(s, env.domain, leaf);
    GS.StoredKeeps(s, env.domain, env.epoch, leaf);
    GS.RecordLocalAckKeeps(s1, env, G.ImportedProposal(leaf));
  }

  lemma AckAddsNothing(s: G.State, env: G.Env, who: Account, leaf: AckLeafInput, s': G.State, id: ItemId)
    requires G.ImportAck(s, env, who, leaf) == Ok(s') && id in s'.proposals
    ensures id in s.proposals
  {
    hide G.NoteAck;
    var s1 := s.(acks := s.acks[(leaf.proposalId, leaf.acknowledgingDomain) :=
      G.AckRecord(leaf.sourceDomain, leaf.targetDomains, leaf.activationEpoch, leaf.payloadHash, leaf.newVersion,
                  leaf.acknowledgedEpoch, env.height)]);
    NoteAckAddsNothing(s1, leaf.proposalId, leaf.acknowledgingDomain, env.epoch, id);
  }

  lemma NoteAckAddsNothing(s: G.State, k: ItemId, acking: DomainId, epoch: EpochId, id: ItemId)
    requires id in G.NoteAck(s, k, acking, epoch).proposals
    ensures id in s.proposals
  {
    hide G.MaybeSchedule, G.SortedDomains;
    ScheduleAddsNothing(s, k, epoch);
    if k in s.activations {
      ScheduleAddsNothing(GS.WithAck(s, k, acking), k, epoch);
    }
  }

  lemma ScheduleAddsNothing(s: G.State, id: ItemId, epoch: EpochId)
    ensures G.MaybeSchedule(s, id, epoch).proposals.Keys == s.proposals.Keys
  {
    hide G.HasFullAckSet, G.Enqueue, G.Bucket;
  }

  lemma CloseAddsNothing(s: G.State, env: G.Env, id: ItemId, s': G.State, k: ItemId)
    requires G.CloseProposal(s, env, id) == Ok(s') && k in s'.proposals
    ensures k in s.proposals
  {
    hide G.InsertProposalLeaves, G.QuorumMet, G.Approved, G.SortedDomains;
    var p' := G.Approve(s.proposals[id], env.epoch);
    var s1 := s.(activations := s.activations[p'.proposalId := G.ActivationFor(p', [])]);
    ProposalLeavesOnly(s1, p', env.epoch, p'.targetDomains);
  }

  lemma BlockAddsNothing(c: Chain, a: Action, c': Chain, id: ItemId)
    requires Inv(c) && a.Block? && Outcome(c, a) == Some(c') && id in c'.governance.proposals
    ensures id in c.governance.proposals
  {
    hide E.OnInitialize, RootsAt, T.CommitExports, E.Inv, TP.Inv, GP.CoreInv, GP.LeavesInv, G.OnInitialize, E.Closes;
    hide GP.Evolves, TP.Evolves;
    PalletsNext(c, a.observation, E.Context(c.domain, a.parentHash, a.validatorSetHash), c');
    GS.HookEffect(c.governance, c.domain, c.Epoch(), c'.Epoch(), c.number + 1, id);
  }

  /** Proposals appear by creation at their source and by import elsewhere, in no other way. */
  lemma ProposalOnly(c: Chain, a: Action, c': Chain, id: ItemId)
    requires Inv(c) && Outcome(c, a) == Some(c') && id in c'.governance.proposals && id !in c.governance.proposals
    ensures a.Propose? || a.ImportProposal?
    ensures a.Propose? ==>
              && id == ItemId(c.domain, c.governance.nextSequence)
              && c'.governance.proposals[id].sourceDomain == c.domain
              && c'.governance.nextSequence == SatAdd(c.governance.nextSequence, 1, U64_MAX)
    ensures a.ImportProposal? ==>
              && G.Gate(c.governance, a.who).None? && id == a.proposal.proposalId && a.proposal.sourceDomain != c.domain
              && SameFacts(c'.governance.proposals[id], G.ImportedProposal(a.proposal))
  {
    hide NextBlock, TransfersCall, GP.CoreInv, GP.LeavesInv, TP.Inv, E.Inv, G.CloseProposal, G.ImportAck;
    hide G.RecordLocalAck, RootsAt, G.MaybeSchedule;
    match a
    case Block(_, _, _, _) => BlockAddsNothing(c, a, c', id);
    case Close(_, k) => CloseAddsNothing(c.governance, GovernanceEnv(c), k, c'.governance, id);
    case ImportAck(_, who, leaf) => AckAddsNothing(c.governance, GovernanceEnv(c), who, leaf, c'.governance, id);
    case ImportProposal(_, who, leaf) => ImportAdds(c.governance, GovernanceEnv(c), who, leaf, c'.governance);
    case _ =>
  }

  lemma AcksOnly(c: Chain, a: Action, c': Chain, id: ItemId, k: DomainId)
    requires Inv(c) && FreshIds(c, a) && Outcome(c, a) == Some(c') && GP.Knows(c'.governance, id, k)
    requires !GP.Knows(c.governance, id, k)
    ensures a.ImportProposal? || a.ImportAck?
    ensures a.ImportProposal? ==> id == a.proposal.proposalId && k == c.domain
    ensures a.ImportAck? ==>
              && G.Gate(c.governance, a.who).None? && id == a.ack.proposalId
              && k == a.ack.acknowledgingDomain && k != c.domain
  {
    hide NextBlock, TransfersCall, TP.Inv, E.Inv, GP.Evolves, RootsAt, GP.Inv;
    hide G.CloseProposal, G.CreateProposal, G.CastVote, G.ImportProposal, G.NoteAck;
    var g := c'.governance;
    match a
    case Block(_, _, _, _) => BlockAcks(c, a, c');
    case Propose(_, who, targets, newVersion) =>
      GS.CreateKeeps(c.governance, GovernanceEnv(c), who, targets, newVersion, c.transfers.free, g);
    case Vote(_, who, p, choice) => GS.CastVoteKeeps(c.governance, GovernanceEnv(c), who, p, choice, g);
    case Close(_, p) => GS.CloseKeeps(c.governance, GovernanceEnv(c), p, g);
    case ImportProposal(_, who, leaf) => GS.ImportProposalKeeps(c.governance, GovernanceEnv(c), who, leaf, g);
    case ImportAck(_, who, leaf) => GS.ImportAckKeeps(c.governance, GovernanceEnv(c), who, leaf, g);
    case _ =>
  }

  lemma BlockAcks(c: Chain, a: Action, c': Chain)
    requires Inv(c) && a.Block? && Outcome(c, a) == Some(c')
    ensures GP.AcksSame(c.governance, c'.governance)
  {
    hide E.OnInitialize, RootsAt, T.CommitExports, E.Inv, TP.Inv, GP.Inv, G.OnInitialize, E.Closes, GP.Evolves;
    hide TP.Evolves, GP.AcksSame;
    PalletsNext(c, a.observation, E.Context(c.domain, a.parentHash, a.validatorSetHash), c');
    GS.HookKeeps(c.governance, c.domain, c.Epoch(), c'.Epoch(), c.number + 1);
  }

  // ---------- preservation ----------

  lemma ImportedKept(g: G.State, g': G.State, d: DomainId, epoch: EpochId, id: ItemId)
    requires GP.Evolves(g, g', epoch) && Imported(g, d, id)
    ensures Imported(g', d, id)
  {
    assert GP.ProposalGrows(g.proposals[id], g'.proposals[id]);
  }

  lemma FactsKept(g: G.State, g': G.State, epoch: EpochId, id: ItemId)
    requires GP.Evolves(g, g', epoch) && id in g.proposals && GP.Live(g.proposals[id].status)
    ensures id in g'.proposals && GP.Live(g'.proposals[id].status) && SameFacts(g.proposals[id], g'.proposals[id])
  {
    assert GP.ProposalGrows(g.proposals[id], g'.proposals[id]);
  }

  ghost predicate Moved(w: World, a: Action, c': Chain, w': World) {
    && ChainsOk(w) && AgreementInv(w) && Admissible(w, a) && Outcome(w.At(a.domain), a) == Some(c')
    && w' == w.With(a.domain, c').(log := w'.log)
    && GP.Evolves(Council(w, a.domain), c'.governance, w.At(a.domain).Epoch())
  }

  lemma ImportedIsLive(w: World, d: DomainId, id: ItemId)
    requires ChainsOk(w) && Imported(Council(w, d), d, id)
    ensures GP.Live(Council(w, d).proposals[id].status)
  {
    hide E.Inv, TP.Inv, RootsAt, GP.LeavesInv;
    assert GP.RecordOk(Council(w, d), d, id);
  }

  lemma NewCopyAgrees(w: World, a: Action, c': Chain, w': World, id: ItemId)
    requires Moved(w, a, c', w') && id !in Council(w, a.domain).proposals && Imported(c'.governance, a.domain, id)
    ensures CopyAgrees(w', a.domain, id)
  {
    hide Inv, Outcome, World.At, World.With, AgreementInv, GP.Evolves, Verified;
    WithAt(w, a.domain, c', w'.log);
    ProposalOnly(w.At(a.domain), a, c', id);
    var package, proof :| BacksGovernance(w, a.domain, package, proof) && proof.leaf.ProposalLeaf?
      && proof.leaf.proposal == a.proposal;
    GovernanceLeafBacked(w, a.domain, package, proof);
  }

  lemma CopyStep(w: World, a: Action, c': Chain, w': World, d: DomainId, id: ItemId)
    requires Moved(w, a, c', w')
    ensures CopyAgrees(w', d, id)
  {
    hide Inv, Outcome, World.At, World.With, GP.Evolves, Verified, Admissible, GP.SequenceOk;
    WithAt(w, a.domain, c', w'.log);
    var epoch := w.At(a.domain).Epoch();
    if Imported(Council(w', d), d, id) {
      if id !in Council(w, d).proposals {
        NewCopyAgrees(w, a, c', w', id);
      } else {
        OldCopyAgrees(w, a, c', w', d, id);
      }
    }
  }

  lemma OldCopyAgrees(w: World, a: Action, c': Chain, w': World, d: DomainId, id: ItemId)
    requires Moved(w, a, c', w') && id in Council(w, d).proposals && Imported(Council(w', d), d, id)
    ensures CopyAgrees(w', d, id)
  {
    hide Inv, Outcome, World.At, World.With, GP.Evolves, Verified, Admissible, GP.SequenceOk;
    WithAt(w, a.domain, c', w'.log);
    var epoch := w.At(a.domain).Epoch();
    SourceKept(w, a, c', w', d, id);
    assert CopyAgrees(w, d, id);
    ImportedIsLive(w, d, id);
    if d == a.domain {
      FactsKept(Council(w, d), c'.governance, epoch, id);
    }
    if Council(w, d).proposals[id].sourceDomain == a.domain {
      FactsKept(Council(w, a.domain), c'.governance, epoch, id);
    }
  }

  lemma SourceKept(w: World, a: Action, c': Chain, w': World, d: DomainId, id: ItemId)
    requires Moved(w, a, c', w') && id in Council(w, d).proposals && id in Council(w', d).proposals
    ensures Council(w', d).proposals[id].sourceDomain == Council(w, d).proposals[id].sourceDomain
  {
    hide Inv, Outcome, World.At, World.With, AgreementInv, Verified, Admissible;
    WithAt(w, a.domain, c', w'.log);
    if d == a.domain {
      assert GP.ProposalGrows(Council(w, d).proposals[id], c'.governance.proposals[id]);
    }
  }

  lemma NewAckReal(w: World, a: Action, c': Chain, w': World, id: ItemId, k: DomainId)
    requires Moved(w, a, c', w') && GP.Knows(c'.governance, id, k) && !GP.Knows(Council(w, a.domain), id, k)
    ensures Imported(Council(w', k), k, id)
  {
    hide Inv, World.At, World.With, AgreementInv, GP.Evolves, Verified, GP.Knows, G.MaybeSchedule, Outcome;
    var c := w.At(a.domain);
    WithAt(w, a.domain, c', w'.log);
    AcksOnly(c, a, c', id, k);
    if a.ImportProposal? {
      ImportStores(c, a, c');
    } else {
      var package, proof :| BacksGovernance(w, a.domain, package, proof) && proof.leaf.AckLeaf?
        && proof.leaf.ack == a.ack;
      GovernanceLeafBacked(w, a.domain, package, proof);
    }
  }

  lemma ImportStores(c: Chain, a: Action, c': Chain)
    requires Inv(c) && a.ImportProposal? && Outcome(c, a) == Some(c')
    ensures Imported(c'.governance, c.domain, a.proposal.proposalId)
  {
    hide TransfersCall, NextBlock, GP.CoreInv, GP.LeavesInv, TP.Inv, E.Inv, G.RecordLocalAck, G.MaybeSchedule, RootsAt;
    ImportAdds(c.governance, GovernanceEnv(c), a.who, a.proposal, c'.governance);
  }

  lemma AckStep(w: World, a: Action, c': Chain, w': World, d: DomainId, id: ItemId, k: DomainId)
    requires Moved(w, a, c', w')
    ensures AckReal(w', d, id, k)
  {
    hide Inv, Outcome, World.At, World.With, GP.Evolves, Verified, Admissible, GP.Knows, Imported, GP.SequenceOk;
    WithAt(w, a.domain, c', w'.log);
    if GP.Knows(Council(w', d), id, k) {
      if d == a.domain && !GP.Knows(Council(w, d), id, k) {
        NewAckReal(w, a, c', w', id, k);
      } else {
        assert AckReal(w, d, id, k);
        if k == a.domain {
          ImportedKept(Council(w, k), c'.governance, k, w.At(a.domain).Epoch(), id);
        }
      }
    }
  }

  lemma SequenceStep(w: World, a: Action, c': Chain, w': World, d: DomainId)
    requires Moved(w, a, c', w')
    ensures GP.SequenceOk(Council(w', d), d)
  {
    hide Inv, Outcome, World.At, World.With, GP.Evolves, Verified, Admissible, GP.SequenceOk;
    var c := w.At(a.domain);
    WithAt(w, a.domain, c', w'.log);
    assert GP.SequenceOk(Council(w, d), d);
    if d == a.domain {
      forall id | id in c'.governance.proposals && id !in c.governance.proposals
        && c'.governance.proposals[id].sourceDomain == d
        ensures id.sequence < c'.governance.nextSequence || c'.governance.nextSequence == U64_MAX
      {
        ProposalOnly(c, a, c', id);
      }
      GP.SequenceKept(c.governance, c'.governance, d, c.Epoch());
    }
  }

  lemma AgreementStep(w: World, a: Action, c': Chain, w': World)
    requires Moved(w, a, c', w')
    ensures AgreementInv(w')
  {
    hide Moved, CopyAgrees, AckReal, GP.SequenceOk;
    forall d: DomainId, id ensures CopyAgrees(w', d, id) {
      CopyStep(w, a, c', w', d, id);
    }
    forall d: DomainId, id, k: DomainId ensures AckReal(w', d, id, k) {
      AckStep(w, a, c', w', d, id, k);
    }
    forall d: DomainId ensures GP.SequenceOk(Council(w', d), d) {
      SequenceStep(w, a, c', w', d);
    }
  }

  /** Every copy of a proposal names the source that its id names. */
  lemma HomeDomain(w: World, d: DomainId, id: ItemId)
    requires ChainsOk(w) && AgreementInv(w) && id in Council(w, d).proposals
    ensures Council(w, d).proposals[id].sourceDomain == id.domain
  {
    hide E.Inv, TP.Inv, RootsAt, GP.LeavesInv, GP.QueuesInv;
    assert CopyAgrees(w, d, id);
    var s := Council(w, d).proposals[id].sourceDomain;
    assert w.At(d).domain == d && w.At(s).domain == s;
    assert GP.RecordOk(Council(w, s), s, id);
  }

  /** Whoever acknowledges a proposal acknowledges an approved one: the acknowledgement finds an
      activation record to count in. */
  lemma AckIsOfApproved(w: World, a: Action, c': Chain)
    requires ChainsOk(w) && AgreementInv(w) && Admissible(w, a) && a.ImportAck?
    requires Outcome(w.At(a.domain), a) == Some(c')
    ensures a.ack.proposalId in Council(w, a.domain).activations
  {
    hide Inv, Verified, AgreementInv, G.NoteAck, NextBlock, TransfersCall;
    var package, proof :|
      BacksGovernance(w, a.domain, package, proof) && proof.leaf.AckLeaf? && proof.leaf.ack == a.ack;
    GovernanceLeafBacked(w, a.domain, package, proof);
    ApprovedEverywhere(w, a.domain, package.input.header.input.domain, a.ack.proposalId);
  }

  /** A proposal imported anywhere is approved wherever it is held. */
  lemma ApprovedEverywhere(w: World, d: DomainId, k: DomainId, id: ItemId)
    requires ChainsOk(w) && AgreementInv(w) && Imported(Council(w, k), k, id) && id in Council(w, d).proposals
    ensures GP.Live(Council(w, d).proposals[id].status) && id in Council(w, d).activations
  {
    hide E.Inv, TP.Inv, RootsAt, GP.LeavesInv, GP.QueuesInv;
    HomeDomain(w, d, id);
    HomeDomain(w, k, id);
    assert CopyAgrees(w, k, id);
    assert w.At(d).domain == d && GP.RecordOk(Council(w, d), d, id);
  }
}
