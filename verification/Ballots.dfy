/** Voting inside a chain's life: every action keeps the tallies equal to the ballots cast. */
module Ballots {
  import opened Types
  import opened Chain
  import opened Network
  import opened Voting
  import E = Epochs
  import T = Transfers
  import TP = TransfersProofs
  import G = Governance
  import GP = GovernanceProofs
  import GS = GovernanceSteps

  lemma {:induction false} ProposalLeavesOnly(s: G.State, p: G.Proposal, epoch: EpochId, targets: seq<DomainId>)
    ensures GP.SameButLeaves(s, G.InsertProposalLeaves(s, p, epoch, targets))
    decreases |targets|
  {
    if targets != [] {
      ProposalLeavesOnly(s, p, epoch, targets[..|targets| - 1]);
    }
  }

  lemma {:induction false} AckLeavesOnly(s: G.State, p: G.Proposal, local: DomainId, epoch: EpochId,
                                         targets: seq<DomainId>)
    ensures GP.SameButLeaves(s, G.InsertAckLeaves(s, p, local, epoch, targets))
    decreases |targets|
  {
    if targets != [] {
      AckLeavesOnly(s, p, local, epoch, targets[..|targets| - 1]);
    }
  }

  lemma StatusNoVoting(s: G.State, s': G.State, id: ItemId, p': G.Proposal)
    requires id in s.proposals && SameTally(s.proposals[id], p') && s'.proposals == s.proposals[id := p']
    requires s'.votes == s.votes && s'.powers == s.powers && s'.voters == s.voters
    ensures NoVoting(s, s')
  {
  }

  lemma ApprovalNoVoting(s: G.State, epoch: EpochId, id: ItemId)
    requires id in s.proposals
    ensures NoVoting(s, GS.Approval(s, epoch, id))
  {
    hide G.InsertProposalLeaves, G.ActivationFor, NoVoting;
    var p' := G.Approve(s.proposals[id], epoch);
    var s1 := s.(activations := s.activations[p'.proposalId := G.ActivationFor(p', [])]);
    ProposalLeavesOnly(s1, p', epoch, p'.targetDomains);
    StatusNoVoting(s, GS.Approval(s, epoch, id), id, p');
  }

  lemma CloseNoVoting(s: G.State, env: G.Env, id: ItemId, s': G.State)
    requires G.CloseProposal(s, env, id) == Ok(s')
    ensures NoVoting(s, s')
  {
    hide G.InsertProposalLeaves, G.QuorumMet, G.Approved, G.ActivationFor, NoVoting, G.Approve;
    if G.QuorumMet(s.proposals[id]) && G.Approved(s.proposals[id]) {
      ApprovalNoVoting(s, env.epoch, id);
    } else {
      StatusNoVoting(s, s', id, s.proposals[id].(status := G.Rejected));
    }
  }

  lemma ScheduleNoVoting(s: G.State, s1: G.State, id: ItemId, epoch: EpochId)
    requires NoVoting(s, s1)
    ensures NoVoting(s, G.MaybeSchedule(s1, id, epoch))
  {
    hide G.HasFullAckSet, G.Enqueue, G.Bucket;
  }

  lemma ImportProposalNoVoting(s: G.State, env: G.Env, who: Account, leaf: ProposalLeafInput, s': G.State)
    requires G.ImportProposal(s, env, who, leaf) == Ok(s')
    ensures NoVoting(s, s')
  {
    hide G.MaybeSchedule, G.InsertAckLeaves, G.SortedDomains, G.FanoutTargets;
    var p := G.ImportedProposal(leaf);
    var s1 := s.(proposals := s.proposals[leaf.proposalId := p],
                 activations := s.activations[p.proposalId := G.ActivationFor(p, [env.domain])]);
    var s2 := s1.(acks := s1.acks[(p.proposalId, env.domain) :=
      G.AckRecord(p.sourceDomain, p.targetDomains, p.activationEpoch, p.payloadHash, p.newVersion, env.epoch,
                  env.height)]);
    AckLeavesOnly(s2, p, env.domain, env.epoch, G.FanoutTargets(p, env.domain));
    ScheduleNoVoting(s, G.RecordLocalAck(s1, p, env), leaf.proposalId, env.epoch);
  }

  lemma NoteAckNoVoting(s: G.State, s1: G.State, id: ItemId, acking: DomainId, epoch: EpochId)
    requires NoVoting(s, s1)
    ensures NoVoting(s, G.NoteAck(s1, id, acking, epoch))
  {
    hide G.MaybeSchedule, G.SortedDomains;
    if id in s1.activations && acking !in s1.activations[id].knownAcks {
      var acks := G.SortedDomains(s1.activations[id].knownAcks + [acking]);
      ScheduleNoVoting(s, s1.(activations := s1.activations[id := s1.activations[id].(knownAcks := acks)]), id, epoch);
    } else {
      ScheduleNoVoting(s, s1, id, epoch);
    }
  }

  lemma ImportAckNoVoting(s: G.State, env: G.Env, who: Account, leaf: AckLeafInput, s': G.State)
    requires G.ImportAck(s, env, who, leaf) == Ok(s')
    ensures NoVoting(s, s')
  {
    hide G.NoteAck;
    var s1 := s.(acks := s.acks[(leaf.proposalId, leaf.acknowledgingDomain) :=
      G.AckRecord(leaf.sourceDomain, leaf.targetDomains, leaf.activationEpoch, leaf.payloadHash, leaf.newVersion,
                  leaf.acknowledgedEpoch, env.height)]);
    NoteAckNoVoting(s, s1, leaf.proposalId, leaf.acknowledgingDomain, env.epoch);
  }

  lemma HookNoVoting(s: G.State, domain: DomainId, epoch: EpochId, epoch': EpochId, height: nat)
    requires GP.CoreInv(s, domain, epoch) && epoch <= epoch' <= epoch + 1 && height > 0
    ensures NoVoting(s, G.OnInitialize(s, epoch', height))
  {
    hide G.OnInitialize, GP.CoreInv;
    GS.HookFrame(s, domain, epoch, epoch', height);
    var s' := G.OnInitialize(s, epoch', height);
    forall id ensures (id in s'.proposals <==> id in s.proposals)
                      && (id in s.proposals ==> SameTally(s.proposals[id], s'.proposals[id])) {
      GS.HookEffect(s, domain, epoch, epoch', height, id);
    }
  }

  lemma BlockNoVoting(c: Chain, a: Action, c': Chain)
    requires Inv(c) && a.Block? && Outcome(c, a) == Some(c')
    ensures NoVoting(c.governance, c'.governance)
  {
    hide E.OnInitialize, RootsAt, T.CommitExports, E.Inv, TP.Inv, GP.CoreInv, GP.LeavesInv, G.OnInitialize, E.Closes;
    hide GP.Evolves, TP.Evolves, NoVoting;
    PalletsNext(c, a.observation, E.Context(c.domain, a.parentHash, a.validatorSetHash), c');
    HookNoVoting(c.governance, c.domain, c.Epoch(), c'.Epoch(), c.number + 1);
  }

  lemma VotesStep(c: Chain, a: Action, c': Chain)
    requires Inv(c) && FreshIds(c, a) && Outcome(c, a) == Some(c') && VotesInv(c.governance)
    ensures VotesInv(c'.governance)
  {
    hide Inv, NextBlock, TransfersCall, VotesInv, NoVoting;
    hide G.CreateProposal, G.CastVote, G.CloseProposal, G.ImportProposal, G.ImportAck;
    var g, g' := c.governance, c'.governance;
    match a
    case Propose(_, who, targets, newVersion) =>
        CreateVotes(g, GovernanceEnv(c), who, targets, newVersion, c.transfers.free, g');
    case Vote(_, who, id, choice) => CastVoteVotes(g, GovernanceEnv(c), who, id, choice, g');
    case Block(_, _, _, _) =>
      BlockNoVoting(c, a, c');
      NoVotingKeeps(g, g');
    case Close(_, id) =>
      CloseNoVoting(g, GovernanceEnv(c), id, g');
      NoVotingKeeps(g, g');
    case ImportProposal(_, who, leaf) =>
      ImportProposalNoVoting(g, GovernanceEnv(c), who, leaf, g');
      NoVotingKeeps(g, g');
    case ImportAck(_, who, leaf) =>
      ImportAckNoVoting(g, GovernanceEnv(c), who, leaf, g');
      NoVotingKeeps(g, g');
    case _ =>
  }
}
