/** The governance pallet as it runs: storage fields, calls and hooks, each proved against its
    specification in Governance.dfy. */
module GovernancePallet {
  import opened Types
  import opened Sorting
  import opened Commitments
  import opened Governance

  class Pallet {
    var protocolVersion: nat
    var importer: Option<Account>
    var voters: seq<Account>
    var nextSequence: nat
    var proposals: map<ItemId, Proposal>
    var votes: map<(ItemId, Account), Vote>
    var powers: map<(ItemId, Account), nat>
    var activations: map<ItemId, Activation>
    var acks: map<(ItemId, DomainId), AckRecord>
    var epochLeafIds: map<EpochId, seq<Digest>>
    var leaves: map<Digest, GovernanceLeaf>
    var scheduled: map<EpochId, seq<ItemId>>
    var ready: seq<ItemId>

    function Storage(): State
      reads this
    {
      State(protocolVersion, importer, voters, nextSequence, proposals, votes, powers, activations, acks,
            epochLeafIds, leaves, scheduled, ready)
    }

    constructor (version: nat, importer: Option<Account>, voters: seq<Account>)
      ensures Storage() == Genesis(version, importer, voters)
    {
      protocolVersion := if version == 0 then 1 else version;
      this.importer := importer;
      this.voters := Dedup(Sort(voters, (a: Account, b: Account) => a <= b));
      nextSequence, proposals, votes, powers, activations, acks := 0, map[], map[], map[], map[], map[];
      epochLeafIds, leaves, scheduled, ready := map[], map[], map[], [];
    }

    /** The snapshot loop of `create_proposal`. */
    method SnapshotVoters(id: ItemId, balances: map<Account, nat>) returns (snapshot: nat)
      modifies this`powers
      ensures powers == AssignPowers(old(powers), id, voters, balances)
      ensures snapshot == SnapshotPower(voters, balances)
    {
      snapshot := 0;
      for i := 0 to |voters|
        invariant powers == AssignPowers(old(powers), id, voters[..i], balances)
        invariant snapshot == SnapshotPower(voters[..i], balances)
      {
        assert voters[..i + 1][..i] == voters[..i];
        var balance := Lookup(balances, voters[i], 0);
        powers := powers[(id, voters[i]) := balance];
        snapshot := SatAdd(snapshot, balance, U128_MAX);
      }
      assert voters[..|voters|] == voters;
    }

    method StoreProposal(env: Env, who: Account, targets: seq<DomainId>, newVersion: nat, balances: map<Account, nat>)
      returns (error: Option<Error>)
      modifies this
      ensures match CreateWithTargets(old(Storage()), env, who, targets, newVersion, balances)
              case Ok(s) => error == None && Storage() == s
              case Err(e) => error == Some(e) && Storage() == old(Storage())
    {
      if newVersion == 0 || newVersion == protocolVersion {
        return Some(InvalidProtocolVersion);
      }
      var sequence := nextSequence;
      nextSequence := SatAdd(sequence, 1, U64_MAX);
      var id := ItemId(env.domain, sequence);
      var snapshot := SnapshotVoters(id, balances);
      proposals := proposals[id := Proposal(id, env.domain, targets, who, newVersion, PayloadDigest(newVersion),
                                            env.epoch, env.epoch, env.epoch + 1, None, 0, snapshot, 0, 0, 0, Voting)];
      error := None;
    }

    method CreateProposalCall(env: Env, who: Account, targets: seq<DomainId>, newVersion: nat,
                              balances: map<Account, nat>)
      returns (error: Option<Error>)
      modifies this
      ensures match CreateProposal(old(Storage()), env, who, targets, newVersion, balances)
              case Ok(s) => error == None && Storage() == s
              case Err(e) => error == Some(e) && Storage() == old(Storage())
    {
      var canonical := CanonicalTargets(targets, env.domain);
      if canonical.Err? {
        return Some(canonical.error);
      }
      error := StoreProposal(env, who, canonical.value, newVersion, balances);
    }

    method CastVoteCall(env: Env, who: Account, id: ItemId, choice: Choice) returns (error: Option<Error>)
      modifies this`votes, this`proposals
      ensures match CastVote(old(Storage()), env, who, id, choice)
              case Ok(s) => error == None && Storage() == s
              case Err(e) => error == Some(e) && Storage() == old(Storage())
    {
      if id !in proposals {
        return Some(ProposalMissing);
      }
      var proposal := proposals[id];
      if proposal.status != Voting {
        return Some(ProposalNotVoting);
      }
      if !(env.epoch < proposal.votingEnd) {
        return Some(VotingClosed);
      }
      if (id, who) in votes {
        return Some(DuplicateVote);
      }
      if (id, who) !in powers {
        return Some(NotEligibleVoter);
      }
      var power := powers[(id, who)];
      if power == 0 {
        return Some(ZeroVotingPower);
      }
      votes := votes[(id, who) := Vote(choice, power, env.epoch, env.height)];
      match choice {
        case Yes => proposal := proposal.(yes := SatAdd(proposal.yes, power, U128_MAX));
        case No => proposal := proposal.(no := SatAdd(proposal.no, power, U128_MAX));
        case Abstain => proposal := proposal.(abstain := SatAdd(proposal.abstain, power, U128_MAX));
      }
      proposals := proposals[id := proposal];
      error := None;
    }

    method InsertEpochLeaf(epoch: EpochId, leaf: GovernanceLeaf)
      modifies this`leaves, this`epochLeafIds
      ensures Storage() == InsertLeaf(old(Storage()), epoch, leaf)
    {
      leaves := leaves[leaf.leafHash := leaf];
      var ids := Lookup(epochLeafIds, epoch, []);
      if leaf.leafHash !in ids {
        ids := ids + [leaf.leafHash];
      }
      epochLeafIds := epochLeafIds[epoch := ids];
    }

    method InsertOutboundProposalLeaves(p: Proposal, epoch: EpochId)
      modifies this`leaves, this`epochLeafIds
      ensures Storage() == InsertProposalLeaves(old(Storage()), p, epoch, p.targetDomains)
    {
      var targets := p.targetDomains;
      for i := 0 to |targets|
        invariant Storage() == InsertProposalLeaves(old(Storage()), p, epoch, targets[..i])
      {
        assert targets[..i + 1][..i] == targets[..i];
        InsertEpochLeaf(epoch, ProposalLeafFor(p, epoch, targets[i]));
      }
      assert targets[..|targets|] == targets;
    }

    method CloseProposalCall(env: Env, id: ItemId) returns (error: Option<Error>)
      modifies this
      ensures match CloseProposal(old(Storage()), env, id)
              case Ok(s) => error == None && Storage() == s
              case Err(e) => error == Some(e) && Storage() == old(Storage())
    {
      if id !in proposals {
        return Some(ProposalMissing);
      }
      var proposal := proposals[id];
      if proposal.status != Voting {
        return Some(ProposalNotVoting);
      }
      if !(env.epoch >= proposal.votingEnd) {
        return Some(VotingStillOpen);
      }
      var recorded := SatAdd(SatAdd(proposal.yes, proposal.no, U128_MAX), proposal.abstain, U128_MAX);
      var quorumMet := SatMul(recorded, 2, U128_MAX) >= SatMul(proposal.snapshot, 1, U128_MAX);
      var approved := SatMul(proposal.yes, 2, U128_MAX) > recorded;
      if !quorumMet || !approved {
        proposals := proposals[id := proposal.(status := Rejected)];
        return None;
      }
      proposal := proposal.(approvalEpoch := Some(env.epoch), activationEpoch := env.epoch + 4,
          status := LocallyFinalized);
      activations := activations[proposal.proposalId := ActivationFor(proposal, [])];
      InsertOutboundProposalLeaves(proposal, env.epoch);
      proposals := proposals[id := proposal];
      error := None;
    }

    method MaybeScheduleActivation(id: ItemId, epoch: EpochId)
      modifies this
      ensures Storage() == MaybeSchedule(old(Storage()), id, epoch)
    {
      if id !in proposals || id !in activations {
        return;
      }
      var proposal, activation := proposals[id], activations[id];
      if proposal.status != LocallyFinalized && proposal.status != Scheduled {
        return;
      }
      if !HasFullAckSet(activation) {
        return;
      }
      if proposal.status != Scheduled {
        proposals := proposals[id := proposal.(status := Scheduled)];
        activations := activations[id := activation.(status := Scheduled, scheduledAt := Some(epoch))];
        if epoch >= activation.activationEpoch {
          ready := Enqueue(ready, id);
        } else {
          var bucket := Lookup(scheduled, activation.activationEpoch, []);
          scheduled := scheduled[activation.activationEpoch := Enqueue(bucket, id)];
        }
      }
    }

    method RecordLocalAckAndFanout(p: Proposal, env: Env)
      modifies this`acks, this`leaves, this`epochLeafIds
      ensures Storage() == RecordLocalAck(old(Storage()), p, env)
    {
      acks := acks[(p.proposalId, env.domain) :=
        AckRecord(p.sourceDomain, p.targetDomains, p.activationEpoch, p.payloadHash, p.newVersion, env.epoch,
            env.height)];
      ghost var s1 := Storage();
      var targets := FanoutTargets(p, env.domain);
      for i := 0 to |targets|
        invariant Storage() == InsertAckLeaves(s1, p, env.domain, env.epoch, targets[..i])
      {
        assert targets[..i + 1][..i] == targets[..i];
        InsertEpochLeaf(env.epoch, AckLeafFor(p, env.domain, env.epoch, targets[i]));
      }
      assert targets[..|targets|] == targets;
    }

    method ImportVerifiedGovernanceProposal(env: Env, who: Account, leaf: ProposalLeafInput)
      returns (error: Option<Error>)
      modifies this
      ensures match ImportProposal(old(Storage()), env, who, leaf)
              case Ok(s) => error == None && Storage() == s
              case Err(e) => error == Some(e) && Storage() == old(Storage())
    {
      if importer.None? {
        return Some(MissingImporterAccount);
      }
      if who != importer.value {
        return Some(UnauthorizedImporter);
      }
      if leaf.targetDomain != env.domain {
        return Some(WrongTargetDomain);
      }
      if leaf.sourceDomain == env.domain {
        return Some(WrongSourceDomain);
      }
      if leaf.proposalId in proposals {
        return Some(DuplicateImportedProposal);
      }
      if env.domain !in leaf.targetDomains {
        return Some(WrongTargetDomain);
      }
      if PayloadDigest(leaf.newVersion) != leaf.payloadHash {
        return Some(ProposalFactsMismatch);
      }
      var proposal := ImportedProposal(leaf);
      proposals := proposals[leaf.proposalId := proposal];
      activations := activations[proposal.proposalId := ActivationFor(proposal, [env.domain])];
      RecordLocalAckAndFanout(proposal, env);
      MaybeScheduleActivation(leaf.proposalId, env.epoch);
      error := None;
    }

    method NoteKnownAckDomain(id: ItemId, domain: DomainId, epoch: EpochId)
      modifies this
      ensures Storage() == NoteAck(old(Storage()), id, domain, epoch)
    {
      if id in activations {
        var record := activations[id];
        if domain !in record.knownAcks {
          activations := activations[id := record.(knownAcks := SortedDomains(record.knownAcks + [domain]))];
        }
      }
      MaybeScheduleActivation(id, epoch);
    }

    method ImportVerifiedGovernanceAck(env: Env, who: Account, leaf: AckLeafInput) returns (error: Option<Error>)
      modifies this
      ensures match ImportAck(old(Storage()), env, who, leaf)
              case Ok(s) => error == None && Storage() == s
              case Err(e) => error == Some(e) && Storage() == old(Storage())
    {
      if importer.None? {
        return Some(MissingImporterAccount);
      }
      if who != importer.value {
        return Some(UnauthorizedImporter);
      }
      if leaf.targetDomain != env.domain {
        return Some(WrongTargetDomain);
      }
      if leaf.acknowledgingDomain == env.domain {
        return Some(WrongSourceDomain);
      }
      if leaf.acknowledgingDomain !in leaf.targetDomains {
        return Some(AckingDomainNotTargeted);
      }
      if (leaf.proposalId, leaf.acknowledgingDomain) in acks {
        return Some(DuplicateImportedAck);
      }
      if leaf.proposalId !in proposals {
        return Some(ProposalNotKnown);
      }
      if !FactsMatch(proposals[leaf.proposalId], leaf) {
        return Some(ProposalFactsMismatch);
      }
      acks := acks[(leaf.proposalId, leaf.acknowledgingDomain) :=
        AckRecord(leaf.sourceDomain, leaf.targetDomains, leaf.activationEpoch, leaf.payloadHash, leaf.newVersion,
                  leaf.acknowledgedEpoch, env.height)];
      NoteKnownAckDomain(leaf.proposalId, leaf.acknowledgingDomain, env.epoch);
      error := None;
    }

    method TryActivateProposal(id: ItemId, epoch: EpochId, height: nat) returns (settled: bool)
      modifies this`protocolVersion, this`proposals, this`activations
      ensures Storage() == TryActivate(old(Storage()), id, epoch, height)
      ensures settled <==> Settled(old(Storage()), id, epoch)
    {
      if id !in proposals || id !in activations {
        return true;
      }
      var proposal, activation := proposals[id], activations[id];
      if proposal.status != Scheduled {
        return proposal.status == Activated;
      }
      if epoch < activation.activationEpoch {
        return false;
      }
      if !HasFullAckSet(activation) {
        return false;
      }
      if protocolVersion != proposal.newVersion {
        protocolVersion := proposal.newVersion;
      }
      proposals := proposals[id := proposal.(status := Activated)];
      activations := activations[id := activation.(status := Activated, activatedAtEpoch := Some(epoch),
                                                   activatedAtHeight := Some(height))];
      settled := true;
    }

    method ActivateEpochBucket(epoch: EpochId, height: nat)
      modifies this`protocolVersion, this`proposals, this`activations
      ensures Storage() == ActivateAll(old(Storage()), Bucket(old(Storage()), epoch), epoch, height)
    {
      var ids := Lookup(scheduled, epoch, []);
      for i := 0 to |ids|
        invariant Storage() == ActivateAll(old(Storage()), ids[..i], epoch, height)
      {
        assert ids[..i + 1][..i] == ids[..i];
        var _ := TryActivateProposal(ids[i], epoch, height);
      }
      assert ids[..|ids|] == ids;
    }

    method ActivateReadyQueue(epoch: EpochId, height: nat)
      modifies this`protocolVersion, this`proposals, this`activations, this`ready
      ensures Storage() == ActivateAll(old(Storage()), old(ready), epoch, height).(
                             ready := Remaining(old(Storage()), old(ready), epoch, height))
    {
      var ids := ready;
      var remaining := [];
      for i := 0 to |ids|
        invariant Storage() == ActivateAll(old(Storage()), ids[..i], epoch, height)
        invariant remaining == Remaining(old(Storage()), ids[..i], epoch, height)
      {
        assert ids[..i + 1][..i] == ids[..i];
        var settled := TryActivateProposal(ids[i], epoch, height);
        if !settled {
          remaining := remaining + [ids[i]];
        }
      }
      assert ids[..|ids|] == ids;
      ready := remaining;
    }

    method OnInitializeBlock(epoch: EpochId, height: nat)
      modifies this
      ensures Storage() == OnInitialize(old(Storage()), epoch, height)
    {
      if height == 0 {
        return;
      }
      ActivateEpochBucket(epoch, height);
      ActivateReadyQueue(epoch, height);
    }

    method CommitEpochGovernance(domain: DomainId, epoch: EpochId, start: nat, end: nat) returns (root: Digest)
      ensures root == GovernanceRoot(domain, epoch, start, end, CanonicalLeaves(Storage(), epoch))
    {
      var ordered := CanonicalLeaves(Storage(), epoch);
      root := ComputeCommitRoot(GovernanceTree, EmptyRoot(GovernanceTree, domain, epoch, start, end), ordered,
                                GovernanceHash, GovernanceLeq);
    }
  }
}
