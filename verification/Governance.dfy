/** The governance pallet (chain/pallets/governance): token-weighted voting, outbound proposal
    leaves, acknowledgement fan-out and scheduled activation.  This file holds the calls and
    hooks; GovernanceProofs.dfy and Voting.dfy what they keep. */
module Governance {
  import opened Types
  import opened Sorting
  import opened Commitments

  datatype ProposalStatus = Voting | Rejected | LocallyFinalized | Scheduled | Activated
  datatype Choice = Yes | No | Abstain

  datatype Proposal = Proposal(
    proposalId: ItemId, sourceDomain: DomainId, targetDomains: seq<DomainId>, proposer: Account,
    newVersion: nat, payloadHash: Digest, createdEpoch: EpochId, votingStart: EpochId, votingEnd: EpochId,
    approvalEpoch: Option<EpochId>, activationEpoch: EpochId, snapshot: nat,
    yes: nat, no: nat, abstain: nat, status: ProposalStatus)

  datatype Vote = Vote(choice: Choice, power: nat, castEpoch: EpochId, castHeight: nat)

  datatype Activation = Activation(
    sourceDomain: DomainId, targetDomains: seq<DomainId>, payloadHash: Digest, newVersion: nat,
    activationEpoch: EpochId, knownAcks: seq<DomainId>, scheduledAt: Option<EpochId>,
    activatedAtEpoch: Option<EpochId>, activatedAtHeight: Option<nat>, status: ProposalStatus)

  datatype AckRecord = AckRecord(
    sourceDomain: DomainId, targetDomains: seq<DomainId>, activationEpoch: EpochId, payloadHash: Digest,
    newVersion: nat, acknowledgedEpoch: EpochId, acknowledgedAtHeight: nat)

  datatype Error =
    | NoTargetDomains | DuplicateTargetDomains | SameDomainTarget | InvalidProtocolVersion | ProposalMissing
    | ProposalNotVoting | VotingClosed | VotingStillOpen | DuplicateVote | NotEligibleVoter | ZeroVotingPower
    | MissingImporterAccount | UnauthorizedImporter | WrongTargetDomain | WrongSourceDomain
    | DuplicateImportedProposal | DuplicateImportedAck | ProposalNotKnown | ProposalFactsMismatch
    | AckingDomainNotTargeted

  datatype State = State(
    protocolVersion: nat, importer: Option<Account>, voters: seq<Account>, nextSequence: nat,
    proposals: map<ItemId, Proposal>, votes: map<(ItemId, Account), Vote>, powers: map<(ItemId, Account), nat>,
    activations: map<ItemId, Activation>, acks: map<(ItemId, DomainId), AckRecord>,
    epochLeafIds: map<EpochId, seq<Digest>>, leaves: map<Digest, GovernanceLeaf>,
    scheduled: map<EpochId, seq<ItemId>>, ready: seq<ItemId>)

  datatype Env = Env(domain: DomainId, epoch: EpochId, height: nat)

  function LeafIds(s: State, epoch: EpochId): seq<Digest> { Lookup(s.epochLeafIds, epoch, []) }
  function Bucket(s: State, epoch: EpochId): seq<ItemId> { Lookup(s.scheduled, epoch, []) }

  predicate DomainLeq(a: DomainId, b: DomainId) { DomainRank(a) <= DomainRank(b) }

  /** `dedup`: consecutive repetitions are dropped. */
  function Dedup<T(==)>(s: seq<T>): seq<T> {
    if |s| <= 1 then s
    else if s[0] == s[1] then Dedup(s[1..])
    else [s[0]] + Dedup(s[1..])
  }

  function SortedDomains(domains: seq<DomainId>): seq<DomainId> { Dedup(Sort(domains, DomainLeq)) }

  function Without(domains: seq<DomainId>, d: DomainId): seq<DomainId> {
    if domains == [] then []
    else (if domains[0] == d then [] else [domains[0]]) + Without(domains[1..], d)
  }

  function CanonicalTargets(targets: seq<DomainId>, source: DomainId): Result<seq<DomainId>, Error> {
    if targets == [] then Err(NoTargetDomains)
    else if source in targets then Err(SameDomainTarget)
    else
      var sorted := Sort(targets, DomainLeq);
      if |Dedup(sorted)| != |sorted| then Err(DuplicateTargetDomains) else Ok(Dedup(sorted))
  }

  function Genesis(version: nat, importer: Option<Account>, voters: seq<Account>): State {
    State(if version == 0 then 1 else version, importer, Dedup(Sort(voters, (a: Account, b: Account) => a <= b)), 0,
          map[], map[], map[], map[], map[], map[], map[], map[], [])
  }

  // ---------- proposals and votes ----------

  function AssignPowers(powers: map<(ItemId, Account), nat>, id: ItemId, voters: seq<Account>,
                        balances: map<Account, nat>)
    : map<(ItemId, Account), nat>
  {
    if voters == [] then powers
    else
      var n := |voters| - 1;
      AssignPowers(powers, id, voters[..n], balances)[(id, voters[n]) := Lookup(balances, voters[n], 0)]
  }

  function SnapshotPower(voters: seq<Account>, balances: map<Account, nat>): nat {
    if voters == [] then 0
    else
      var n := |voters| - 1;
      SatAdd(SnapshotPower(voters[..n], balances), Lookup(balances, voters[n], 0), U128_MAX)
  }

  function NewProposal(s: State, env: Env, who: Account, targets: seq<DomainId>, newVersion: nat,
                       snapshot: nat): Proposal {
    Proposal(ItemId(env.domain, s.nextSequence), env.domain, targets, who, newVersion, PayloadDigest(newVersion),
             env.epoch, env.epoch, env.epoch + 1, None, 0, snapshot, 0, 0, 0, Voting)
  }

  function CreateWithTargets(s: State, env: Env, who: Account, targets: seq<DomainId>, newVersion: nat,
                             balances: map<Account, nat>)
    : Result<State, Error>
  {
    if newVersion == 0 || newVersion == s.protocolVersion then Err(InvalidProtocolVersion)
    else
      var id := ItemId(env.domain, s.nextSequence);
      var proposal := NewProposal(s, env, who, targets, newVersion, SnapshotPower(s.voters, balances));
      Ok(s.(nextSequence := SatAdd(s.nextSequence, 1, U64_MAX),
            powers := AssignPowers(s.powers, id, s.voters, balances),
            proposals := s.proposals[id := proposal]))
  }

  function CreateProposal(s: State, env: Env, who: Account, targets: seq<DomainId>, newVersion: nat,
                          balances: map<Account, nat>)
    : Result<State, Error>
  {
    match CanonicalTargets(targets, env.domain)
    case Err(e) => Err(e)
    case Ok(sorted) => CreateWithTargets(s, env, who, sorted, newVersion, balances)
  }

  function Tally(p: Proposal, choice: Choice, power: nat): Proposal {
    match choice
    case Yes => p.(yes := SatAdd(p.yes, power, U128_MAX))
    case No => p.(no := SatAdd(p.no, power, U128_MAX))
    case Abstain => p.(abstain := SatAdd(p.abstain, power, U128_MAX))
  }

  function CastVote(s: State, env: Env, who: Account, id: ItemId, choice: Choice): Result<State, Error> {
    if id !in s.proposals then Err(ProposalMissing)
    else
      var p := s.proposals[id];
      if p.status != Voting then Err(ProposalNotVoting)
      else if env.epoch >= p.votingEnd then Err(VotingClosed)
      else if (id, who) in s.votes then Err(DuplicateVote)
      else if (id, who) !in s.powers then Err(NotEligibleVoter)
      else if s.powers[(id, who)] == 0 then Err(ZeroVotingPower)
      else
        var power := s.powers[(id, who)];
        Ok(s.(votes := s.votes[(id, who) := Vote(choice, power, env.epoch, env.height)],
              proposals := s.proposals[id := Tally(p, choice, power)]))
  }

  function Recorded(p: Proposal): nat {
    SatAdd(SatAdd(p.yes, p.no, U128_MAX), p.abstain, U128_MAX)
  }

  /** The two tests of `close_proposal`, in saturating 128-bit arithmetic. */
  predicate QuorumMet(p: Proposal) { SatMul(Recorded(p), 2, U128_MAX) >= SatMul(p.snapshot, 1, U128_MAX) }
  predicate Approved(p: Proposal) { SatMul(p.yes, 2, U128_MAX) > Recorded(p) }

  function ActivationFor(p: Proposal, knownAcks: seq<DomainId>): Activation {
    Activation(p.sourceDomain, p.targetDomains, p.payloadHash, p.newVersion, p.activationEpoch,
               SortedDomains(knownAcks), None, None, None, p.status)
  }

  function InsertLeaf(s: State, epoch: EpochId, leaf: GovernanceLeaf): State {
    var ids := LeafIds(s, epoch);
    s.(leaves := s.leaves[leaf.leafHash := leaf],
       epochLeafIds := s.epochLeafIds[epoch := if leaf.leafHash in ids then ids else ids + [leaf.leafHash]])
  }

  function ProposalLeafFor(p: Proposal, approvalEpoch: EpochId, target: DomainId): GovernanceLeaf {
    var input := ProposalLeafInput(LEAF_VERSION, p.proposalId, p.sourceDomain, target, p.targetDomains, p.proposer,
                                   p.payloadHash, p.newVersion, p.createdEpoch, p.votingStart, p.votingEnd,
                                   approvalEpoch, p.activationEpoch);
    ProposalLeaf(input, ProposalDigest(input))
  }

  function AckLeafFor(p: Proposal, local: DomainId, epoch: EpochId, target: DomainId): GovernanceLeaf {
    var input := AckLeafInput(LEAF_VERSION, p.proposalId, p.sourceDomain, target, local, p.targetDomains,
                              p.payloadHash, p.newVersion, p.activationEpoch, epoch);
    AckLeaf(input, AckDigest(input))
  }

  /** One leaf per target, in order. */
  function InsertProposalLeaves(s: State, p: Proposal, epoch: EpochId, targets: seq<DomainId>): State {
    if targets == [] then s
    else
      var n := |targets| - 1;
      InsertLeaf(InsertProposalLeaves(s, p, epoch, targets[..n]), epoch, ProposalLeafFor(p, epoch, targets[n]))
  }

  function InsertAckLeaves(s: State, p: Proposal, local: DomainId, epoch: EpochId, targets: seq<DomainId>): State {
    if targets == [] then s
    else
      var n := |targets| - 1;
      InsertLeaf(InsertAckLeaves(s, p, local, epoch, targets[..n]), epoch, AckLeafFor(p, local, epoch, targets[n]))
  }

  function Approve(p: Proposal, epoch: EpochId): Proposal {
    p.(approvalEpoch := Some(epoch), activationEpoch := epoch + 4, status := LocallyFinalized)
  }

  function CloseProposal(s: State, env: Env, id: ItemId): Result<State, Error> {
    if id !in s.proposals then Err(ProposalMissing)
    else
      var p := s.proposals[id];
      if p.status != Voting then Err(ProposalNotVoting)
      else if env.epoch < p.votingEnd then Err(VotingStillOpen)
      else if !QuorumMet(p) || !Approved(p) then Ok(s.(proposals := s.proposals[id := p.(status := Rejected)]))
      else
        var p' := Approve(p, env.epoch);
        var s1 := s.(activations := s.activations[p'.proposalId := ActivationFor(p', [])]);
        var s2 := InsertProposalLeaves(s1, p', env.epoch, p'.targetDomains);
        Ok(s2.(proposals := s2.proposals[id := p']))
  }

  // ---------- transport ----------

  function Gate(s: State, who: Account): Option<Error> {
    if s.importer.None? then Some(MissingImporterAccount)
    else if who != s.importer.value then Some(UnauthorizedImporter)
    else None
  }

  predicate HasFullAckSet(a: Activation) { forall d :: d in a.targetDomains ==> d in a.knownAcks }

  function Enqueue(ids: seq<ItemId>, id: ItemId): seq<ItemId> { if id in ids then ids else ids + [id] }

  function Schedule(s: State, id: ItemId, epoch: EpochId): State
    requires id in s.proposals && id in s.activations
  {
    var a := s.activations[id];
    var late := epoch >= a.activationEpoch;
    s.(proposals := s.proposals[id := s.proposals[id].(status := Scheduled)],
       activations := s.activations[id := a.(status := Scheduled, scheduledAt := Some(epoch))],
       ready := if late then Enqueue(s.ready, id) else s.ready,
       scheduled := if late then s.scheduled
                    else s.scheduled[a.activationEpoch := Enqueue(Bucket(s, a.activationEpoch), id)])
  }

  function MaybeSchedule(s: State, id: ItemId, epoch: EpochId): State {
    if id in s.proposals && id in s.activations && s.proposals[id].status == LocallyFinalized
      && HasFullAckSet(s.activations[id])
    then Schedule(s, id, epoch) else s
  }

  function NoteAck(s: State, id: ItemId, domain: DomainId, epoch: EpochId): State {
    var s1 :=
      if id in s.activations && domain !in s.activations[id].knownAcks then
        s.(activations := s.activations[id := s.activations[id].(
             knownAcks := SortedDomains(s.activations[id].knownAcks + [domain]))])
      else s;
    MaybeSchedule(s1, id, epoch)
  }

  function FanoutTargets(p: Proposal, local: DomainId): seq<DomainId> {
    Without(SortedDomains(p.targetDomains + [p.sourceDomain]), local)
  }

  function RecordLocalAck(s: State, p: Proposal, env: Env): State {
    var s1 := s.(acks := s.acks[(p.proposalId, env.domain) :=
      AckRecord(p.sourceDomain, p.targetDomains, p.activationEpoch, p.payloadHash, p.newVersion, env.epoch,
                env.height)]);
    InsertAckLeaves(s1, p, env.domain, env.epoch, FanoutTargets(p, env.domain))
  }

  function ImportedProposal(leaf: ProposalLeafInput): Proposal {
    Proposal(leaf.proposalId, leaf.sourceDomain, leaf.targetDomains, leaf.proposer, leaf.newVersion, leaf.payloadHash,
             leaf.createdEpoch, leaf.votingStart, leaf.votingEnd, Some(leaf.approvalEpoch), leaf.activationEpoch,
             0, 0, 0, 0, LocallyFinalized)
  }

  function ImportProposal(s: State, env: Env, who: Account, leaf: ProposalLeafInput): Result<State, Error> {
    if Gate(s, who).Some? then Err(Gate(s, who).value)
    else if leaf.targetDomain != env.domain then Err(WrongTargetDomain)
    else if leaf.sourceDomain == env.domain then Err(WrongSourceDomain)
    else if leaf.proposalId in s.proposals then Err(DuplicateImportedProposal)
    else if env.domain !in leaf.targetDomains then Err(WrongTargetDomain)
    else if leaf.payloadHash != PayloadDigest(leaf.newVersion) then Err(ProposalFactsMismatch)
    else
      var p := ImportedProposal(leaf);
      var s1 := s.(proposals := s.proposals[leaf.proposalId := p],
                   activations := s.activations[p.proposalId := ActivationFor(p, [env.domain])]);
      Ok(MaybeSchedule(RecordLocalAck(s1, p, env), leaf.proposalId, env.epoch))
  }

  predicate FactsMatch(p: Proposal, leaf: AckLeafInput) {
    && p.sourceDomain == leaf.sourceDomain && p.targetDomains == leaf.targetDomains
    && p.payloadHash == leaf.payloadHash && p.newVersion == leaf.newVersion
    && p.activationEpoch == leaf.activationEpoch
  }

  function ImportAck(s: State, env: Env, who: Account, leaf: AckLeafInput): Result<State, Error> {
    if Gate(s, who).Some? then Err(Gate(s, who).value)
    else if leaf.targetDomain != env.domain then Err(WrongTargetDomain)
    else if leaf.acknowledgingDomain == env.domain then Err(WrongSourceDomain)
    else if leaf.acknowledgingDomain !in leaf.targetDomains then Err(AckingDomainNotTargeted)
    else if (leaf.proposalId, leaf.acknowledgingDomain) in s.acks then Err(DuplicateImportedAck)
    else if leaf.proposalId !in s.proposals then Err(ProposalNotKnown)
    else if !FactsMatch(s.proposals[leaf.proposalId], leaf) then Err(ProposalFactsMismatch)
    else
      var s1 := s.(acks := s.acks[(leaf.proposalId, leaf.acknowledgingDomain) :=
        AckRecord(leaf.sourceDomain, leaf.targetDomains, leaf.activationEpoch, leaf.payloadHash, leaf.newVersion,
                  leaf.acknowledgedEpoch, env.height)]);
      Ok(NoteAck(s1, leaf.proposalId, leaf.acknowledgingDomain, env.epoch))
  }

  // ---------- activation ----------

  /** Whether `try_activate_proposal` activates. */
  predicate CanActivate(s: State, id: ItemId, epoch: EpochId) {
    && id in s.proposals && id in s.activations && s.proposals[id].status == Scheduled
    && epoch >= s.activations[id].activationEpoch && HasFullAckSet(s.activations[id])
  }

  function TryActivate(s: State, id: ItemId, epoch: EpochId, height: nat): State {
    if !CanActivate(s, id, epoch) then s
    else
      var p, a := s.proposals[id], s.activations[id];
      s.(protocolVersion := p.newVersion,
         proposals := s.proposals[id := p.(status := Activated)],
         activations := s.activations[id := a.(status := Activated, activatedAtEpoch := Some(epoch),
                                               activatedAtHeight := Some(height))])
  }

  /** The boolean `try_activate_proposal` returns: nothing more to do for this id. */
  predicate Settled(s: State, id: ItemId, epoch: EpochId) {
    || id !in s.proposals || id !in s.activations
    || s.proposals[id].status == Activated || CanActivate(s, id, epoch)
  }

  function ActivateAll(s: State, ids: seq<ItemId>, epoch: EpochId, height: nat): State {
    if ids == [] then s
    else
      var n := |ids| - 1;
      TryActivate(ActivateAll(s, ids[..n], epoch, height), ids[n], epoch, height)
  }

  /** The ids the ready queue keeps. */
  function Remaining(s: State, ids: seq<ItemId>, epoch: EpochId, height: nat): seq<ItemId> {
    if ids == [] then []
    else
      var n := |ids| - 1;
      Remaining(s, ids[..n], epoch, height)
      + (if Settled(ActivateAll(s, ids[..n], epoch, height), ids[n], epoch) then [] else [ids[n]])
  }

  function OnInitialize(s: State, epoch: EpochId, height: nat): State {
    if height == 0 then s
    else
      var s1 := ActivateAll(s, Bucket(s, epoch), epoch, height);
      ActivateAll(s1, s1.ready, epoch, height).(ready := Remaining(s1, s1.ready, epoch, height))
  }

  // ---------- commitment ----------

  function LeavesById(leaves: map<Digest, GovernanceLeaf>, ids: seq<Digest>): seq<GovernanceLeaf> {
    if ids == [] then []
    else (if ids[0] in leaves then [leaves[ids[0]]] else []) + LeavesById(leaves, ids[1..])
  }

  function CanonicalLeaves(s: State, epoch: EpochId): seq<GovernanceLeaf> {
    Sort(LeavesById(s.leaves, LeafIds(s, epoch)), GovernanceLeq)
  }
}
