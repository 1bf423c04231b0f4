/** When a proposal becomes active: recorded epochs and heights, and that calls and hooks keep
    them. */
module GovernanceTiming {
  import opened Types
  import opened Governance
  import opened GovernanceProofs
  import opened GovernanceSteps
  import E = Epochs

  /** Block `height` belongs to `epoch`. */
  predicate InEpoch(height: nat, epoch: EpochId, length: nat) {
    E.Before(epoch, length) < height <= E.Before(epoch, length) + length
  }

  /** The block is in `epoch'`, and the first of it if the epoch has just moved on. */
  predicate Reaches(height: nat, epoch: EpochId, epoch': EpochId, length: nat) {
    InEpoch(height, epoch', length) && (epoch' == epoch + 1 ==> height == E.Before(epoch', length) + 1)
  }

  ghost predicate TimingOk(a: Activation, epoch: EpochId, length: nat) {
    match a.status
    case LocallyFinalized => a.scheduledAt.None? && a.activatedAtEpoch.None? && a.activatedAtHeight.None?
    case Scheduled =>
      && a.scheduledAt.Some? && a.activatedAtEpoch.None? && a.activatedAtHeight.None? && a.scheduledAt.value <= epoch
      && (a.activationEpoch <= epoch ==> a.scheduledAt.value == epoch)
    case Activated =>
      && a.scheduledAt.Some? && a.activatedAtEpoch.Some? && a.activatedAtHeight.Some?
      && InEpoch(a.activatedAtHeight.value, a.activatedAtEpoch.value, length)
      && if a.scheduledAt.value < a.activationEpoch then
           a.activatedAtEpoch.value == a.activationEpoch
             && a.activatedAtHeight.value == E.Before(a.activationEpoch, length) + 1
         else a.scheduledAt.value <= a.activatedAtEpoch.value <= a.scheduledAt.value + 1
    case _ => false
  }

  ghost predicate TimingInv(s: State, epoch: EpochId, length: nat) {
    forall id :: id in s.activations ==> TimingOk(s.activations[id], epoch, length)
  }

  lemma ScheduleTiming(length: nat, s: State, domain: DomainId, epoch: EpochId, id: ItemId)
    requires RecordsInv(s, domain) && TimingInv(s, epoch, length)
    ensures TimingInv(MaybeSchedule(s, id, epoch), epoch, length)
  {
    if id in s.proposals {
      assert RecordOk(s, domain, id);
    }
  }

  lemma NoteAckTiming(length: nat, s: State, domain: DomainId, epoch: EpochId, id: ItemId, acking: DomainId)
    requires CoreInv(s, domain, epoch) && TimingInv(s, epoch, length)
    ensures TimingInv(NoteAck(s, id, acking, epoch), epoch, length)
  {
    hide CoreInv, MaybeSchedule, SortedDomains;
    if id in s.activations && acking !in s.activations[id].knownAcks {
      var s1 := WithAck(s, id, acking);
      AddAckKeeps(s, domain, epoch, id, acking, s1);
      CoreRecords(s1, domain, epoch);
      ScheduleTiming(length, s1, domain, epoch, id);
    } else {
      CoreRecords(s, domain, epoch);
      ScheduleTiming(length, s, domain, epoch, id);
    }
  }

  lemma ApprovalTiming(length: nat, s: State, domain: DomainId, epoch: EpochId, id: ItemId)
    requires Inv(s, domain, epoch) && TimingInv(s, epoch, length) && id in s.proposals
    requires s.proposals[id].status == Voting
    ensures TimingInv(Approval(s, epoch, id), epoch, length)
  {
    hide CoreInv, LeavesInv, LeavesGrow, InsertProposalLeaves, SortedDomains;
    VotingUnapproved(s, domain, epoch, id);
    var p' := Approve(s.proposals[id], epoch);
    var s1 := s.(activations := s.activations[id := ActivationFor(p', [])]);
    ApproveLeaves(s, domain, epoch, id, p', s1);
  }

  lemma CloseTiming(length: nat, s: State, env: Env, id: ItemId, s': State)
    requires Inv(s, env.domain, env.epoch) && TimingInv(s, env.epoch, length) && CloseProposal(s, env, id) == Ok(s')
    ensures TimingInv(s', env.epoch, length)
  {
    hide Inv, InsertProposalLeaves, QuorumMet, Approved, ActivationFor;
    if QuorumMet(s.proposals[id]) && Approved(s.proposals[id]) {
      ApprovalTiming(length, s, env.domain, env.epoch, id);
    }
  }

  lemma ImportProposalTiming(length: nat, s: State, env: Env, who: Account, leaf: ProposalLeafInput, s': State)
    requires Inv(s, env.domain, env.epoch) && TimingInv(s, env.epoch, length)
    requires ImportProposal(s, env, who, leaf) == Ok(s')
    ensures TimingInv(s', env.epoch, length)
  {
    hide RecordLocalAck, MaybeSchedule, CoreInv, LeavesInv, AcksFrom, ProposalsGrow;
    var s1 := Stored(s, env.domain, leaf);
    var s2 := RecordLocalAck(s1, ImportedProposal(leaf), env);
    StoredKeeps(s, env.domain, env.epoch, leaf);
    RecordLocalAckKeeps(s1, env, ImportedProposal(leaf));
    CoreFields(s1, s2, env.domain, env.epoch);
    CoreRecords(s2, env.domain, env.epoch);
    ScheduleTiming(length, s2, env.domain, env.epoch, leaf.proposalId);
  }

  lemma ImportAckTiming(length: nat, s: State, env: Env, who: Account, leaf: AckLeafInput, s': State)
    requires Inv(s, env.domain, env.epoch) && TimingInv(s, env.epoch, length) && ImportAck(s, env, who, leaf) == Ok(s')
    ensures TimingInv(s', env.epoch, length)
  {
    hide NoteAck, CoreInv, LeavesInv;
    var s1 := s.(acks := s.acks[(leaf.proposalId, leaf.acknowledgingDomain) :=
      AckRecord(leaf.sourceDomain, leaf.targetDomains, leaf.activationEpoch, leaf.payloadHash, leaf.newVersion,
                leaf.acknowledgedEpoch, env.height)]);
    CoreFields(s, s1, env.domain, env.epoch);
    NoteAckTiming(length, s1, env.domain, env.epoch, leaf.proposalId, leaf.acknowledgingDomain);
  }

  lemma HookTiming(length: nat, s: State, domain: DomainId, epoch: EpochId, epoch': EpochId, height: nat)
    requires CoreInv(s, domain, epoch) && TimingInv(s, epoch, length) && epoch <= epoch' <= epoch + 1
    requires Reaches(height, epoch, epoch', length)
    ensures TimingInv(OnInitialize(s, epoch', height), epoch', length)
  {
    hide OnInitialize, QueuesInv;
    var s' := OnInitialize(s, epoch', height);
    forall id | id in s'.activations ensures TimingOk(s'.activations[id], epoch', length) {
      HookEffect(s, domain, epoch, epoch', height, id);
      assert RecordOk(s, domain, id);
      HookTimingAt(length, s, s', domain, epoch, epoch', height, id);
    }
  }

  lemma HookTimingAt(length: nat, s: State, s': State, domain: DomainId, epoch: EpochId, epoch': EpochId, height: nat,
                     id: ItemId)
    requires id in s.activations && RecordOk(s, domain, id) && TimingOk(s.activations[id], epoch, length)
    requires epoch <= epoch' <= epoch + 1
    requires Activates(s, s', epoch', height, id, Due(s, epoch', id)) && Reaches(height, epoch, epoch', length)
    ensures TimingOk(s'.activations[id], epoch', length)
  {
  }

  // ---------- schedules and activations are final ----------

  datatype Stamp = Stamp(
    status: ProposalStatus, activationEpoch: EpochId, scheduledAt: Option<EpochId>, activatedAtEpoch: Option<EpochId>,
    activatedAtHeight: Option<nat>)

  function StampOf(a: Activation): Stamp {
    Stamp(a.status, a.activationEpoch, a.scheduledAt, a.activatedAtEpoch, a.activatedAtHeight)
  }

  predicate Timed(a: Activation) { a.status == Scheduled || a.status == Activated }

  /** A scheduled or active record keeps its status and its times. */
  ghost predicate StampKept(s: State, s': State, id: ItemId) {
    id in s.activations && Timed(s.activations[id]) ==>
      id in s'.activations && StampOf(s'.activations[id]) == StampOf(s.activations[id])
  }

  lemma ScheduleStamp(s: State, domain: DomainId, epoch: EpochId, k: ItemId, id: ItemId)
    requires RecordsInv(s, domain)
    ensures StampKept(s, MaybeSchedule(s, k, epoch), id)
  {
    if k in s.proposals {
      assert RecordOk(s, domain, k);
    }
  }

  lemma NoteAckStamp(s: State, domain: DomainId, epoch: EpochId, k: ItemId, acking: DomainId, id: ItemId)
    requires CoreInv(s, domain, epoch)
    ensures StampKept(s, NoteAck(s, k, acking, epoch), id)
  {
    hide CoreInv, MaybeSchedule, SortedDomains;
    if k in s.activations && acking !in s.activations[k].knownAcks {
      var s1 := WithAck(s, k, acking);
      AddAckKeeps(s, domain, epoch, k, acking, s1);
      CoreRecords(s1, domain, epoch);
      ScheduleStamp(s1, domain, epoch, k, id);
    } else {
      CoreRecords(s, domain, epoch);
      ScheduleStamp(s, domain, epoch, k, id);
    }
  }

  lemma NewStamp(s: State, s': State, k: ItemId, id: ItemId)
    requires k !in s.activations && k in s'.activations && s'.activations == s.activations[k := s'.activations[k]]
    ensures StampKept(s, s', id)
  {
  }

  lemma ApprovalStamp(s: State, domain: DomainId, epoch: EpochId, k: ItemId, id: ItemId)
    requires Inv(s, domain, epoch) && k in s.proposals && s.proposals[k].status == Voting
    ensures StampKept(s, Approval(s, epoch, k), id)
  {
    hide CoreInv, LeavesInv, LeavesGrow, InsertProposalLeaves, ActivationFor, StampKept;
    VotingUnapproved(s, domain, epoch, k);
    var p' := Approve(s.proposals[k], epoch);
    ApproveLeaves(s, domain, epoch, k, p', s.(activations := s.activations[k := ActivationFor(p', [])]));
    NewStamp(s, Approval(s, epoch, k), k, id);
  }

  lemma CloseStamp(s: State, env: Env, k: ItemId, s': State, id: ItemId)
    requires Inv(s, env.domain, env.epoch) && CloseProposal(s, env, k) == Ok(s')
    ensures StampKept(s, s', id)
  {
    hide CoreInv, LeavesInv, InsertProposalLeaves, QuorumMet, Approved, ActivationFor, Approve;
    if QuorumMet(s.proposals[k]) && Approved(s.proposals[k]) {
      ApprovalStamp(s, env.domain, env.epoch, k, id);
    }
  }

  lemma ImportProposalStamp(s: State, env: Env, who: Account, leaf: ProposalLeafInput, s': State, id: ItemId)
    requires Inv(s, env.domain, env.epoch) && ImportProposal(s, env, who, leaf) == Ok(s')
    ensures StampKept(s, s', id)
  {
    hide RecordLocalAck, MaybeSchedule, CoreInv, LeavesInv, AcksFrom, ProposalsGrow;
    var s1 := Stored(s, env.domain, leaf);
    var s2 := RecordLocalAck(s1, ImportedProposal(leaf), env);
    StoredKeeps(s, env.domain, env.epoch, leaf);
    RecordLocalAckKeeps(s1, env, ImportedProposal(leaf));
    CoreFields(s1, s2, env.domain, env.epoch);
    CoreRecords(s2, env.domain, env.epoch);
    CoreRecords(s, env.domain, env.epoch);
    ScheduleStamp(s2, env.domain, env.epoch, leaf.proposalId, id);
  }

  lemma ImportAckStamp(s: State, env: Env, who: Account, leaf: AckLeafInput, s': State, id: ItemId)
    requires Inv(s, env.domain, env.epoch) && ImportAck(s, env, who, leaf) == Ok(s')
    ensures StampKept(s, s', id)
  {
    hide NoteAck, CoreInv, LeavesInv;
    var s1 := s.(acks := s.acks[(leaf.proposalId, leaf.acknowledgingDomain) :=
      AckRecord(leaf.sourceDomain, leaf.targetDomains, leaf.activationEpoch, leaf.payloadHash, leaf.newVersion,
                leaf.acknowledgedEpoch, env.height)]);
    CoreFields(s, s1, env.domain, env.epoch);
    NoteAckStamp(s1, env.domain, env.epoch, leaf.proposalId, leaf.acknowledgingDomain, id);
  }

  /** The stamp of a record after a block that reaches `epoch`. */
  function NextStamp(a: Activation, epoch: EpochId, height: nat): Stamp {
    if a.status == Scheduled && a.activationEpoch <= epoch
    then Stamp(Activated, a.activationEpoch, a.scheduledAt, Some(epoch), Some(height))
    else StampOf(a)
  }

  /** The hook moves due records from scheduled to active, stamped with this block, and no others. */
  lemma HookStamp(s: State, domain: DomainId, epoch: EpochId, epoch': EpochId, height: nat, id: ItemId)
    requires CoreInv(s, domain, epoch) && epoch <= epoch' <= epoch + 1 && height > 0 && id in s.activations
    ensures var s' := OnInitialize(s, epoch', height);
            var a := s.activations[id];
            && id in s'.activations
            && StampOf(s'.activations[id]) == NextStamp(a, epoch', height)
  {
    hide OnInitialize, QueuesInv;
    HookEffect(s, domain, epoch, epoch', height, id);
    assert RecordOk(s, domain, id);
  }
}
