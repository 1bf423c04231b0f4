/** Every call and the block hook of the governance pallet keep its invariant, and only ever
    move proposals forward. */
module GovernanceSteps {
  import opened Types
  import opened Sorting
  import opened Commitments
  import opened Governance
  import opened GovernanceProofs

  // ---------- changing one proposal ----------

  /** Nothing but the records of `id` differs. */
  ghost predicate OnlyAt(s: State, s': State, id: ItemId) {
    && id in s'.proposals && s'.proposals == s.proposals[id := s'.proposals[id]]
    && (if id in s'.activations then s'.activations == s.activations[id := s'.activations[id]]
        else s'.activations == s.activations)
  }

  lemma OnlyAtRecord(s: State, s': State, domain: DomainId, id: ItemId, k: ItemId)
    requires OnlyAt(s, s', id) && k != id && RecordOk(s, domain, k)
    ensures RecordOk(s', domain, k)
  {
  }

  /** A queued proposal stays what it was, and no proposal becomes queued. */
  ghost predicate SameQueueing(s: State, s': State, id: ItemId) {
    && id in s'.proposals
    && (id in s.proposals && StatusRank(s.proposals[id].status) >= 3 ==>
          s'.proposals[id].status == s.proposals[id].status
            && s'.proposals[id].activationEpoch == s.proposals[id].activationEpoch)
    && (s'.proposals[id].status == Scheduled ==> id in s.proposals && s.proposals[id].status == Scheduled)
    && s'.scheduled == s.scheduled && s'.ready == s.ready
  }

  lemma OnlyAtPlaced(s: State, s': State, epoch: EpochId, id: ItemId, k: ItemId)
    requires OnlyAt(s, s', id) && SameQueueing(s, s', id) && Placed(s, epoch, k)
    ensures Placed(s', epoch, k)
  {
  }

  lemma OnlyAtBucket(s: State, s': State, id: ItemId, e: EpochId)
    requires OnlyAt(s, s', id) && SameQueueing(s, s', id) && BucketOk(s, e)
    ensures BucketOk(s', e)
  {
  }

  lemma OnlyAtQueues(s: State, s': State, epoch: EpochId, id: ItemId)
    requires QueuesInv(s, epoch) && OnlyAt(s, s', id) && SameQueueing(s, s', id)
    ensures QueuesInv(s', epoch)
  {
    forall k ensures Placed(s', epoch, k) {
      OnlyAtPlaced(s, s', epoch, id, k);
    }
    forall e: EpochId ensures BucketOk(s', e) {
      OnlyAtBucket(s, s', id, e);
    }
  }

  lemma OnlyAtRecords(s: State, s': State, domain: DomainId, id: ItemId)
    requires RecordsInv(s, domain) && OnlyAt(s, s', id) && RecordOk(s', domain, id)
    ensures RecordsInv(s', domain)
  {
    forall k | k in s'.proposals ensures RecordOk(s', domain, k) {
      if k != id {
        OnlyAtRecord(s, s', domain, id, k);
      }
    }
  }

  lemma OnlyAtCore(s: State, s': State, domain: DomainId, epoch: EpochId, id: ItemId)
    requires CoreInv(s, domain, epoch) && OnlyAt(s, s', id) && RecordOk(s', domain, id) && SameQueueing(s, s', id)
    ensures CoreInv(s', domain, epoch)
  {
    OnlyAtRecords(s, s', domain, id);
    OnlyAtQueues(s, s', epoch, id);
  }

  lemma CoreFields(s: State, s': State, domain: DomainId, epoch: EpochId)
    requires CoreInv(s, domain, epoch)
    requires s'.proposals == s.proposals && s'.activations == s.activations && s'.scheduled == s.scheduled
    requires s'.ready == s.ready
    ensures CoreInv(s', domain, epoch)
  {
    forall k | k in s'.proposals ensures RecordOk(s', domain, k) {
      assert RecordOk(s, domain, k);
    }
    forall k ensures Placed(s', epoch, k) {
      assert Placed(s, epoch, k);
    }
    forall e: EpochId ensures BucketOk(s', e) {
      assert BucketOk(s, e);
    }
  }

  lemma CoreRecords(s: State, domain: DomainId, epoch: EpochId)
    requires CoreInv(s, domain, epoch)
    ensures RecordsInv(s, domain)
  {
  }

  lemma OnlyAtGrows(s: State, s': State, id: ItemId)
    requires OnlyAt(s, s', id) && (id in s.proposals ==> ProposalGrows(s.proposals[id], s'.proposals[id]))
    ensures ProposalsGrow(s.proposals, s'.proposals)
  {
  }

  lemma OnlyAtAcks(s: State, s': State, id: ItemId, domain: DomainId)
    requires OnlyAt(s, s', id)
    requires id in s'.activations ==> forall d :: d in s'.activations[id].knownAcks ==>
               d == domain || (id in s.activations && d in s.activations[id].knownAcks)
    ensures AcksFrom(s, s', id, domain)
  {
  }

  lemma OnlyAtAcksSame(s: State, s': State, id: ItemId)
    requires OnlyAt(s, s', id)
    requires id in s'.activations ==> forall d :: d in s'.activations[id].knownAcks ==>
               id in s.activations && d in s.activations[id].knownAcks
    ensures AcksSame(s, s')
  {
  }

  lemma GrowTransitive(a: map<ItemId, Proposal>, b: map<ItemId, Proposal>, c: map<ItemId, Proposal>)
    requires ProposalsGrow(a, b) && ProposalsGrow(b, c)
    ensures ProposalsGrow(a, c)
  {
    forall id | id in a ensures id in c && ProposalGrows(a[id], c[id]) {
      assert ProposalGrows(a[id], b[id]) && ProposalGrows(b[id], c[id]);
    }
  }

  lemma LeavesFields(s: State, s': State, proposals: map<ItemId, Proposal>, domain: DomainId, epoch: EpochId)
    requires LeavesInv(s, proposals, domain, epoch) && s'.leaves == s.leaves && s'.epochLeafIds == s.epochLeafIds
    ensures LeavesInv(s', proposals, domain, epoch)
  {
    forall h | h in s'.leaves ensures LeafOk(s', proposals, domain, h) {
      assert LeafOk(s, proposals, domain, h);
    }
    forall e: EpochId ensures LeafListOk(s', domain, epoch, e) {
      assert LeafListOk(s, domain, epoch, e);
    }
  }

  /** One proposal changes before it is approved; nothing else does. */
  lemma UnapprovedStep(s: State, s': State, domain: DomainId, epoch: EpochId, id: ItemId)
    requires Inv(s, domain, epoch) && OnlyAt(s, s', id) && id !in s'.activations && RecordOk(s', domain, id)
    requires id in s.proposals ==> s.proposals[id].status == Voting && ProposalGrows(s.proposals[id], s'.proposals[id])
    requires s'.scheduled == s.scheduled && s'.ready == s.ready && s'.importer == s.importer
    requires s'.nextSequence == s.nextSequence || s'.nextSequence == SatAdd(s.nextSequence, 1, U64_MAX)
    requires s'.leaves == s.leaves && s'.epochLeafIds == s.epochLeafIds
    ensures Inv(s', domain, epoch) && Evolves(s, s', epoch) && AcksSame(s, s')
  {
    OnlyAtCore(s, s', domain, epoch, id);
    OnlyAtGrows(s, s', id);
    OnlyAtAcksSame(s, s', id);
    LeavesUntouched(s, s', domain, epoch, epoch);
  }

  // ---------- voting ----------

  lemma CreateKeeps(s: State, env: Env, who: Account, targets: seq<DomainId>, newVersion: nat,
                    balances: map<Account, nat>, s': State)
    requires Inv(s, env.domain, env.epoch)
    requires CreateProposal(s, env, who, targets, newVersion, balances) == Ok(s')
    requires ItemId(env.domain, s.nextSequence) !in s.proposals
    ensures Inv(s', env.domain, env.epoch) && Evolves(s, s', env.epoch) && AcksSame(s, s')
  {
    TargetsExcludeSource(targets, env.domain);
    UnapprovedStep(s, s', env.domain, env.epoch, ItemId(env.domain, s.nextSequence));
  }

  lemma TargetsExcludeSource(targets: seq<DomainId>, source: DomainId)
    ensures var r := CanonicalTargets(targets, source);
            r.Ok? ==> source !in r.value && r.value != []
  {
    SortedDomainsMembers(targets);
    assert targets != [] ==> targets[0] in targets;
  }

  lemma VotingUnapproved(s: State, domain: DomainId, epoch: EpochId, id: ItemId)
    requires CoreInv(s, domain, epoch) && id in s.proposals && s.proposals[id].status == Voting
    ensures id !in s.activations && s.proposals[id].sourceDomain == domain && s.proposals[id].proposalId == id
    ensures RecordOk(s, domain, id)
  {
  }

  lemma CastVoteKeeps(s: State, env: Env, who: Account, id: ItemId, choice: Choice, s': State)
    requires Inv(s, env.domain, env.epoch) && CastVote(s, env, who, id, choice) == Ok(s')
    ensures Inv(s', env.domain, env.epoch) && Evolves(s, s', env.epoch) && AcksSame(s, s')
  {
    VotingUnapproved(s, env.domain, env.epoch, id);
    UnapprovedStep(s, s', env.domain, env.epoch, id);
  }

  lemma CloseKeeps(s: State, env: Env, id: ItemId, s': State)
    requires Inv(s, env.domain, env.epoch) && CloseProposal(s, env, id) == Ok(s')
    ensures Inv(s', env.domain, env.epoch) && Evolves(s, s', env.epoch) && AcksSame(s, s')
  {
    VotingUnapproved(s, env.domain, env.epoch, id);
    if !QuorumMet(s.proposals[id]) || !Approved(s.proposals[id]) {
      UnapprovedStep(s, s', env.domain, env.epoch, id);
    } else {
      ApproveKeeps(s, env.domain, env.epoch, id, s');
    }
  }

  /** The state after an approval. */
  function Approval(s: State, epoch: EpochId, id: ItemId): State
    requires id in s.proposals
  {
    var p' := Approve(s.proposals[id], epoch);
    var s1 := s.(activations := s.activations[p'.proposalId := ActivationFor(p', [])]);
    var s2 := InsertProposalLeaves(s1, p', epoch, p'.targetDomains);
    s2.(proposals := s2.proposals[id := p'])
  }

  lemma ApproveLeaves(s: State, domain: DomainId, epoch: EpochId, id: ItemId, p': Proposal, s1: State)
    requires LeavesInv(s, s.proposals, domain, epoch) && id in s.proposals && s.proposals[id].status == Voting
    requires s.proposals[id].sourceDomain == domain && s.proposals[id].proposalId == id
    requires p' == Approve(s.proposals[id], epoch)
    requires s1 == s.(activations := s.activations[id := ActivationFor(p', [])])
    ensures var s2 := InsertProposalLeaves(s1, p', epoch, p'.targetDomains);
            LeavesInv(s2, s.proposals[id := p'], domain, epoch) && LeavesGrow(s, s2, epoch) && SameButLeaves(s1, s2)
  {
    var proposals' := s.proposals[id := p'];
    LeavesBackedMore(s, s.proposals, proposals', domain, epoch);
    LeavesFields(s, s1, proposals', domain, epoch);
    ProposalLeavesKeep(s1, proposals', domain, epoch, p', p'.targetDomains);
  }

  lemma ApproveKeeps(s: State, domain: DomainId, epoch: EpochId, id: ItemId, s': State)
    requires Inv(s, domain, epoch) && id in s.proposals && s.proposals[id].status == Voting
    requires s' == Approval(s, epoch, id)
    ensures Inv(s', domain, epoch) && Evolves(s, s', epoch) && AcksSame(s, s')
  {
    VotingUnapproved(s, domain, epoch, id);
    var p' := Approve(s.proposals[id], epoch);
    var s1 := s.(activations := s.activations[id := ActivationFor(p', [])]);
    ApproveLeaves(s, domain, epoch, id, p', s1);
    var s2 := InsertProposalLeaves(s1, p', epoch, p'.targetDomains);
    LeavesFields(s2, s', s'.proposals, domain, epoch);
    SortedDomainsMembers([]);
    OnlyAtCore(s, s', domain, epoch, id);
    OnlyAtGrows(s, s', id);
    OnlyAtAcksSame(s, s', id);
  }

  // ---------- scheduling ----------

  lemma SchedulePlaced(s: State, epoch: EpochId, id: ItemId, k: ItemId)
    requires id in s.proposals && id in s.activations
    requires s.activations[id].activationEpoch == s.proposals[id].activationEpoch
    requires Placed(s, epoch, k)
    ensures Placed(Schedule(s, id, epoch), epoch, k)
  {
  }

  lemma ScheduleBucket(s: State, epoch: EpochId, id: ItemId, e: EpochId)
    requires id in s.proposals && id in s.activations
    requires s.activations[id].activationEpoch == s.proposals[id].activationEpoch
    requires BucketOk(s, e)
    ensures BucketOk(Schedule(s, id, epoch), e)
  {
    var s' := Schedule(s, id, epoch);
    forall k | k in Bucket(s', e)
      ensures k in s'.proposals && s'.proposals[k].activationEpoch == e
      ensures s'.proposals[k].status == Scheduled || s'.proposals[k].status == Activated
    {
      assert k == id || k in Bucket(s, e);
    }
  }

  lemma ScheduleQueues(s: State, epoch: EpochId, id: ItemId)
    requires QueuesInv(s, epoch)
    requires id in s.proposals && id in s.activations
    requires s.activations[id].activationEpoch == s.proposals[id].activationEpoch
    ensures QueuesInv(Schedule(s, id, epoch), epoch)
  {
    var s' := Schedule(s, id, epoch);
    forall k ensures Placed(s', epoch, k) {
      SchedulePlaced(s, epoch, id, k);
    }
    forall e: EpochId ensures BucketOk(s', e) {
      ScheduleBucket(s, epoch, id, e);
    }
    assert ReadyOk(s', epoch);
  }

  /** The leaf storage and the importer account are untouched. */
  ghost predicate LeavesSame(s: State, s': State) {
    s'.leaves == s.leaves && s'.epochLeafIds == s.epochLeafIds && s'.importer == s.importer
      && s'.nextSequence == s.nextSequence
  }

  lemma ScheduleShape(s: State, epoch: EpochId, id: ItemId)
    requires id in s.proposals && id in s.activations
    ensures var s' := Schedule(s, id, epoch);
            && OnlyAt(s, s', id) && LeavesSame(s, s') && id in s'.activations
            && s'.proposals[id] == s.proposals[id].(status := Scheduled)
            && s'.activations[id] == s.activations[id].(status := Scheduled, scheduledAt := Some(epoch))
  {
  }

  lemma ScheduleRecord(s: State, s': State, domain: DomainId, epoch: EpochId, id: ItemId)
    requires RecordOk(s, domain, id) && id in s.activations && s.proposals[id].status == LocallyFinalized
    requires HasFullAckSet(s.activations[id]) && id in s'.proposals && id in s'.activations
    requires s'.proposals[id] == s.proposals[id].(status := Scheduled)
    requires s'.activations[id] == s.activations[id].(status := Scheduled, scheduledAt := Some(epoch))
    ensures RecordOk(s', domain, id) && ProposalGrows(s.proposals[id], s'.proposals[id])
  {
  }

  lemma ScheduleKeeps(s: State, domain: DomainId, epoch: EpochId, id: ItemId)
    requires CoreInv(s, domain, epoch) && id in s.proposals && id in s.activations
    requires s.proposals[id].status == LocallyFinalized && HasFullAckSet(s.activations[id])
    ensures var s' := Schedule(s, id, epoch);
            CoreInv(s', domain, epoch) && ProposalsGrow(s.proposals, s'.proposals) && AcksSame(s, s')
                && LeavesSame(s, s')
  {
    var s' := Schedule(s, id, epoch);
    assert RecordOk(s, domain, id);
    ScheduleQueues(s, epoch, id);
    ScheduleShape(s, epoch, id);
    ScheduleRecord(s, s', domain, epoch, id);
    OnlyAtRecords(s, s', domain, id);
    OnlyAtGrows(s, s', id);
    OnlyAtAcksSame(s, s', id);
  }

  lemma MaybeScheduleKeeps(s: State, domain: DomainId, epoch: EpochId, id: ItemId)
    requires CoreInv(s, domain, epoch)
    ensures var s' := MaybeSchedule(s, id, epoch);
            CoreInv(s', domain, epoch) && ProposalsGrow(s.proposals, s'.proposals) && AcksSame(s, s')
                && LeavesSame(s, s')
  {
    if MaybeSchedule(s, id, epoch) != s {
      ScheduleKeeps(s, domain, epoch, id);
    }
  }

  /** The record of `id` with one more known acknowledgement. */
  function WithAck(s: State, id: ItemId, acking: DomainId): State
    requires id in s.activations
  {
    var acks := SortedDomains(s.activations[id].knownAcks + [acking]);
    s.(activations := s.activations[id := s.activations[id].(knownAcks := acks)])
  }

  lemma AddAckKeeps(s: State, domain: DomainId, epoch: EpochId, id: ItemId, acking: DomainId, s1: State)
    requires CoreInv(s, domain, epoch) && id in s.activations
    requires s1 == WithAck(s, id, acking)
    ensures CoreInv(s1, domain, epoch) && AcksFrom(s, s1, id, acking)
  {
    SortedDomainsMembers(s.activations[id].knownAcks + [acking]);
    assert RecordOk(s, domain, id);
    assert s1.proposals == s.proposals[id := s1.proposals[id]];
    OnlyAtCore(s, s1, domain, epoch, id);
    OnlyAtAcks(s, s1, id, acking);
  }

  lemma NoteAckKeeps(s: State, domain: DomainId, epoch: EpochId, id: ItemId, acking: DomainId)
    requires CoreInv(s, domain, epoch)
    ensures var s' := NoteAck(s, id, acking, epoch);
            CoreInv(s', domain, epoch) && ProposalsGrow(s.proposals, s'.proposals) && AcksFrom(s, s', id, acking)
                && LeavesSame(s, s')
  {
    if id in s.activations && acking !in s.activations[id].knownAcks {
      var s1 := WithAck(s, id, acking);
      AddAckKeeps(s, domain, epoch, id, acking, s1);
      MaybeScheduleKeeps(s1, domain, epoch, id);
    } else {
      MaybeScheduleKeeps(s, domain, epoch, id);
    }
  }

  // ---------- imports ----------

  /** The state in which a verified proposal has been stored, before the acknowledgement. */
  function Stored(s: State, domain: DomainId, leaf: ProposalLeafInput): State {
    var p := ImportedProposal(leaf);
    s.(proposals := s.proposals[leaf.proposalId := p],
       activations := s.activations[leaf.proposalId := ActivationFor(p, [domain])])
  }

  lemma StoredKeeps(s: State, domain: DomainId, epoch: EpochId, leaf: ProposalLeafInput)
    requires Inv(s, domain, epoch)
    requires leaf.proposalId !in s.proposals && leaf.sourceDomain != domain && domain in leaf.targetDomains
    requires leaf.payloadHash == PayloadDigest(leaf.newVersion)
    ensures var s1 := Stored(s, domain, leaf);
            && Inv(s1, domain, epoch) && AcksFrom(s, s1, leaf.proposalId, domain)
            && ProposalsGrow(s.proposals, s1.proposals)
  {
    var s1 := Stored(s, domain, leaf);
    SortedDomainsMembers([domain]);
    OnlyAtCore(s, s1, domain, epoch, leaf.proposalId);
    OnlyAtAcks(s, s1, leaf.proposalId, domain);
    OnlyAtGrows(s, s1, leaf.proposalId);
    LeavesUntouched(s, s1, domain, epoch, epoch);
  }

  /** Recording the acknowledgement and fanning it out adds leaves backed by the new proposal. */
  lemma RecordLocalAckKeeps(s1: State, env: Env, p: Proposal)
    requires LeavesInv(s1, s1.proposals, env.domain, env.epoch)
    requires p.proposalId in s1.proposals && s1.proposals[p.proposalId] == p && Live(p.status)
    requires p.sourceDomain != env.domain && env.domain in p.targetDomains
    ensures var s2 := RecordLocalAck(s1, p, env);
            && LeavesInv(s2, s1.proposals, env.domain, env.epoch) && LeavesGrow(s1, s2, env.epoch)
            && s2 == s1.(acks := s2.acks, leaves := s2.leaves, epochLeafIds := s2.epochLeafIds)
  {
    var a := s1.(acks := s1.acks[(p.proposalId, env.domain) :=
      AckRecord(p.sourceDomain, p.targetDomains, p.activationEpoch, p.payloadHash, p.newVersion, env.epoch,
                env.height)]);
    LeavesFields(s1, a, s1.proposals, env.domain, env.epoch);
    WithoutExcludes(SortedDomains(p.targetDomains + [p.sourceDomain]), env.domain);
    AckLeavesKeep(a, s1.proposals, env.domain, env.epoch, p, FanoutTargets(p, env.domain));
  }

  lemma ImportProposalKeeps(s: State, env: Env, who: Account, leaf: ProposalLeafInput, s': State)
    requires Inv(s, env.domain, env.epoch) && ImportProposal(s, env, who, leaf) == Ok(s')
    ensures Inv(s', env.domain, env.epoch) && Evolves(s, s', env.epoch)
    ensures AcksFrom(s, s', leaf.proposalId, env.domain)
  {
    var s1 := Stored(s, env.domain, leaf);
    var s2 := RecordLocalAck(s1, ImportedProposal(leaf), env);
    StoredKeeps(s, env.domain, env.epoch, leaf);
    RecordLocalAckKeeps(s1, env, ImportedProposal(leaf));
    CoreFields(s1, s2, env.domain, env.epoch);
    MaybeScheduleKeeps(s2, env.domain, env.epoch, leaf.proposalId);
    ThenScheduled(s, s1, s2, s', env.domain, env.epoch, leaf.proposalId);
  }

  lemma ThenScheduled(s: State, s1: State, s2: State, s': State, domain: DomainId, epoch: EpochId, id: ItemId)
    requires ProposalsGrow(s.proposals, s1.proposals) && AcksFrom(s, s1, id, domain) && LeavesSame(s, s1)
    requires s2.proposals == s1.proposals && s2.activations == s1.activations
    requires s2.importer == s1.importer && s2.nextSequence == s1.nextSequence
    requires LeavesInv(s2, s2.proposals, domain, epoch) && LeavesGrow(s1, s2, epoch)
    requires CoreInv(s', domain, epoch) && ProposalsGrow(s2.proposals, s'.proposals) && AcksSame(s2, s')
    requires LeavesSame(s2, s')
    ensures Inv(s', domain, epoch) && Evolves(s, s', epoch) && AcksFrom(s, s', id, domain)
  {
    LeavesUntouched(s2, s', domain, epoch, epoch);
    GrowTransitive(s.proposals, s2.proposals, s'.proposals);
  }

  lemma ImportAckKeeps(s: State, env: Env, who: Account, leaf: AckLeafInput, s': State)
    requires Inv(s, env.domain, env.epoch) && ImportAck(s, env, who, leaf) == Ok(s')
    ensures Inv(s', env.domain, env.epoch) && Evolves(s, s', env.epoch)
    ensures AcksFrom(s, s', leaf.proposalId, leaf.acknowledgingDomain)
  {
    hide NoteAck, CoreInv, LeavesInv, AcksFrom, ProposalsGrow;
    var s1 := s.(acks := s.acks[(leaf.proposalId, leaf.acknowledgingDomain) :=
      AckRecord(leaf.sourceDomain, leaf.targetDomains, leaf.activationEpoch, leaf.payloadHash, leaf.newVersion,
                leaf.acknowledgedEpoch, env.height)]);
    CoreFields(s, s1, env.domain, env.epoch);
    NoteAckKeeps(s1, env.domain, env.epoch, leaf.proposalId, leaf.acknowledgingDomain);
    AckNoted(s, s1, s', env.domain, env.epoch, leaf.proposalId, leaf.acknowledgingDomain);
  }

  lemma AckNoted(s: State, s1: State, s': State, domain: DomainId, epoch: EpochId, id: ItemId, acking: DomainId)
    requires LeavesInv(s, s.proposals, domain, epoch) && LeavesSame(s, s1) && LeavesSame(s1, s')
    requires s1.proposals == s.proposals && s1.activations == s.activations
    requires CoreInv(s', domain, epoch) && ProposalsGrow(s1.proposals, s'.proposals) && AcksFrom(s1, s', id, acking)
    ensures Inv(s', domain, epoch) && Evolves(s, s', epoch) && AcksFrom(s, s', id, acking)
  {
    LeavesUntouched(s, s', domain, epoch, epoch);
  }

  // ---------- activation ----------

  function ActivatedRecord(a: Activation, epoch: EpochId, height: nat): Activation {
    a.(status := Activated, activatedAtEpoch := Some(epoch), activatedAtHeight := Some(height))
  }

  /** What an activation does to the records of one id: all of it when `now` holds, else nothing. */
  ghost predicate Activates(s: State, s': State, epoch: EpochId, height: nat, id: ItemId, now: bool) {
    && (id in s'.proposals <==> id in s.proposals) && (id in s'.activations <==> id in s.activations)
    && (now ==> id in s.proposals && id in s.activations)
    && (id in s.proposals ==> s'.proposals[id] == if now then s.proposals[id].(status := Activated)
          else s.proposals[id])
    && (id in s.activations ==>
          s'.activations[id] == if now then ActivatedRecord(s.activations[id], epoch, height) else s.activations[id])
  }

  lemma ActivatesThen(s: State, s1: State, s2: State, epoch: EpochId, height: nat, id: ItemId, first: bool,
                      second: bool)
    requires Activates(s, s1, epoch, height, id, first) && Activates(s1, s2, epoch, height, id, second)
    requires (first ==> !second)
    ensures Activates(s, s2, epoch, height, id, first || second)
  {
  }

  lemma ActivateOne(s: State, k: ItemId, epoch: EpochId, height: nat, id: ItemId)
    ensures Activates(s, TryActivate(s, k, epoch, height), epoch, height, id, id == k && CanActivate(s, id, epoch))
  {
  }

  lemma ActivatedOnce(s: State, s1: State, epoch: EpochId, height: nat, id: ItemId, now: bool)
    requires Activates(s, s1, epoch, height, id, now)
    ensures CanActivate(s1, id, epoch) <==> CanActivate(s, id, epoch) && !now
  {
  }

  /** Activating a list of ids activates exactly those that can be, each once, and changes
      nothing else. */
  lemma {:induction false} ActivateEffect(s: State, ids: seq<ItemId>, epoch: EpochId, height: nat, id: ItemId)
    ensures Activates(s, ActivateAll(s, ids, epoch, height), epoch, height, id, id in ids && CanActivate(s, id, epoch))
    decreases |ids|
  {
    if ids != [] {
      var n := |ids| - 1;
      var s1 := ActivateAll(s, ids[..n], epoch, height);
      ActivateEffect(s, ids[..n], epoch, height, id);
      ActivateOne(s1, ids[n], epoch, height, id);
      ActivatedOnce(s, s1, epoch, height, id, id in ids[..n] && CanActivate(s, id, epoch));
      ActivatesThen(s, s1, ActivateAll(s, ids, epoch, height), epoch, height, id,
                    id in ids[..n] && CanActivate(s, id, epoch), id == ids[n] && CanActivate(s1, id, epoch));
      assert id in ids <==> id in ids[..n] || id == ids[n];
    }
  }

  lemma {:induction false} ActivateFrame(s: State, ids: seq<ItemId>, epoch: EpochId, height: nat)
    ensures var s' := ActivateAll(s, ids, epoch, height);
            s' == s.(protocolVersion := s'.protocolVersion, proposals := s'.proposals, activations := s'.activations)
    decreases |ids|
  {
    if ids != [] {
      ActivateFrame(s, ids[..|ids| - 1], epoch, height);
    }
  }

  lemma {:induction false} NothingRemains(s: State, ids: seq<ItemId>, epoch: EpochId, height: nat)
    requires forall id :: id in ids ==>
               CanActivate(s, id, epoch) || (id in s.proposals && s.proposals[id].status == Activated)
    ensures Remaining(s, ids, epoch, height) == []
    decreases |ids|
  {
    if ids != [] {
      var n := |ids| - 1;
      NothingRemains(s, ids[..n], epoch, height);
      ActivateEffect(s, ids[..n], epoch, height, ids[n]);
      assert ids[n] in ids;
    }
  }

  /** Whether the hook of the first block after this state activates `id`. */
  predicate Due(s: State, epoch: EpochId, id: ItemId) {
    id in s.proposals && s.proposals[id].status == Scheduled && s.proposals[id].activationEpoch <= epoch
  }

  lemma DueCanActivate(s: State, domain: DomainId, epoch: EpochId, epoch': EpochId, id: ItemId)
    requires CoreInv(s, domain, epoch)
    ensures CanActivate(s, id, epoch') <==> Due(s, epoch', id)
  {
    if id in s.proposals {
      assert RecordOk(s, domain, id);
    }
  }

  /** Every due proposal waits in the bucket of the new epoch or in the ready queue. */
  lemma DueIsQueued(s: State, domain: DomainId, epoch: EpochId, epoch': EpochId, id: ItemId)
    requires CoreInv(s, domain, epoch) && epoch <= epoch' <= epoch + 1
    ensures Due(s, epoch', id) <==> CanActivate(s, id, epoch') && (id in Bucket(s, epoch') || id in s.ready)
  {
    DueCanActivate(s, domain, epoch, epoch', id);
    assert Placed(s, epoch, id);
  }

  /** The hook: with the epoch unchanged or one further, exactly the due proposals become
      active, whether they wait in the bucket of the new epoch or in the ready queue. */
  lemma HookEffect(s: State, domain: DomainId, epoch: EpochId, epoch': EpochId, height: nat, id: ItemId)
    requires CoreInv(s, domain, epoch) && epoch <= epoch' <= epoch + 1 && height > 0
    ensures Activates(s, OnInitialize(s, epoch', height), epoch', height, id, Due(s, epoch', id))
  {
    hide CoreInv, ActivateAll, CanActivate, Due, Remaining, Bucket;
    var s1 := ActivateAll(s, Bucket(s, epoch'), epoch', height);
    var s2 := ActivateAll(s1, s1.ready, epoch', height);
    var first := id in Bucket(s, epoch') && CanActivate(s, id, epoch');
    var second := id in s1.ready && CanActivate(s1, id, epoch');
    ActivateFrame(s, Bucket(s, epoch'), epoch', height);
    ActivateEffect(s, Bucket(s, epoch'), epoch', height, id);
    ActivateEffect(s1, s1.ready, epoch', height, id);
    ActivatedOnce(s, s1, epoch', height, id, first);
    ActivatesThen(s, s1, s2, epoch', height, id, first, second);
    DueIsQueued(s, domain, epoch, epoch', id);
    HookRecords(s, epoch', height);
  }

  lemma HookRecords(s: State, epoch: EpochId, height: nat)
    requires height > 0
    ensures var s1 := ActivateAll(s, Bucket(s, epoch), epoch, height);
            var s2 := ActivateAll(s1, s1.ready, epoch, height);
            var s' := OnInitialize(s, epoch, height);
            s'.proposals == s2.proposals && s'.activations == s2.activations
  {
  }

  lemma HookFrame(s: State, domain: DomainId, epoch: EpochId, epoch': EpochId, height: nat)
    requires CoreInv(s, domain, epoch) && epoch <= epoch' && height > 0
    ensures var s' := OnInitialize(s, epoch', height);
            s' == s.(protocolVersion := s'.protocolVersion, proposals := s'.proposals, activations := s'.activations,
                ready := [])
  {
    var s1 := ActivateAll(s, Bucket(s, epoch'), epoch', height);
    ActivateFrame(s, Bucket(s, epoch'), epoch', height);
    ActivateFrame(s1, s1.ready, epoch', height);
    forall id | id in s1.ready ensures CanActivate(s1, id, epoch') || (id in s1.proposals
      && s1.proposals[id].status == Activated) {
      DueCanActivate(s, domain, epoch, epoch', id);
      ActivateEffect(s, Bucket(s, epoch'), epoch', height, id);
    }
    NothingRemains(s1, s1.ready, epoch', height);
  }

  lemma HookRecord(s: State, s': State, domain: DomainId, epoch: EpochId, epoch': EpochId, height: nat, id: ItemId)
    requires RecordOk(s, domain, id) && Activates(s, s', epoch', height, id, Due(s, epoch', id))
    ensures RecordOk(s', domain, id) && ProposalGrows(s.proposals[id], s'.proposals[id])
  {
  }

  lemma HookPlaced(s: State, s': State, epoch: EpochId, epoch': EpochId, height: nat, id: ItemId)
    requires Placed(s, epoch, id) && Activates(s, s', epoch', height, id, Due(s, epoch', id))
    requires s'.scheduled == s.scheduled && epoch <= epoch'
    ensures Placed(s', epoch', id) && !Due(s', epoch', id)
  {
  }

  /** After the hook nothing due is left scheduled and the ready queue is empty. */
  lemma HookQueues(s: State, domain: DomainId, epoch: EpochId, epoch': EpochId, height: nat)
    requires CoreInv(s, domain, epoch) && epoch <= epoch' <= epoch + 1 && height > 0
    ensures var s' := OnInitialize(s, epoch', height);
            QueuesInv(s', epoch') && s'.ready == [] && forall id :: !Due(s', epoch', id)
  {
    var s' := OnInitialize(s, epoch', height);
    HookFrame(s, domain, epoch, epoch', height);
    forall id ensures Placed(s', epoch', id) && !Due(s', epoch', id) {
      HookEffect(s, domain, epoch, epoch', height, id);
      HookPlaced(s, s', epoch, epoch', height, id);
    }
    forall e: EpochId ensures BucketOk(s', e) {
      assert BucketOk(s, e);
      forall id | id in Bucket(s', e)
        ensures id in s'.proposals && s'.proposals[id].activationEpoch == e
        ensures s'.proposals[id].status == Scheduled || s'.proposals[id].status == Activated
      {
        HookEffect(s, domain, epoch, epoch', height, id);
      }
    }
  }

  lemma HookProposals(s: State, domain: DomainId, epoch: EpochId, epoch': EpochId, height: nat)
    requires CoreInv(s, domain, epoch) && epoch <= epoch' <= epoch + 1 && height > 0
    ensures var s' := OnInitialize(s, epoch', height);
            RecordsInv(s', domain) && ProposalsGrow(s.proposals, s'.proposals) && AcksSame(s, s')
  {
    var s' := OnInitialize(s, epoch', height);
    forall id | id in s.proposals || id in s'.proposals
      ensures id in s.proposals && RecordOk(s', domain, id) && ProposalGrows(s.proposals[id], s'.proposals[id])
    {
      HookEffect(s, domain, epoch, epoch', height, id);
      HookRecord(s, s', domain, epoch, epoch', height, id);
    }
    forall id | id in s'.activations
      ensures id in s.activations && s'.activations[id].knownAcks == s.activations[id].knownAcks
    {
      HookEffect(s, domain, epoch, epoch', height, id);
    }
  }

  lemma HookKeeps(s: State, domain: DomainId, epoch: EpochId, epoch': EpochId, height: nat)
    requires Inv(s, domain, epoch) && epoch <= epoch' <= epoch + 1 && height > 0
    ensures var s' := OnInitialize(s, epoch', height);
            Inv(s', domain, epoch') && Evolves(s, s', epoch) && AcksSame(s, s')
  {
    HookFrame(s, domain, epoch, epoch', height);
    HookQueues(s, domain, epoch, epoch', height);
    HookProposals(s, domain, epoch, epoch', height);
    LeavesUntouched(s, OnInitialize(s, epoch', height), domain, epoch, epoch');
  }

  // ---------- committed lists are stable ----------

  lemma {:induction false} LeavesByIdSame(a: map<Digest, GovernanceLeaf>, b: map<Digest, GovernanceLeaf>,
                                          ids: seq<Digest>)
    requires forall h :: h in ids ==> h in a && h in b && a[h] == b[h]
    ensures LeavesById(a, ids) == LeavesById(b, ids)
  {
    if ids != [] {
      LeavesByIdSame(a, b, ids[1..]);
    }
  }

  lemma ClosedEpochStable(s: State, s': State, domain: DomainId, epoch: EpochId, e: EpochId)
    requires Inv(s, domain, epoch) && Evolves(s, s', epoch) && e < epoch
    ensures CanonicalLeaves(s', e) == CanonicalLeaves(s, e)
  {
    assert LeafListOk(s, domain, epoch, e);
    LeavesByIdSame(s.leaves, s'.leaves, LeafIds(s, e));
  }

  /** The hook leaves every leaf list alone. */
  lemma HookLeaves(s: State, domain: DomainId, epoch: EpochId, epoch': EpochId, height: nat, e: EpochId)
    requires Inv(s, domain, epoch) && epoch <= epoch' && height > 0
    ensures CanonicalLeaves(OnInitialize(s, epoch', height), e) == CanonicalLeaves(s, e)
  {
    HookFrame(s, domain, epoch, epoch', height);
  }

  lemma {:induction false} LeavesByIdMembers(leaves: map<Digest, GovernanceLeaf>, ids: seq<Digest>,
                                             leaf: GovernanceLeaf)
    requires leaf in LeavesById(leaves, ids)
    ensures exists h :: h in ids && h in leaves && leaves[h] == leaf
  {
    if ids != [] {
      if !(ids[0] in leaves && leaves[ids[0]] == leaf) {
        LeavesByIdMembers(leaves, ids[1..], leaf);
        var h :| h in ids[1..] && h in leaves && leaves[h] == leaf;
        assert h in ids;
      }
    }
  }

  /** A committed governance leaf is backed by a stored proposal and belongs to that epoch. */
  lemma CommittedLeaf(s: State, domain: DomainId, epoch: EpochId, e: EpochId, leaf: GovernanceLeaf)
    requires LeavesInv(s, s.proposals, domain, epoch) && leaf in CanonicalLeaves(s, e)
    ensures leaf.Canonical() && LeafBacked(s.proposals, domain, leaf)
    ensures leaf.LeafEpoch() == e && leaf.OrderingDomain() == domain
  {
    SortMembers(LeavesById(s.leaves, LeafIds(s, e)), GovernanceLeq);
    LeavesByIdMembers(s.leaves, LeafIds(s, e), leaf);
    var h :| h in LeafIds(s, e) && h in s.leaves && s.leaves[h] == leaf;
    assert LeafOk(s, s.proposals, domain, h) && LeafListOk(s, domain, epoch, e);
  }
}
