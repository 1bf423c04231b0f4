/** What the governance pallet owes a proposal: leaves for everyone who must hear of it, every
    acknowledgement counted, and scheduling as soon as all targets have acknowledged. */
module GovernanceFlow {
  import opened Types
  import opened Sorting
  import opened Commitments
  import opened Governance
  import opened GovernanceProofs
  import opened GovernanceSteps

  // ---------- leaves ----------

  /** The leaf is committed to by epoch `e`. */
  predicate InList(s: State, e: EpochId, leaf: GovernanceLeaf) {
    leaf.leafHash in LeafIds(s, e) && leaf.leafHash in s.leaves && s.leaves[leaf.leafHash] == leaf
  }

  lemma {:induction false} ListedById(leaves: map<Digest, GovernanceLeaf>, ids: seq<Digest>, h: Digest)
    requires h in ids && h in leaves
    ensures leaves[h] in LeavesById(leaves, ids)
  {
    if ids[0] != h {
      ListedById(leaves, ids[1..], h);
    }
  }

  lemma InListIsCommitted(s: State, e: EpochId, leaf: GovernanceLeaf)
    requires InList(s, e, leaf)
    ensures leaf in CanonicalLeaves(s, e)
  {
    ListedById(s.leaves, LeafIds(s, e), leaf.leafHash);
    SortMembers(LeavesById(s.leaves, LeafIds(s, e)), GovernanceLeq);
  }

  lemma InListKept(s: State, s': State, epoch: EpochId, e: EpochId, leaf: GovernanceLeaf)
    requires InList(s, e, leaf) && LeavesGrow(s, s', epoch)
    ensures InList(s', e, leaf)
  {
  }

  lemma InsertedIsListed(s: State, epoch: EpochId, leaf: GovernanceLeaf, other: GovernanceLeaf)
    requires leaf.Canonical() && other.Canonical() && (other == leaf || InList(s, epoch, other))
    ensures InList(InsertLeaf(s, epoch, leaf), epoch, other)
  {
    if other.leafHash == leaf.leafHash {
      SameHashSameLeaf(other, leaf);
    }
  }

  lemma {:induction false} ProposalLeavesListed(s: State, p: Proposal, epoch: EpochId, targets: seq<DomainId>,
                                                t: DomainId)
    requires t in targets
    ensures InList(InsertProposalLeaves(s, p, epoch, targets), epoch, ProposalLeafFor(p, epoch, t))
    decreases |targets|
  {
    var n := |targets| - 1;
    var before := InsertProposalLeaves(s, p, epoch, targets[..n]);
    if t != targets[n] {
      ProposalLeavesListed(s, p, epoch, targets[..n], t);
    }
    InsertedIsListed(before, epoch, ProposalLeafFor(p, epoch, targets[n]), ProposalLeafFor(p, epoch, t));
  }

  lemma {:induction false} AckLeavesListed(s: State, p: Proposal, local: DomainId, epoch: EpochId,
                                           targets: seq<DomainId>, t: DomainId)
    requires t in targets
    ensures InList(InsertAckLeaves(s, p, local, epoch, targets), epoch, AckLeafFor(p, local, epoch, t))
    decreases |targets|
  {
    var n := |targets| - 1;
    var before := InsertAckLeaves(s, p, local, epoch, targets[..n]);
    if t != targets[n] {
      AckLeavesListed(s, p, local, epoch, targets[..n], t);
    }
    InsertedIsListed(before, epoch, AckLeafFor(p, local, epoch, targets[n]), AckLeafFor(p, local, epoch, t));
  }

  /** The source and every target but the chain itself. */
  predicate Concerned(p: Proposal, local: DomainId, x: DomainId) {
    x != local && (x == p.sourceDomain || x in p.targetDomains)
  }

  lemma FanoutIsConcerned(p: Proposal, local: DomainId, x: DomainId)
    ensures x in FanoutTargets(p, local) <==> Concerned(p, local, x)
  {
    SortedDomainsMembers(p.targetDomains + [p.sourceDomain]);
    WithoutExcludes(SortedDomains(p.targetDomains + [p.sourceDomain]), local);
  }

  // ---------- the invariant ----------

  predicate IsProposalLeaf(leaf: GovernanceLeaf, id: ItemId, t: DomainId) {
    leaf.ProposalLeaf? && leaf.proposal.proposalId == id && leaf.proposal.targetDomain == t
  }

  predicate IsAckLeaf(leaf: GovernanceLeaf, id: ItemId, x: DomainId) {
    leaf.AckLeaf? && leaf.ack.proposalId == id && leaf.ack.targetDomain == x
  }

  ghost predicate HasProposalLeaf(s: State, e: EpochId, id: ItemId, t: DomainId) {
    exists leaf :: InList(s, e, leaf) && IsProposalLeaf(leaf, id, t)
  }

  ghost predicate HasAckLeaf(s: State, e: EpochId, id: ItemId, x: DomainId) {
    exists leaf :: InList(s, e, leaf) && IsAckLeaf(leaf, id, x)
  }

  /** An approved local proposal becomes active four epochs after its approval, and has a leaf for
      each target in the epoch of its approval. */
  ghost predicate OutboundOk(s: State, domain: DomainId, id: ItemId) {
    id in s.proposals && s.proposals[id].sourceDomain == domain && Live(s.proposals[id].status) ==>
      var p := s.proposals[id];
      && p.approvalEpoch.Some? && p.activationEpoch == p.approvalEpoch.value + 4
      && forall t :: t in p.targetDomains ==> HasProposalLeaf(s, p.approvalEpoch.value, id, t)
  }

  /** An imported proposal has been acknowledged, with a leaf for everyone concerned. */
  ghost predicate InboundOk(s: State, domain: DomainId, id: ItemId) {
    id in s.proposals && s.proposals[id].sourceDomain != domain ==>
      && (id, domain) in s.acks
      && forall x :: Concerned(s.proposals[id], domain, x) ==>
           HasAckLeaf(s, s.acks[(id, domain)].acknowledgedEpoch, id, x)
  }

  /** A recorded acknowledgement counts, and repeats the facts of its proposal. */
  ghost predicate AckCounts(s: State, k: (ItemId, DomainId)) {
    k in s.acks ==>
      && Knows(s, k.0, k.1) && k.0 in s.proposals
      && var p, r := s.proposals[k.0], s.acks[k];
         && Live(p.status) && r.sourceDomain == p.sourceDomain && r.targetDomains == p.targetDomains
         && r.payloadHash == p.payloadHash && r.newVersion == p.newVersion && r.activationEpoch == p.activationEpoch
  }

  /** Nothing fully acknowledged waits to be scheduled. */
  ghost predicate PromptAt(s: State, id: ItemId) {
    id in s.activations && HasFullAckSet(s.activations[id]) ==>
      s.activations[id].status == Scheduled || s.activations[id].status == Activated
  }

  ghost predicate LeavesPresent(s: State, domain: DomainId) {
    forall id :: OutboundOk(s, domain, id) && InboundOk(s, domain, id)
  }

  ghost predicate AcksCount(s: State) { forall k :: AckCounts(s, k) }

  ghost predicate Prompt(s: State) { forall id :: PromptAt(s, id) }

  ghost predicate FlowInv(s: State, domain: DomainId) { LeavesPresent(s, domain) && AcksCount(s) && Prompt(s) }

  /** Acknowledgements are kept and stay counted. */
  ghost predicate FlowGrows(s: State, s': State) {
    && (forall k :: k in s.acks ==> k in s'.acks && s'.acks[k] == s.acks[k])
    && (forall id, k :: Knows(s, id, k) ==> Knows(s', id, k))
  }

  /** Seen from the roots: the epoch of the approval commits to a leaf for each target. */
  lemma ApprovedIsCommitted(s: State, domain: DomainId, id: ItemId, t: DomainId) returns (leaf: GovernanceLeaf)
    requires FlowInv(s, domain) && id in s.proposals && Live(s.proposals[id].status)
    requires s.proposals[id].sourceDomain == domain && t in s.proposals[id].targetDomains
    ensures s.proposals[id].approvalEpoch.Some?
    ensures s.proposals[id].activationEpoch == s.proposals[id].approvalEpoch.value + 4
    ensures leaf in CanonicalLeaves(s, s.proposals[id].approvalEpoch.value) && IsProposalLeaf(leaf, id, t)
  {
    hide CanonicalLeaves;
    assert OutboundOk(s, domain, id);
    var e := s.proposals[id].approvalEpoch.value;
    leaf :| InList(s, e, leaf) && IsProposalLeaf(leaf, id, t);
    InListIsCommitted(s, e, leaf);
  }

  /** The epoch of the import commits to an acknowledgement for the source and for each other target. */
  lemma ImportIsCommitted(s: State, domain: DomainId, id: ItemId, x: DomainId) returns (leaf: GovernanceLeaf)
    requires FlowInv(s, domain) && id in s.proposals && s.proposals[id].sourceDomain != domain
    requires x != domain && (x == s.proposals[id].sourceDomain || x in s.proposals[id].targetDomains)
    ensures (id, domain) in s.acks
    ensures leaf in CanonicalLeaves(s, s.acks[(id, domain)].acknowledgedEpoch) && IsAckLeaf(leaf, id, x)
  {
    hide CanonicalLeaves;
    assert InboundOk(s, domain, id) && Concerned(s.proposals[id], domain, x);
    var e := s.acks[(id, domain)].acknowledgedEpoch;
    leaf :| InList(s, e, leaf) && IsAckLeaf(leaf, id, x);
    InListIsCommitted(s, e, leaf);
  }

  // ---------- keeping it ----------

  lemma OutboundKept(s: State, s': State, domain: DomainId, epoch: EpochId, id: ItemId)
    requires OutboundOk(s, domain, id) && LeavesGrow(s, s', epoch)
    requires id in s.proposals && id in s'.proposals && Live(s.proposals[id].status)
    requires ProposalGrows(s.proposals[id], s'.proposals[id])
    ensures OutboundOk(s', domain, id)
  {
    var p := s.proposals[id];
    if p.sourceDomain == domain {
      forall t | t in p.targetDomains ensures HasProposalLeaf(s', p.approvalEpoch.value, id, t) {
        var leaf :| InList(s, p.approvalEpoch.value, leaf) && IsProposalLeaf(leaf, id, t);
        InListKept(s, s', epoch, p.approvalEpoch.value, leaf);
      }
    }
  }

  lemma InboundKept(s: State, s': State, domain: DomainId, epoch: EpochId, id: ItemId)
    requires InboundOk(s, domain, id) && LeavesGrow(s, s', epoch) && FlowGrows(s, s')
    requires id in s.proposals && id in s'.proposals && ProposalGrows(s.proposals[id], s'.proposals[id])
    ensures InboundOk(s', domain, id)
  {
    var p := s.proposals[id];
    if p.sourceDomain != domain {
      var e := s.acks[(id, domain)].acknowledgedEpoch;
      forall x | Concerned(p, domain, x) ensures HasAckLeaf(s', e, id, x) {
        var leaf :| InList(s, e, leaf) && IsAckLeaf(leaf, id, x);
        InListKept(s, s', epoch, e, leaf);
      }
    }
  }

  /** Every known id but `newest`, whose turn is taken care of separately. */
  lemma LeavesPresentKept(s: State, s': State, domain: DomainId, epoch: EpochId, newest: ItemId)
    requires LeavesPresent(s, domain) && Evolves(s, s', epoch) && FlowGrows(s, s')
    requires OutboundOk(s', domain, newest) && InboundOk(s', domain, newest)
    requires forall id :: id in s'.proposals && id != newest ==>
               id in s.proposals && (Live(s'.proposals[id].status) ==> Live(s.proposals[id].status))
    ensures LeavesPresent(s', domain)
  {
    hide HasProposalLeaf, HasAckLeaf;
    forall id ensures OutboundOk(s', domain, id) && InboundOk(s', domain, id) {
      if id != newest && id in s'.proposals {
        assert OutboundOk(s, domain, id) && InboundOk(s, domain, id);
        assert ProposalGrows(s.proposals[id], s'.proposals[id]);
        InboundKept(s, s', domain, epoch, id);
        if Live(s'.proposals[id].status) {
          OutboundKept(s, s', domain, epoch, id);
        }
      }
    }
  }

  lemma AckCountsKept(s: State, s': State, epoch: EpochId, k: (ItemId, DomainId))
    requires AckCounts(s, k) && k in s.acks && Evolves(s, s', epoch) && FlowGrows(s, s')
    ensures AckCounts(s', k)
  {
    assert ProposalGrows(s.proposals[k.0], s'.proposals[k.0]);
  }

  /** Steps that leave acknowledgements, activation records and leaves alone. */
  lemma QuietStep(s: State, s': State, domain: DomainId, epoch: EpochId, id: ItemId)
    requires FlowInv(s, domain) && Evolves(s, s', epoch) && s'.acks == s.acks && s'.activations == s.activations
    requires id in s'.proposals && s'.proposals == s.proposals[id := s'.proposals[id]] && !Live(s'.proposals[id].status)
    requires s'.proposals[id].sourceDomain == domain
    ensures FlowInv(s', domain) && FlowGrows(s, s')
  {
    hide LeavesPresent, OutboundOk, InboundOk, Evolves;
    assert FlowGrows(s, s');
    Unapproved(s', domain, id);
    LeavesPresentQuiet(s, s', domain, epoch, id);
    forall k ensures AckCounts(s', k) {
      assert AckCounts(s, k);
      if k in s.acks {
        AckCountsKept(s, s', epoch, k);
      }
    }
    forall k ensures PromptAt(s', k) {
      assert PromptAt(s, k);
    }
  }

  lemma Unapproved(s: State, domain: DomainId, id: ItemId)
    requires id in s.proposals && !Live(s.proposals[id].status) && s.proposals[id].sourceDomain == domain
    ensures OutboundOk(s, domain, id) && InboundOk(s, domain, id)
  {
  }

  lemma LeavesPresentQuiet(s: State, s': State, domain: DomainId, epoch: EpochId, id: ItemId)
    requires LeavesPresent(s, domain) && Evolves(s, s', epoch) && FlowGrows(s, s')
    requires id in s'.proposals && s'.proposals == s.proposals[id := s'.proposals[id]]
    requires OutboundOk(s', domain, id) && InboundOk(s', domain, id)
    ensures LeavesPresent(s', domain)
  {
    LeavesPresentKept(s, s', domain, epoch, id);
  }

  // ---------- the calls ----------

  lemma CreateFlow(s: State, env: Env, who: Account, targets: seq<DomainId>, newVersion: nat,
                   balances: map<Account, nat>, s': State)
    requires Inv(s, env.domain, env.epoch) && FlowInv(s, env.domain)
    requires CreateProposal(s, env, who, targets, newVersion, balances) == Ok(s')
    requires ItemId(env.domain, s.nextSequence) !in s.proposals
    ensures FlowInv(s', env.domain) && FlowGrows(s, s')
  {
    hide FlowInv, Inv, Evolves, FlowGrows;
    CreateKeeps(s, env, who, targets, newVersion, balances, s');
    QuietStep(s, s', env.domain, env.epoch, ItemId(env.domain, s.nextSequence));
  }

  lemma CastVoteFlow(s: State, env: Env, who: Account, id: ItemId, choice: Choice, s': State)
    requires Inv(s, env.domain, env.epoch) && FlowInv(s, env.domain) && CastVote(s, env, who, id, choice) == Ok(s')
    ensures FlowInv(s', env.domain) && FlowGrows(s, s')
  {
    hide FlowInv, Evolves, FlowGrows, LeavesInv, QueuesInv;
    CastVoteKeeps(s, env, who, id, choice, s');
    VotingUnapproved(s, env.domain, env.epoch, id);
    QuietStep(s, s', env.domain, env.epoch, id);
  }

  /** What an approval commits to: activation four epochs later, and a leaf for every target. */
  lemma ApprovalCommits(s: State, domain: DomainId, epoch: EpochId, id: ItemId)
    requires Inv(s, domain, epoch) && id in s.proposals && s.proposals[id].status == Voting
    ensures var s' := Approval(s, epoch, id);
            && id in s'.proposals && s'.proposals[id].status == LocallyFinalized
            && s'.proposals[id].approvalEpoch == Some(epoch) && s'.proposals[id].activationEpoch == epoch + 4
            && s'.proposals[id].sourceDomain == domain
            && s'.proposals[id].targetDomains == s.proposals[id].targetDomains
            && s'.acks == s.acks && id !in s.activations && id in s'.activations
            && s'.activations == s.activations[id := s'.activations[id]]
            && s'.proposals == s.proposals[id := s'.proposals[id]]
            && forall t :: t in s'.proposals[id].targetDomains ==> HasProposalLeaf(s', epoch, id, t)
  {
    hide CoreInv, LeavesInv, LeavesGrow, InsertProposalLeaves;
    VotingUnapproved(s, domain, epoch, id);
    var p' := Approve(s.proposals[id], epoch);
    var s1 := s.(activations := s.activations[id := ActivationFor(p', [])]);
    ApproveLeaves(s, domain, epoch, id, p', s1);
    var s' := Approval(s, epoch, id);
    forall t | t in p'.targetDomains ensures HasProposalLeaf(s', epoch, id, t) {
      ProposalLeavesListed(s1, p', epoch, p'.targetDomains, t);
      assert InList(s', epoch, ProposalLeafFor(p', epoch, t));
    }
  }

  lemma ApprovalFlow(s: State, domain: DomainId, epoch: EpochId, id: ItemId)
    requires Inv(s, domain, epoch) && FlowInv(s, domain) && id in s.proposals && s.proposals[id].status == Voting
    ensures FlowInv(Approval(s, epoch, id), domain) && FlowGrows(s, Approval(s, epoch, id))
  {
    hide CoreInv, LeavesInv, LeavesPresent, Evolves, HasProposalLeaf, HasAckLeaf, Approval;
    var s' := Approval(s, epoch, id);
    VotingUnapproved(s, domain, epoch, id);
    ApproveKeeps(s, domain, epoch, id, s');
    ApprovalCommits(s, domain, epoch, id);
    NewlyApproved(s, s', domain, epoch, id);
    assert FlowGrows(s, s');
    LeavesPresentQuiet(s, s', domain, epoch, id);
    AcksCountQuiet(s, s', epoch);
    ApprovedWaits(s, s', domain, epoch, id);
  }

  lemma NewlyApproved(s: State, s': State, domain: DomainId, epoch: EpochId, id: ItemId)
    requires id in s'.proposals && s'.proposals[id].approvalEpoch == Some(epoch)
    requires s'.proposals[id].activationEpoch == epoch + 4 && s'.proposals[id].sourceDomain == domain
    requires forall t :: t in s'.proposals[id].targetDomains ==> HasProposalLeaf(s', epoch, id, t)
    ensures OutboundOk(s', domain, id) && InboundOk(s', domain, id)
  {
  }

  lemma AcksCountQuiet(s: State, s': State, epoch: EpochId)
    requires AcksCount(s) && Evolves(s, s', epoch) && FlowGrows(s, s') && s'.acks == s.acks
    ensures AcksCount(s')
  {
    forall k ensures AckCounts(s', k) {
      assert AckCounts(s, k);
      if k in s.acks {
        AckCountsKept(s, s', epoch, k);
      }
    }
  }

  /** A newly approved proposal has targets and no acknowledgements yet. */
  lemma ApprovedWaits(s: State, s': State, domain: DomainId, epoch: EpochId, id: ItemId)
    requires Prompt(s) && Inv(s', domain, epoch) && id in s'.activations && id in s'.proposals
    requires s'.activations == s.activations[id := s'.activations[id]]
    requires id !in s.activations && AcksSame(s, s')
    ensures Prompt(s')
  {
    hide LeavesInv, QueuesInv;
    assert RecordOk(s', domain, id);
    var a := s'.activations[id];
    assert a.targetDomains[0] in a.targetDomains && a.targetDomains[0] !in a.knownAcks;
    forall k ensures PromptAt(s', k) {
      assert PromptAt(s, k);
    }
  }

  lemma CloseFlow(s: State, env: Env, id: ItemId, s': State)
    requires Inv(s, env.domain, env.epoch) && FlowInv(s, env.domain) && CloseProposal(s, env, id) == Ok(s')
    ensures FlowInv(s', env.domain) && FlowGrows(s, s')
  {
    hide FlowInv, Evolves, FlowGrows, LeavesInv, CoreInv, QuorumMet, Approved, InsertProposalLeaves, ActivationFor;
    VotingUnapproved(s, env.domain, env.epoch, id);
    if QuorumMet(s.proposals[id]) && Approved(s.proposals[id]) {
      ApprovalFlow(s, env.domain, env.epoch, id);
    } else {
      CloseKeeps(s, env, id, s');
      QuietStep(s, s', env.domain, env.epoch, id);
    }
  }

  // ---------- scheduling ----------

  ghost predicate PromptBut(s: State, id: ItemId) { forall k :: k != id ==> PromptAt(s, k) }

  /** The scheduling attempt catches up with the one record that may be late. */
  lemma ScheduleIsPrompt(s: State, domain: DomainId, epoch: EpochId, id: ItemId)
    requires RecordsInv(s, domain) && PromptBut(s, id)
    ensures Prompt(MaybeSchedule(s, id, epoch))
  {
    var s' := MaybeSchedule(s, id, epoch);
    if id in s.activations {
      assert RecordOk(s, domain, id);
    }
    forall k ensures PromptAt(s', k) {
      if k != id {
        assert PromptAt(s, k);
      }
    }
  }

  lemma ScheduleKnows(s: State, id: ItemId, epoch: EpochId)
    ensures var s' := MaybeSchedule(s, id, epoch);
            && s'.acks == s.acks && (forall k, d :: Knows(s', k, d) <==> Knows(s, k, d))
            && s'.leaves == s.leaves && s'.epochLeafIds == s.epochLeafIds
  {
    hide HasFullAckSet, Enqueue, Bucket;
  }

  lemma WithAckKnows(s: State, id: ItemId, acking: DomainId)
    requires id in s.activations
    ensures forall k, d :: Knows(WithAck(s, id, acking), k, d) <==> Knows(s, k, d) || (k == id && d == acking)
  {
    SortedDomainsMembers(s.activations[id].knownAcks + [acking]);
  }

  lemma OthersPrompt(s: State, id: ItemId, acking: DomainId)
    requires Prompt(s) && id in s.activations
    ensures PromptBut(s, id) && PromptBut(WithAck(s, id, acking), id)
  {
    hide SortedDomains;
    forall k | k != id ensures PromptAt(WithAck(s, id, acking), k) {
      assert PromptAt(s, k);
    }
  }

  /** An acknowledgement of an approved proposal is counted at once, and the last one missing
      schedules it. */
  lemma NoteAckFlow(s: State, domain: DomainId, epoch: EpochId, id: ItemId, acking: DomainId)
    requires CoreInv(s, domain, epoch) && Prompt(s) && id in s.activations
    ensures var s' := NoteAck(s, id, acking, epoch);
            && Prompt(s') && s'.acks == s.acks && s'.leaves == s.leaves && s'.epochLeafIds == s.epochLeafIds
            && forall k, d :: Knows(s', k, d) <==> Knows(s, k, d) || (k == id && d == acking)
  {
    hide MaybeSchedule, CoreInv, SortedDomains, RecordsInv, Prompt, PromptBut;
    OthersPrompt(s, id, acking);
    if acking !in s.activations[id].knownAcks {
      var s1 := WithAck(s, id, acking);
      WithAckKnows(s, id, acking);
      AddAckKeeps(s, domain, epoch, id, acking, s1);
      CoreRecords(s1, domain, epoch);
      ScheduleIsPrompt(s1, domain, epoch, id);
      ScheduleKnows(s1, id, epoch);
    } else {
      CoreRecords(s, domain, epoch);
      ScheduleIsPrompt(s, domain, epoch, id);
      ScheduleKnows(s, id, epoch);
    }
  }

  // ---------- imports ----------

  /** What an import commits to: an acknowledgement of its own, and a leaf for everyone concerned. */
  lemma ImportCommits(s: State, env: Env, who: Account, leaf: ProposalLeafInput, s': State)
    requires Inv(s, env.domain, env.epoch) && ImportProposal(s, env, who, leaf) == Ok(s')
    ensures var id := leaf.proposalId;
            && id !in s.proposals && id in s'.proposals && s'.proposals[id].sourceDomain != env.domain
            && s'.proposals.Keys == s.proposals.Keys + {id}
            && (id, env.domain) in s'.acks && s'.acks == s.acks[(id, env.domain) := s'.acks[(id, env.domain)]]
            && s'.acks[(id, env.domain)].acknowledgedEpoch == env.epoch
            && s'.acks[(id, env.domain)].acknowledgedAtHeight == env.height
            && (forall x :: Concerned(s'.proposals[id], env.domain, x) ==> HasAckLeaf(s', env.epoch, id, x))
            && (forall k, d :: Knows(s', k, d) <==> Knows(s, k, d) || (k == id && d == env.domain))
  {
    hide CoreInv, LeavesInv, AcksFrom, ProposalsGrow, MaybeSchedule, InsertAckLeaves, FanoutTargets, Knows;
    var p := ImportedProposal(leaf);
    var s1 := Stored(s, env.domain, leaf);
    var s2 := RecordLocalAck(s1, p, env);
    StoredKeeps(s, env.domain, env.epoch, leaf);
    RecordLocalAckKeeps(s1, env, p);
    LocalAckRecord(s1, p, env);
    StoredKnows(s, env.domain, env.epoch, leaf);
    SameKnowledge(s1, s2);
    ScheduleKnows(s2, leaf.proposalId, env.epoch);
    ScheduledFacts(s2, leaf.proposalId, env.epoch);
    forall x | Concerned(s'.proposals[leaf.proposalId], env.domain, x)
      ensures HasAckLeaf(s', env.epoch, leaf.proposalId, x)
    {
      FanoutIsConcerned(p, env.domain, x);
      FannedOut(s1, p, env, x);
      assert InList(s', env.epoch, AckLeafFor(p, env.domain, env.epoch, x));
    }
  }

  lemma FannedOut(s1: State, p: Proposal, env: Env, x: DomainId)
    requires x in FanoutTargets(p, env.domain)
    ensures InList(RecordLocalAck(s1, p, env), env.epoch, AckLeafFor(p, env.domain, env.epoch, x))
  {
    hide InsertAckLeaves, FanoutTargets;
    var a := s1.(acks := s1.acks[(p.proposalId, env.domain) :=
      AckRecord(p.sourceDomain, p.targetDomains, p.activationEpoch, p.payloadHash, p.newVersion, env.epoch,
                env.height)]);
    AckLeavesListed(a, p, env.domain, env.epoch, FanoutTargets(p, env.domain), x);
  }

  lemma SameKnowledge(s: State, s': State)
    requires s'.activations == s.activations
    ensures forall k, d :: Knows(s', k, d) <==> Knows(s, k, d)
  {
  }

  lemma StoredKnows(s: State, domain: DomainId, epoch: EpochId, leaf: ProposalLeafInput)
    requires Inv(s, domain, epoch) && leaf.proposalId !in s.proposals
    ensures forall k, d :: Knows(Stored(s, domain, leaf), k, d) <==>
              Knows(s, k, d) || (k == leaf.proposalId && d == domain)
  {
    SortedDomainsMembers([domain]);
  }

  /** Scheduling keeps the facts of every proposal. */
  lemma ScheduledFacts(s: State, id: ItemId, epoch: EpochId)
    ensures var s' := MaybeSchedule(s, id, epoch);
            && s'.proposals.Keys == s.proposals.Keys
            && forall k :: k in s.proposals ==>
                 && s'.proposals[k].sourceDomain == s.proposals[k].sourceDomain
                 && s'.proposals[k].targetDomains == s.proposals[k].targetDomains
  {
    hide HasFullAckSet, Enqueue, Bucket;
  }

  lemma ImportProposalFlow(s: State, env: Env, who: Account, leaf: ProposalLeafInput, s': State)
    requires Inv(s, env.domain, env.epoch) && FlowInv(s, env.domain) && ImportProposal(s, env, who, leaf) == Ok(s')
    ensures FlowInv(s', env.domain) && FlowGrows(s, s')
  {
    hide CoreInv, LeavesInv, LeavesPresent, Evolves, HasAckLeaf, HasProposalLeaf, ImportProposal, Knows, AckCounts;
    hide PromptAt;
    ImportProposalKeeps(s, env, who, leaf, s');
    ImportCommits(s, env, who, leaf, s');
    NotYetAcked(s, leaf.proposalId, env.domain);
    forall k | k in s.proposals ensures k in s'.proposals && s'.proposals[k] == s.proposals[k] {
      ImportLeavesStatuses(s, env, who, leaf, s', k);
    }
    ImportedLeaves(s, s', env.domain, env.epoch, leaf.proposalId);
    ImportedAcks(s, s', env, who, leaf);
    ImportedPrompt(s, s', env, who, leaf);
  }

  lemma NotYetAcked(s: State, id: ItemId, k: DomainId)
    requires AcksCount(s) && id !in s.proposals
    ensures (id, k) !in s.acks
  {
    assert AckCounts(s, (id, k));
  }

  lemma ImportedLeaves(s: State, s': State, domain: DomainId, epoch: EpochId, id: ItemId)
    requires LeavesPresent(s, domain) && Evolves(s, s', epoch) && FlowGrows(s, s')
    requires s'.proposals.Keys == s.proposals.Keys + {id} && s'.proposals[id].sourceDomain != domain
    requires id !in s.proposals && (id, domain) in s'.acks && s'.acks[(id, domain)].acknowledgedEpoch == epoch
    requires forall x :: Concerned(s'.proposals[id], domain, x) ==> HasAckLeaf(s', epoch, id, x)
    requires forall k :: k in s.proposals ==> Live(s'.proposals[k].status) ==> Live(s.proposals[k].status)
    ensures LeavesPresent(s', domain)
  {
    LeavesPresentKept(s, s', domain, epoch, id);
  }

  /** An import approves nothing that was known before. */
  lemma ImportLeavesStatuses(s: State, env: Env, who: Account, leaf: ProposalLeafInput, s': State, k: ItemId)
    requires Inv(s, env.domain, env.epoch) && ImportProposal(s, env, who, leaf) == Ok(s') && k in s.proposals
    ensures k in s'.proposals && s'.proposals[k] == s.proposals[k]
  {
    hide CoreInv, LeavesInv, AcksFrom, ProposalsGrow, InsertAckLeaves, FanoutTargets, HasFullAckSet, Enqueue, Bucket;
    var p := ImportedProposal(leaf);
    var s1 := Stored(s, env.domain, leaf);
    StoredKeeps(s, env.domain, env.epoch, leaf);
    RecordLocalAckKeeps(s1, env, p);
  }

  lemma ImportedAcks(s: State, s': State, env: Env, who: Account, leaf: ProposalLeafInput)
    requires Inv(s, env.domain, env.epoch) && AcksCount(s) && ImportProposal(s, env, who, leaf) == Ok(s')
    requires Evolves(s, s', env.epoch) && FlowGrows(s, s') && Inv(s', env.domain, env.epoch)
    requires var key := (leaf.proposalId, env.domain);
             key in s'.acks && s'.acks == s.acks[key := s'.acks[key]] && Knows(s', key.0, key.1)
    ensures AcksCount(s')
  {
    hide CoreInv, LeavesInv, Evolves, FlowGrows, ImportProposal, Knows;
    forall k ensures AckCounts(s', k) {
      assert AckCounts(s, k);
      if k == (leaf.proposalId, env.domain) {
        ImportedAckFacts(s, s', env, who, leaf);
      } else if k in s.acks {
        AckCountsKept(s, s', env.epoch, k);
      }
    }
  }

  lemma ImportedAckFacts(s: State, s': State, env: Env, who: Account, leaf: ProposalLeafInput)
    requires Inv(s, env.domain, env.epoch) && ImportProposal(s, env, who, leaf) == Ok(s')
    ensures var key := (leaf.proposalId, env.domain);
            && key in s'.acks && key.0 in s'.proposals
            && var p, r := s'.proposals[key.0], s'.acks[key];
               && Live(p.status) && r.sourceDomain == p.sourceDomain && r.targetDomains == p.targetDomains
               && r.payloadHash == p.payloadHash && r.newVersion == p.newVersion
               && r.activationEpoch == p.activationEpoch
  {
    hide CoreInv, LeavesInv, AcksFrom, ProposalsGrow, InsertAckLeaves, FanoutTargets, HasFullAckSet, Enqueue, Bucket;
    var p := ImportedProposal(leaf);
    var s1 := Stored(s, env.domain, leaf);
    StoredKeeps(s, env.domain, env.epoch, leaf);
    RecordLocalAckKeeps(s1, env, p);
    LocalAckRecord(s1, p, env);
  }

  lemma LocalAckRecord(s1: State, p: Proposal, env: Env)
    requires LeavesInv(s1, s1.proposals, env.domain, env.epoch)
    requires p.proposalId in s1.proposals && s1.proposals[p.proposalId] == p && Live(p.status)
    requires p.sourceDomain != env.domain && env.domain in p.targetDomains
    ensures var s2 := RecordLocalAck(s1, p, env);
            s2.acks == s1.acks[(p.proposalId, env.domain) :=
              AckRecord(p.sourceDomain, p.targetDomains, p.activationEpoch, p.payloadHash, p.newVersion, env.epoch,
                        env.height)]
  {
    var a := s1.(acks := s1.acks[(p.proposalId, env.domain) :=
      AckRecord(p.sourceDomain, p.targetDomains, p.activationEpoch, p.payloadHash, p.newVersion, env.epoch,
                env.height)]);
    LeavesFields(s1, a, s1.proposals, env.domain, env.epoch);
    WithoutExcludes(SortedDomains(p.targetDomains + [p.sourceDomain]), env.domain);
    AckLeavesKeep(a, s1.proposals, env.domain, env.epoch, p, FanoutTargets(p, env.domain));
  }

  lemma ImportedPrompt(s: State, s': State, env: Env, who: Account, leaf: ProposalLeafInput)
    requires Inv(s, env.domain, env.epoch) && Prompt(s) && ImportProposal(s, env, who, leaf) == Ok(s')
    ensures Prompt(s')
  {
    hide LeavesInv, AcksFrom, ProposalsGrow, MaybeSchedule, RecordLocalAck, QueuesInv;
    var p := ImportedProposal(leaf);
    var s1 := Stored(s, env.domain, leaf);
    var s2 := RecordLocalAck(s1, p, env);
    StoredKeeps(s, env.domain, env.epoch, leaf);
    RecordLocalAckKeeps(s1, env, p);
    CoreFields(s1, s2, env.domain, env.epoch);
    forall k | k != leaf.proposalId ensures PromptAt(s2, k) {
      assert PromptAt(s, k);
    }
    ScheduleIsPrompt(s2, env.domain, env.epoch, leaf.proposalId);
  }

  /** The state with the record of an acknowledgement, before it is counted. */
  function AckStored(s: State, env: Env, leaf: AckLeafInput): State {
    s.(acks := s.acks[(leaf.proposalId, leaf.acknowledgingDomain) :=
      AckRecord(leaf.sourceDomain, leaf.targetDomains, leaf.activationEpoch, leaf.payloadHash, leaf.newVersion,
                leaf.acknowledgedEpoch, env.height)])
  }

  lemma ImportAckShape(s: State, env: Env, who: Account, leaf: AckLeafInput, s': State)
    requires ImportAck(s, env, who, leaf) == Ok(s')
    ensures s' == NoteAck(AckStored(s, env, leaf), leaf.proposalId, leaf.acknowledgingDomain, env.epoch)
    ensures leaf.proposalId in s.proposals && FactsMatch(s.proposals[leaf.proposalId], leaf)
    ensures (leaf.proposalId, leaf.acknowledgingDomain) !in s.acks
  {
    hide NoteAck;
  }

  lemma CountedAck(s: State, env: Env, leaf: AckLeafInput, s': State)
    requires CoreInv(s, env.domain, env.epoch) && Prompt(s) && leaf.proposalId in s.activations
    requires s' == NoteAck(AckStored(s, env, leaf), leaf.proposalId, leaf.acknowledgingDomain, env.epoch)
    ensures Prompt(s') && s'.acks == AckStored(s, env, leaf).acks && s'.proposals.Keys == s.proposals.Keys
    ensures forall k, d :: Knows(s', k, d) <==>
              Knows(s, k, d) || (k == leaf.proposalId && d == leaf.acknowledgingDomain)
    ensures forall k :: k in s.proposals ==> (Live(s'.proposals[k].status) <==> Live(s.proposals[k].status))
  {
    hide NoteAck, CoreInv, Knows;
    var s1 := AckStored(s, env, leaf);
    CoreFields(s, s1, env.domain, env.epoch);
    forall k ensures PromptAt(s1, k) {
      assert PromptAt(s, k);
    }
    SameKnowledge(s, s1);
    NoteAckFlow(s1, env.domain, env.epoch, leaf.proposalId, leaf.acknowledgingDomain);
    NoteAckFacts(s1, leaf.proposalId, leaf.acknowledgingDomain, env.epoch);
  }

  /** An acknowledgement of an approved proposal is recorded and counted. */
  lemma ImportAckFlow(s: State, env: Env, who: Account, leaf: AckLeafInput, s': State)
    requires Inv(s, env.domain, env.epoch) && FlowInv(s, env.domain) && ImportAck(s, env, who, leaf) == Ok(s')
    requires leaf.proposalId in s.activations
    ensures FlowInv(s', env.domain) && FlowGrows(s, s') && Knows(s', leaf.proposalId, leaf.acknowledgingDomain)
  {
    hide LeavesPresent, AcksCount, Prompt, Evolves, Knows, LeavesInv, CoreInv, NoteAck, ImportAck;
    ImportAckKeeps(s, env, who, leaf, s');
    ImportAckShape(s, env, who, leaf, s');
    CountedAck(s, env, leaf, s');
    assert FlowGrows(s, s');
    AckedLeaves(s, s', env.domain, env.epoch);
    AckedRecords(s, s', env, leaf);
  }

  /** Counting an acknowledgement adds no proposal and approves none. */
  lemma NoteAckFacts(s: State, id: ItemId, acking: DomainId, epoch: EpochId)
    ensures var s' := NoteAck(s, id, acking, epoch);
            && s'.proposals.Keys == s.proposals.Keys
            && forall k :: k in s.proposals ==> (Live(s'.proposals[k].status) <==> Live(s.proposals[k].status))
  {
    hide MaybeSchedule, SortedDomains;
    ScheduleStatuses(s, id, epoch);
    if id in s.activations {
      ScheduleStatuses(WithAck(s, id, acking), id, epoch);
    }
  }

  lemma ScheduleStatuses(s: State, id: ItemId, epoch: EpochId)
    ensures var s' := MaybeSchedule(s, id, epoch);
            && s'.proposals.Keys == s.proposals.Keys
            && forall k :: k in s.proposals ==> (Live(s'.proposals[k].status) <==> Live(s.proposals[k].status))
  {
    hide HasFullAckSet, Enqueue, Bucket;
  }

  lemma AckedLeaves(s: State, s': State, domain: DomainId, epoch: EpochId)
    requires LeavesPresent(s, domain) && Evolves(s, s', epoch) && FlowGrows(s, s')
    requires s'.proposals.Keys == s.proposals.Keys
    requires forall k :: k in s.proposals ==> (Live(s'.proposals[k].status) <==> Live(s.proposals[k].status))
    ensures LeavesPresent(s', domain)
  {
    hide HasProposalLeaf, HasAckLeaf;
    forall id ensures OutboundOk(s', domain, id) && InboundOk(s', domain, id) {
      if id in s'.proposals {
        assert OutboundOk(s, domain, id) && InboundOk(s, domain, id);
        assert ProposalGrows(s.proposals[id], s'.proposals[id]);
        InboundKept(s, s', domain, epoch, id);
        if Live(s'.proposals[id].status) {
          OutboundKept(s, s', domain, epoch, id);
        }
      }
    }
  }

  lemma AckedRecords(s: State, s': State, env: Env, leaf: AckLeafInput)
    requires AcksCount(s) && Evolves(s, s', env.epoch) && FlowGrows(s, s') && leaf.proposalId in s.proposals
    requires FactsMatch(s.proposals[leaf.proposalId], leaf) && CoreInv(s, env.domain, env.epoch)
    requires leaf.proposalId in s.activations && Knows(s', leaf.proposalId, leaf.acknowledgingDomain)
    requires s'.acks == s.acks[(leaf.proposalId, leaf.acknowledgingDomain) :=
      AckRecord(leaf.sourceDomain, leaf.targetDomains, leaf.activationEpoch, leaf.payloadHash, leaf.newVersion,
                leaf.acknowledgedEpoch, env.height)]
    ensures AcksCount(s')
  {
    hide QueuesInv, LeavesGrow, FlowGrows, Knows;
    assert RecordOk(s, env.domain, leaf.proposalId);
    assert ProposalGrows(s.proposals[leaf.proposalId], s'.proposals[leaf.proposalId]);
    forall k ensures AckCounts(s', k) {
      assert AckCounts(s, k);
      if k in s.acks && k != (leaf.proposalId, leaf.acknowledgingDomain) {
        AckCountsKept(s, s', env.epoch, k);
      }
    }
  }

  // ---------- the hook ----------

  lemma HookFlow(s: State, domain: DomainId, epoch: EpochId, epoch': EpochId, height: nat)
    requires Inv(s, domain, epoch) && FlowInv(s, domain) && epoch <= epoch' <= epoch + 1 && height > 0
    ensures var s' := OnInitialize(s, epoch', height);
            FlowInv(s', domain) && FlowGrows(s, s')
  {
    hide LeavesPresent, Evolves, LeavesInv, CoreInv, OnInitialize, AckCounts;
    var s' := OnInitialize(s, epoch', height);
    HookKeeps(s, domain, epoch, epoch', height);
    HookFrame(s, domain, epoch, epoch', height);
    forall id
      ensures (id in s'.activations <==> id in s.activations) && PromptAt(s', id)
      ensures id in s.activations ==> s'.activations[id].knownAcks == s.activations[id].knownAcks
      ensures (id in s'.proposals <==> id in s.proposals)
      ensures id in s.proposals ==> (Live(s'.proposals[id].status) <==> Live(s.proposals[id].status))
    {
      HookEffect(s, domain, epoch, epoch', height, id);
      assert PromptAt(s, id);
    }
    AckedLeaves(s, s', domain, epoch);
    AcksCountQuiet(s, s', epoch);
  }
}
