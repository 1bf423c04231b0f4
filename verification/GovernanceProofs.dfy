/** What every call and hook of the governance pallet keeps, on one chain: proposals and
    activation records agree, every scheduled proposal is queued where it will be found, every
    leaf is backed by a stored proposal, and committed leaf lists never change. */
module GovernanceProofs {
  import opened Types
  import opened Sorting
  import opened Governance

  /** Approved: past voting and not rejected. */
  predicate Live(status: ProposalStatus) { status.LocallyFinalized? || status.Scheduled? || status.Activated? }

  // ---------- proposals, activation records, queues ----------

  ghost predicate RecordOk(s: State, domain: DomainId, id: ItemId) {
    && id in s.proposals
    && var p := s.proposals[id];
       && p.proposalId == id && p.payloadHash == PayloadDigest(p.newVersion) && p.targetDomains != []
       && (p.sourceDomain == domain ==> id.domain == domain && domain !in p.targetDomains)
       && (p.sourceDomain != domain ==> Live(p.status) && domain in p.targetDomains)
       && (Live(p.status) <==> id in s.activations)
       && (id in s.activations ==> RecordsAgree(p, s.activations[id]))
  }

  ghost predicate RecordsAgree(p: Proposal, a: Activation) {
    && a.targetDomains == p.targetDomains && a.activationEpoch == p.activationEpoch && a.status == p.status
    && a.sourceDomain == p.sourceDomain && a.payloadHash == p.payloadHash && a.newVersion == p.newVersion
    && p.approvalEpoch.Some?
    && (p.status == Scheduled || p.status == Activated ==> HasFullAckSet(a))
  }

  /** A scheduled proposal waits in the bucket of a future epoch or in the ready queue. */
  ghost predicate Placed(s: State, epoch: EpochId, id: ItemId) {
    id in s.proposals && s.proposals[id].status == Scheduled ==>
      var act := s.proposals[id].activationEpoch;
      if act > epoch then id in Bucket(s, act) else id in s.ready
  }

  ghost predicate BucketOk(s: State, e: EpochId) {
    forall id :: id in Bucket(s, e) ==>
      id in s.proposals && s.proposals[id].activationEpoch == e
      && (s.proposals[id].status == Scheduled || s.proposals[id].status == Activated)
  }

  ghost predicate ReadyOk(s: State, epoch: EpochId) {
    forall id :: id in s.ready ==>
      id in s.proposals && s.proposals[id].status == Scheduled && s.proposals[id].activationEpoch <= epoch
  }

  ghost predicate RecordsInv(s: State, domain: DomainId) {
    && (forall id :: id in s.proposals ==> RecordOk(s, domain, id))
    && (forall id :: id in s.activations ==> id in s.proposals)
  }

  ghost predicate QueuesInv(s: State, epoch: EpochId) {
    && (forall id :: Placed(s, epoch, id))
    && (forall e: EpochId :: BucketOk(s, e))
    && ReadyOk(s, epoch)
  }

  ghost predicate CoreInv(s: State, domain: DomainId, epoch: EpochId) { RecordsInv(s, domain) && QueuesInv(s, epoch) }

  // ---------- leaves ----------

  ghost predicate LeafBacked(proposals: map<ItemId, Proposal>, domain: DomainId, leaf: GovernanceLeaf) {
    && leaf.ProposalId() in proposals
    && var p := proposals[leaf.ProposalId()];
       && Live(p.status)
       && match leaf
          case ProposalLeaf(x, _) =>
            && x.sourceDomain == domain && p.sourceDomain == domain
            && x.targetDomains == p.targetDomains && x.targetDomain in p.targetDomains
            && x.payloadHash == p.payloadHash && x.newVersion == p.newVersion
            && x.activationEpoch == p.activationEpoch && p.approvalEpoch == Some(x.approvalEpoch)
            && x.proposer == p.proposer && x.createdEpoch == p.createdEpoch
            && x.votingStart == p.votingStart && x.votingEnd == p.votingEnd
          case AckLeaf(x, _) =>
            && x.acknowledgingDomain == domain && x.targetDomain != domain
            && p.sourceDomain != domain && domain in p.targetDomains && FactsMatch(p, x)
  }

  ghost predicate LeafOk(s: State, proposals: map<ItemId, Proposal>, domain: DomainId, hash: Digest) {
    && hash in s.leaves
    && s.leaves[hash].Canonical() && s.leaves[hash].leafHash == hash
    && LeafBacked(proposals, domain, s.leaves[hash])
  }

  ghost predicate LeafListOk(s: State, domain: DomainId, epoch: EpochId, e: EpochId) {
    && (forall i, j :: 0 <= i < j < |LeafIds(s, e)| ==> LeafIds(s, e)[i] != LeafIds(s, e)[j])
    && (forall h :: h in LeafIds(s, e) ==>
          h in s.leaves && s.leaves[h].LeafEpoch() == e && s.leaves[h].OrderingDomain() == domain)
    && (LeafIds(s, e) != [] ==> e <= epoch)
  }

  ghost predicate LeavesInv(s: State, proposals: map<ItemId, Proposal>, domain: DomainId, epoch: EpochId) {
    && (forall h :: h in s.leaves ==> LeafOk(s, proposals, domain, h))
    && (forall e: EpochId :: LeafListOk(s, domain, epoch, e))
  }

  ghost predicate Inv(s: State, domain: DomainId, epoch: EpochId) {
    CoreInv(s, domain, epoch) && LeavesInv(s, s.proposals, domain, epoch)
  }

  lemma GenesisInv(version: nat, importer: Option<Account>, voters: seq<Account>, domain: DomainId, epoch: EpochId)
    ensures Inv(Genesis(version, importer, voters), domain, epoch)
  {
  }

  // ---------- what may change from one state to a later one ----------

  function StatusRank(status: ProposalStatus): nat {
    match status
    case Voting => 0
    case Rejected => 1
    case LocallyFinalized => 2
    case Scheduled => 3
    case Activated => 4
  }

  ghost predicate ProposalGrows(p: Proposal, p': Proposal) {
    && p'.proposalId == p.proposalId && p'.sourceDomain == p.sourceDomain && p'.targetDomains == p.targetDomains
    && p'.newVersion == p.newVersion && p'.payloadHash == p.payloadHash && p'.proposer == p.proposer
    && p'.createdEpoch == p.createdEpoch && p'.votingStart == p.votingStart && p'.votingEnd == p.votingEnd
    && StatusRank(p.status) <= StatusRank(p'.status)
    && (p.status == Rejected ==> p'.status == Rejected)
    && (Live(p.status) ==> p'.activationEpoch == p.activationEpoch && p'.approvalEpoch == p.approvalEpoch)
  }

  ghost predicate ProposalsGrow(a: map<ItemId, Proposal>, b: map<ItemId, Proposal>) {
    forall id :: id in a ==> id in b && ProposalGrows(a[id], b[id])
  }

  ghost predicate LeavesGrow(s: State, s': State, epoch: EpochId) {
    && (forall h :: h in s.leaves ==> h in s'.leaves && s'.leaves[h] == s.leaves[h])
    && (forall e: EpochId :: e < epoch ==> Lookup(s'.epochLeafIds, e, []) == Lookup(s.epochLeafIds, e, []))
    && (forall e: EpochId, h :: h in Lookup(s.epochLeafIds, e, []) ==> h in Lookup(s'.epochLeafIds, e, []))
  }

  ghost predicate Evolves(s: State, s': State, epoch: EpochId) {
    ProposalsGrow(s.proposals, s'.proposals) && LeavesGrow(s, s', epoch) && s'.importer == s.importer
    && (s'.nextSequence == s.nextSequence || s'.nextSequence == SatAdd(s.nextSequence, 1, U64_MAX))
  }

  /** Every acknowledgement known after a step was known before or is the given one. */
  ghost predicate AcksFrom(s: State, s': State, id: ItemId, domain: DomainId) {
    forall k, d :: k in s'.activations && d in s'.activations[k].knownAcks ==>
      (k in s.activations && d in s.activations[k].knownAcks) || (k == id && d == domain)
  }

  ghost predicate Knows(s: State, id: ItemId, k: DomainId) {
    id in s.activations && k in s.activations[id].knownAcks
  }

  ghost predicate AcksSame(s: State, s': State) {
    forall k, d :: k in s'.activations && d in s'.activations[k].knownAcks ==>
      k in s.activations && d in s.activations[k].knownAcks
  }

  lemma {:induction false} LeavesBackedMore(s: State, a: map<ItemId, Proposal>, b: map<ItemId, Proposal>,
                                            domain: DomainId, epoch: EpochId)
    requires LeavesInv(s, a, domain, epoch) && ProposalsGrow(a, b)
    ensures LeavesInv(s, b, domain, epoch)
  {
    forall h | h in s.leaves ensures LeafOk(s, b, domain, h) {
      assert LeafOk(s, a, domain, h);
      assert ProposalGrows(a[s.leaves[h].ProposalId()], b[s.leaves[h].ProposalId()]);
    }
  }

  lemma LeavesUntouched(s: State, s': State, domain: DomainId, epoch: EpochId, epoch': EpochId)
    requires LeavesInv(s, s.proposals, domain, epoch) && ProposalsGrow(s.proposals, s'.proposals) && epoch <= epoch'
    requires s'.leaves == s.leaves && s'.epochLeafIds == s.epochLeafIds
    ensures LeavesInv(s', s'.proposals, domain, epoch')
  {
    LeavesBackedMore(s, s.proposals, s'.proposals, domain, epoch);
    forall h | h in s'.leaves ensures LeafOk(s', s'.proposals, domain, h) {
      assert LeafOk(s, s'.proposals, domain, h);
    }
    forall e: EpochId ensures LeafListOk(s', domain, epoch', e) {
      assert LeafListOk(s, domain, epoch, e);
    }
  }

  // ---------- inserting leaves ----------

  lemma SameHashSameLeaf(a: GovernanceLeaf, b: GovernanceLeaf)
    requires a.Canonical() && b.Canonical() && a.leafHash == b.leafHash
    ensures a == b
  {
  }

  /** A leaf hash that is already stored is stored with the same leaf. */
  lemma InsertLeafGrows(s: State, proposals: map<ItemId, Proposal>, domain: DomainId, epoch: EpochId,
                        leaf: GovernanceLeaf)
    requires LeavesInv(s, proposals, domain, epoch) && leaf.Canonical()
    ensures LeavesGrow(s, InsertLeaf(s, epoch, leaf), epoch)
  {
    if leaf.leafHash in s.leaves {
      assert LeafOk(s, proposals, domain, leaf.leafHash);
      SameHashSameLeaf(s.leaves[leaf.leafHash], leaf);
    }
  }

  lemma InsertLeafList(s: State, proposals: map<ItemId, Proposal>, domain: DomainId, epoch: EpochId,
                       leaf: GovernanceLeaf, e: EpochId)
    requires LeavesInv(s, proposals, domain, epoch) && leaf.Canonical()
    requires leaf.LeafEpoch() == epoch && leaf.OrderingDomain() == domain
    ensures LeafListOk(InsertLeaf(s, epoch, leaf), domain, epoch, e)
  {
    var s' := InsertLeaf(s, epoch, leaf);
    InsertLeafGrows(s, proposals, domain, epoch, leaf);
    assert LeafListOk(s, domain, epoch, e);
    forall h | h in LeafIds(s', e)
      ensures h in s'.leaves && s'.leaves[h].LeafEpoch() == e && s'.leaves[h].OrderingDomain() == domain
    {
      assert h in LeafIds(s, e) || (e == epoch && h == leaf.leafHash);
    }
  }

  lemma InsertLeafKeeps(s: State, proposals: map<ItemId, Proposal>, domain: DomainId, epoch: EpochId,
                        leaf: GovernanceLeaf)
    requires LeavesInv(s, proposals, domain, epoch)
    requires leaf.Canonical() && LeafBacked(proposals, domain, leaf)
    requires leaf.LeafEpoch() == epoch && leaf.OrderingDomain() == domain
    ensures LeavesInv(InsertLeaf(s, epoch, leaf), proposals, domain, epoch)
    ensures LeavesGrow(s, InsertLeaf(s, epoch, leaf), epoch)
  {
    var s' := InsertLeaf(s, epoch, leaf);
    forall h | h in s'.leaves ensures LeafOk(s', proposals, domain, h) {
      if h != leaf.leafHash {
        assert LeafOk(s, proposals, domain, h);
      }
    }
    forall e: EpochId ensures LeafListOk(s', domain, epoch, e) {
      InsertLeafList(s, proposals, domain, epoch, leaf, e);
    }
    InsertLeafGrows(s, proposals, domain, epoch, leaf);
  }

  /** Inserting leaves touches the leaf storage only. */
  ghost predicate SameButLeaves(s: State, s': State) {
    s' == s.(leaves := s'.leaves, epochLeafIds := s'.epochLeafIds)
  }

  lemma {:induction false} ProposalLeavesKeep(s: State, proposals: map<ItemId, Proposal>, domain: DomainId,
                                              epoch: EpochId, p: Proposal, targets: seq<DomainId>)
    requires LeavesInv(s, proposals, domain, epoch)
    requires p.proposalId in proposals && proposals[p.proposalId] == p && Live(p.status)
    requires p.sourceDomain == domain && p.approvalEpoch == Some(epoch)
    requires forall d :: d in targets ==> d in p.targetDomains
    ensures var s' := InsertProposalLeaves(s, p, epoch, targets);
            LeavesInv(s', proposals, domain, epoch) && LeavesGrow(s, s', epoch) && SameButLeaves(s, s')
    decreases |targets|
  {
    if targets != [] {
      var n := |targets| - 1;
      ProposalLeavesKeep(s, proposals, domain, epoch, p, targets[..n]);
      InsertLeafKeeps(InsertProposalLeaves(s, p, epoch, targets[..n]), proposals, domain, epoch,
                      ProposalLeafFor(p, epoch, targets[n]));
    }
  }

  lemma {:induction false} AckLeavesKeep(s: State, proposals: map<ItemId, Proposal>, domain: DomainId, epoch: EpochId,
                                         p: Proposal, targets: seq<DomainId>)
    requires LeavesInv(s, proposals, domain, epoch)
    requires p.proposalId in proposals && proposals[p.proposalId] == p && Live(p.status)
    requires p.sourceDomain != domain && domain in p.targetDomains && domain !in targets
    ensures var s' := InsertAckLeaves(s, p, domain, epoch, targets);
            LeavesInv(s', proposals, domain, epoch) && LeavesGrow(s, s', epoch) && SameButLeaves(s, s')
    decreases |targets|
  {
    if targets != [] {
      var n := |targets| - 1;
      AckLeavesKeep(s, proposals, domain, epoch, p, targets[..n]);
      InsertLeafKeeps(InsertAckLeaves(s, p, domain, epoch, targets[..n]), proposals, domain, epoch,
                      AckLeafFor(p, domain, epoch, targets[n]));
    }
  }

  // ---------- domain lists ----------

  lemma {:induction false} DedupMembers<T(!new)>(s: seq<T>)
    ensures forall x :: x in Dedup(s) <==> x in s
  {
    if |s| > 1 {
      DedupMembers(s[1..]);
      assert forall x :: x in s <==> x == s[0] || x in s[1..];
    }
  }

  lemma SortedDomainsMembers(domains: seq<DomainId>)
    ensures forall d :: d in SortedDomains(domains) <==> d in domains
  {
    SortMembers(domains, DomainLeq);
    DedupMembers(Sort(domains, DomainLeq));
  }

  lemma {:induction false} WithoutExcludes(domains: seq<DomainId>, d: DomainId)
    ensures forall x :: x in Without(domains, d) <==> x in domains && x != d
  {
    if domains != [] {
      WithoutExcludes(domains[1..], d);
    }
  }

  // ---------- proposal ids ----------

  /** Ids of local proposals lie below the counter until it saturates. */
  ghost predicate SequenceOk(s: State, domain: DomainId) {
    forall id :: id in s.proposals && s.proposals[id].sourceDomain == domain ==>
      id.sequence < s.nextSequence || s.nextSequence == U64_MAX
  }

  lemma SequenceKept(s: State, s': State, domain: DomainId, epoch: EpochId)
    requires SequenceOk(s, domain) && Evolves(s, s', epoch)
    requires forall id :: id in s'.proposals && id !in s.proposals && s'.proposals[id].sourceDomain == domain ==>
               id.sequence < s'.nextSequence || s'.nextSequence == U64_MAX
    ensures SequenceOk(s', domain)
  {
    forall id | id in s'.proposals && s'.proposals[id].sourceDomain == domain
      ensures id.sequence < s'.nextSequence || s'.nextSequence == U64_MAX
    {
      if id in s.proposals {
        assert ProposalGrows(s.proposals[id], s'.proposals[id]);
      }
    }
  }
}
