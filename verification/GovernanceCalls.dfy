/** What the calls of the governance pallet mean to whoever makes them: when a call is accepted, and
    what it does to which record. */
module GovernanceCalls {
  import opened Types
  import opened Sorting
  import opened Governance
  import opened GovernanceProofs
  import opened Voting

  // ---------- propose ----------

  ghost predicate NoRepeats<T>(s: seq<T>) { forall i, j :: 0 <= i < j < |s| ==> s[i] != s[j] }

  ghost predicate Ascending(domains: seq<DomainId>) {
    forall i, j :: 0 <= i < j < |domains| ==> DomainRank(domains[i]) < DomainRank(domains[j])
  }

  lemma {:induction false} MultiplicityOne<T>(s: seq<T>)
    ensures NoRepeats(s) <==> forall x :: x in s ==> multiset(s)[x] == 1
  {
    if s != [] {
      var n := |s| - 1;
      var front := s[..n];
      assert s == front + [s[n]];
      MultiplicityOne(front);
      if NoRepeats(s) {
        assert s[n] !in front;
      } else if s[n] in front {
        assert multiset(s)[s[n]] >= 2;
      } else {
        assert forall x :: x in front ==> multiset(s)[x] == multiset(front)[x];
      }
    }
  }

  lemma SameRepeats<T>(s: seq<T>, t: seq<T>)
    requires multiset(s) == multiset(t)
    ensures NoRepeats(s) <==> NoRepeats(t)
  {
    MultiplicityOne(s);
    MultiplicityOne(t);
    assert forall x :: x in s <==> x in multiset(s);
    assert forall x :: x in t <==> x in multiset(t);
  }

  lemma {:induction false} DedupSorted(s: seq<DomainId>)
    requires Sorted(s, DomainLeq)
    ensures Ascending(Dedup(s)) && |Dedup(s)| <= |s| && (|s| > 0 ==> |Dedup(s)| > 0 && Dedup(s)[0] == s[0])
    ensures |Dedup(s)| == |s| <==> NoRepeats(s)
  {
    if |s| > 1 {
      DedupSorted(s[1..]);
      assert DomainLeq(s[0], s[1]);
      if s[0] != s[1] {
        assert forall i :: 1 < i < |s| ==> DomainLeq(s[1], s[i]);
        assert NoRepeats(s) <==> NoRepeats(s[1..]);
      }
    }
  }

  lemma SortedTargets(targets: seq<DomainId>)
    ensures Ascending(SortedDomains(targets)) && forall d :: d in SortedDomains(targets) <==> d in targets
    ensures |SortedDomains(targets)| == |targets| <==> NoRepeats(targets)
  {
    SortSorted(targets, DomainLeq);
    SortedDomainsMembers(targets);
    DedupSorted(Sort(targets, DomainLeq));
    SameRepeats(targets, Sort(targets, DomainLeq));
  }

  lemma ProposeAccepted(s: State, env: Env, who: Account, targets: seq<DomainId>, newVersion: nat,
                        balances: map<Account, nat>)
    ensures CreateProposal(s, env, who, targets, newVersion, balances).Ok? <==>
              && targets != [] && env.domain !in targets && NoRepeats(targets)
              && newVersion != 0 && newVersion != s.protocolVersion
  {
    SortedTargets(targets);
  }

  /** The proposal carries what was asked for, its targets in domain order, and opens for one epoch. */
  lemma Proposed(s: State, env: Env, who: Account, targets: seq<DomainId>, newVersion: nat,
                 balances: map<Account, nat>, s': State)
    requires CreateProposal(s, env, who, targets, newVersion, balances) == Ok(s')
    ensures var id := ItemId(env.domain, s.nextSequence);
            && id in s'.proposals && s'.proposals == s.proposals[id := s'.proposals[id]]
            && var p := s'.proposals[id];
               && p.proposalId == id && p.sourceDomain == env.domain && p.proposer == who
               && Ascending(p.targetDomains) && (forall d :: d in p.targetDomains <==> d in targets)
               && p.newVersion == newVersion && p.payloadHash == PayloadDigest(newVersion) && p.status == Voting
               && p.createdEpoch == env.epoch && p.votingStart == env.epoch && p.votingEnd == env.epoch + 1
               && p.yes == p.no == p.abstain == 0 && p.approvalEpoch.None?
    ensures s'.activations == s.activations && s'.votes == s.votes && s'.leaves == s.leaves
  {
    SortedTargets(targets);
  }

  // ---------- vote ----------

  lemma VoteAccepted(s: State, env: Env, who: Account, id: ItemId, choice: Choice)
    ensures CastVote(s, env, who, id, choice).Ok? <==>
              && id in s.proposals && s.proposals[id].status == Voting && env.epoch < s.proposals[id].votingEnd
              && (id, who) !in s.votes && (id, who) in s.powers && s.powers[(id, who)] > 0
  {
  }

  /** A ballot adds the voter's recorded power to the choice given and to nothing else. */
  lemma BallotCounted(s: State, env: Env, who: Account, id: ItemId, choice: Choice, s': State)
    requires CastVote(s, env, who, id, choice) == Ok(s')
    ensures (id, who) in s.powers && (id, who) in s'.votes
    ensures s'.votes == s.votes[(id, who) := s'.votes[(id, who)]]
    ensures var ballot := s'.votes[(id, who)];
            && ballot.choice == choice && ballot.power == s.powers[(id, who)]
            && ballot.castEpoch == env.epoch && ballot.castHeight == env.height
    ensures Cast(s'.votes, id, choice) == Cast(s.votes, id, choice) + s.powers[(id, who)]
    ensures forall c: Choice :: c != choice ==> Cast(s'.votes, id, c) == Cast(s.votes, id, c)
    ensures forall k: ItemId, c: Choice :: k != id ==> Cast(s'.votes, k, c) == Cast(s.votes, k, c)
    ensures s'.proposals.Keys == s.proposals.Keys && forall k :: k in s.proposals && k != id ==>
              s'.proposals[k] == s.proposals[k]
    ensures s'.powers == s.powers && s'.activations == s.activations && s'.leaves == s.leaves
  {
    hide Cast;
    forall k: ItemId, c: Choice
      ensures Cast(s'.votes, k, c) == Cast(s.votes, k, c) + if k == id && c == choice then s.powers[(id, who)] else 0
    {
      AddBallot(s.votes, (id, who), s'.votes[(id, who)], k, c);
    }
  }

  // ---------- close ----------

  /** Closing waits for the end of the vote and happens once. */
  lemma CloseAccepted(s: State, env: Env, id: ItemId)
    ensures CloseProposal(s, env, id).Ok? <==>
              id in s.proposals && s.proposals[id].status == Voting && s.proposals[id].votingEnd <= env.epoch
  {
    hide InsertProposalLeaves, QuorumMet, Approved, ActivationFor;
  }

  // ---------- transport ----------

  lemma ImportProposalAccepted(s: State, env: Env, who: Account, leaf: ProposalLeafInput)
    ensures ImportProposal(s, env, who, leaf).Ok? <==>
              && s.importer == Some(who) && leaf.targetDomain == env.domain && leaf.sourceDomain != env.domain
              && leaf.proposalId !in s.proposals && env.domain in leaf.targetDomains
              && leaf.payloadHash == PayloadDigest(leaf.newVersion)
  {
    hide RecordLocalAck, MaybeSchedule, ActivationFor;
  }

  lemma ImportAckAccepted(s: State, env: Env, who: Account, leaf: AckLeafInput)
    ensures ImportAck(s, env, who, leaf).Ok? <==>
              && s.importer == Some(who) && leaf.targetDomain == env.domain
              && leaf.acknowledgingDomain != env.domain && leaf.acknowledgingDomain in leaf.targetDomains
              && (leaf.proposalId, leaf.acknowledgingDomain) !in s.acks && leaf.proposalId in s.proposals
              && var p := s.proposals[leaf.proposalId];
                 && p.sourceDomain == leaf.sourceDomain && p.targetDomains == leaf.targetDomains
                 && p.payloadHash == leaf.payloadHash && p.newVersion == leaf.newVersion
                 && p.activationEpoch == leaf.activationEpoch
  {
    hide NoteAck;
  }

  /** Scheduled in this epoch: entered at its activation epoch, or among the ready ones when that has come. */
  predicate ScheduledNow(s: State, id: ItemId, epoch: EpochId) {
    && id in s.proposals && s.proposals[id].status == Scheduled
    && id in s.activations && s.activations[id].status == Scheduled && s.activations[id].scheduledAt == Some(epoch)
    && if epoch >= s.activations[id].activationEpoch then id in s.ready
       else id in Bucket(s, s.activations[id].activationEpoch)
  }

  /** Every target has acknowledged, counting this domain. */
  predicate CompletedBy(a: Activation, domain: DomainId) {
    forall t :: t in a.targetDomains ==> t == domain || t in a.knownAcks
  }

  lemma ScheduleDecides(s: State, id: ItemId, epoch: EpochId)
    requires id in s.proposals && id in s.activations && s.proposals[id].status == LocallyFinalized
    ensures var s' := MaybeSchedule(s, id, epoch);
            && (if HasFullAckSet(s.activations[id]) then ScheduledNow(s', id, epoch) else s' == s)
            && s'.proposals == s.proposals[id := s'.proposals[id]] && s'.acks == s.acks && s'.leaves == s.leaves
            && s'.proposals[id] == s.proposals[id].(status := s'.proposals[id].status)
            && id in s'.activations && s'.activations[id].knownAcks == s.activations[id].knownAcks
  {
  }

  /** The acknowledgement is recorded as given and counted; the last one missing, and no other,
      schedules the proposal. */
  lemma AckImported(s: State, env: Env, who: Account, leaf: AckLeafInput, s': State)
    requires ImportAck(s, env, who, leaf) == Ok(s') && leaf.proposalId in s.activations
    requires s.proposals[leaf.proposalId].status == LocallyFinalized
    ensures var id := leaf.proposalId;
            && Knows(s', id, leaf.acknowledgingDomain) && (id, leaf.acknowledgingDomain) in s'.acks
            && s'.acks == s.acks[(id, leaf.acknowledgingDomain) := s'.acks[(id, leaf.acknowledgingDomain)]]
            && var r := s'.acks[(id, leaf.acknowledgingDomain)];
               && r.acknowledgedEpoch == leaf.acknowledgedEpoch && r.acknowledgedAtHeight == env.height
    ensures var id := leaf.proposalId;
            && id in s'.proposals && s'.proposals == s.proposals[id := s'.proposals[id]]
            && if CompletedBy(s.activations[id], leaf.acknowledgingDomain) then ScheduledNow(s', id, env.epoch)
               else s'.proposals == s.proposals && s'.scheduled == s.scheduled && s'.ready == s.ready
  {
    hide MaybeSchedule, SortedDomains;
    var id := leaf.proposalId;
    var known := s.activations[id].knownAcks;
    SortedDomainsMembers(known + [leaf.acknowledgingDomain]);
    var s1 := s.(acks := s'.acks);
    var s2 := if leaf.acknowledgingDomain in known then s1
              else s1.(activations := s.activations[id := s.activations[id].(
                         knownAcks := SortedDomains(known + [leaf.acknowledgingDomain]))]);
    RecordedAck(s, env, who, leaf, s');
    ScheduleDecides(s2, id, env.epoch);
  }

  lemma RecordedAck(s: State, env: Env, who: Account, leaf: AckLeafInput, s': State)
    requires ImportAck(s, env, who, leaf) == Ok(s')
    ensures s'.acks == s.acks[(leaf.proposalId, leaf.acknowledgingDomain) :=
              AckRecord(leaf.sourceDomain, leaf.targetDomains, leaf.activationEpoch, leaf.payloadHash, leaf.newVersion,
                        leaf.acknowledgedEpoch, env.height)]
  {
    hide NoteAck;
    var s1 := s.(acks := s.acks[(leaf.proposalId, leaf.acknowledgingDomain) :=
      AckRecord(leaf.sourceDomain, leaf.targetDomains, leaf.activationEpoch, leaf.payloadHash, leaf.newVersion,
                leaf.acknowledgedEpoch, env.height)]);
    NotingKeepsAcks(s1, leaf.proposalId, leaf.acknowledgingDomain, env.epoch);
  }

  lemma NotingKeepsAcks(s: State, id: ItemId, domain: DomainId, epoch: EpochId)
    ensures NoteAck(s, id, domain, epoch).acks == s.acks
  {
    hide MaybeSchedule, SortedDomains;
    if id in s.activations && domain !in s.activations[id].knownAcks {
      var known := SortedDomains(s.activations[id].knownAcks + [domain]);
      SchedulingKeepsAcks(s.(activations := s.activations[id := s.activations[id].(knownAcks := known)]), id, epoch);
    } else {
      SchedulingKeepsAcks(s, id, epoch);
    }
  }

  lemma SchedulingKeepsAcks(s: State, id: ItemId, epoch: EpochId)
    ensures MaybeSchedule(s, id, epoch).acks == s.acks
  {
    hide HasFullAckSet, Enqueue, Bucket;
  }
}
