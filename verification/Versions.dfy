/** The protocol version: set by activations and by nothing else, to the version of the proposal
    activated last. */
module Versions {
  import opened Types
  import opened Chain
  import opened Network
  import opened Settlement
  import opened Agreement
  import opened Ballots
  import opened Runs
  import opened Theorems
  import E = Epochs
  import T = Transfers
  import TP = TransfersProofs
  import G = Governance
  import GP = GovernanceProofs
  import GS = GovernanceSteps

  // ---------- one list ----------

  /** The last id of the list that its turn activates; repetitions come too late. */
  predicate LastActivated(s: G.State, ids: seq<ItemId>, epoch: EpochId, i: nat) {
    && i < |ids| && G.CanActivate(s, ids[i], epoch) && ids[i] !in ids[..i]
    && forall j :: i < j < |ids| ==> !G.CanActivate(s, ids[j], epoch) || ids[j] in ids[..j]
  }

  predicate SetsVersion(s: G.State, ids: seq<ItemId>, epoch: EpochId, i: nat, version: nat) {
    LastActivated(s, ids, epoch, i) && ids[i] in s.proposals && version == s.proposals[ids[i]].newVersion
  }

  predicate LastSets(s: G.State, ids: seq<ItemId>, epoch: EpochId, version: nat) {
    exists i :: 0 <= i < |ids| && SetsVersion(s, ids, epoch, i, version)
  }

  predicate NoneSets(s: G.State, ids: seq<ItemId>, epoch: EpochId, version: nat) {
    version == s.protocolVersion && forall id :: id in ids ==> !G.CanActivate(s, id, epoch)
  }

  lemma ActivatesLater(s: G.State, ids: seq<ItemId>, epoch: EpochId, height: nat, id: ItemId)
    ensures var s1 := G.ActivateAll(s, ids, epoch, height);
            && (G.CanActivate(s1, id, epoch) <==> G.CanActivate(s, id, epoch) && id !in ids)
            && (id in s.proposals ==> id in s1.proposals && s1.proposals[id].newVersion == s.proposals[id].newVersion)
  {
    hide G.ActivateAll, G.CanActivate;
    GS.ActivateEffect(s, ids, epoch, height, id);
    var s' := G.ActivateAll(s, ids, epoch, height);
    GS.ActivatedOnce(s, s', epoch, height, id, id in ids && G.CanActivate(s, id, epoch));
  }

  lemma {:induction false} ListVersion(s: G.State, ids: seq<ItemId>, epoch: EpochId, height: nat)
    ensures var version := G.ActivateAll(s, ids, epoch, height).protocolVersion;
            LastSets(s, ids, epoch, version) || NoneSets(s, ids, epoch, version)
    decreases |ids|
  {
    if ids != [] {
      var n := |ids| - 1;
      var last, before := ids[n], G.ActivateAll(s, ids[..n], epoch, height);
      var version := G.ActivateAll(s, ids, epoch, height).protocolVersion;
      ListVersion(s, ids[..n], epoch, height);
      ActivatesLater(s, ids[..n], epoch, height, last);
      if G.CanActivate(s, last, epoch) && last !in ids[..n] {
        assert SetsVersion(s, ids, epoch, n, version);
      } else {
        assert version == before.protocolVersion;
        if LastSets(s, ids[..n], epoch, version) {
          var i :| 0 <= i < n && SetsVersion(s, ids[..n], epoch, i, version);
          LastStays(s, ids, epoch, i);
          assert SetsVersion(s, ids, epoch, i, version);
        } else {
          assert forall id :: id in ids ==> id in ids[..n] || id == last;
        }
      }
    }
  }

  lemma LastStays(s: G.State, ids: seq<ItemId>, epoch: EpochId, i: nat)
    requires ids != [] && LastActivated(s, ids[..|ids| - 1], epoch, i)
    requires var last := ids[|ids| - 1];
             !G.CanActivate(s, last, epoch) || last in ids[..|ids| - 1]
    ensures LastActivated(s, ids, epoch, i)
  {
    hide G.CanActivate;
    var n := |ids| - 1;
    assert ids[..n][..i] == ids[..i] && ids[..n][i] == ids[i];
    forall j | i < j < |ids| ensures !G.CanActivate(s, ids[j], epoch) || ids[j] in ids[..j] {
      if j < n {
        assert ids[..n][j] == ids[j] && ids[..n][..j] == ids[..j];
      }
    }
  }

  lemma {:induction false} ActivateAppend(s: G.State, a: seq<ItemId>, b: seq<ItemId>, epoch: EpochId, height: nat)
    ensures G.ActivateAll(s, a + b, epoch, height)
         == G.ActivateAll(G.ActivateAll(s, a, epoch, height), b, epoch, height)
    decreases |b|
  {
    if b == [] {
      assert a + b == a;
    } else {
      assert (a + b)[..|a + b| - 1] == a + b[..|b| - 1];
      ActivateAppend(s, a, b[..|b| - 1], epoch, height);
    }
  }

  // ---------- the hook ----------

  /** The due id activated last. */
  ghost predicate LastDue(s: G.State, queue: seq<ItemId>, epoch: EpochId, i: nat) {
    && i < |queue| && GS.Due(s, epoch, queue[i]) && queue[i] !in queue[..i]
    && forall j :: i < j < |queue| ==> !GS.Due(s, epoch, queue[j]) || queue[j] in queue[..j]
  }

  lemma QueuedVersion(s: G.State, epoch: EpochId, height: nat)
    requires height > 0
    ensures var queue := G.Bucket(s, epoch) + s.ready;
            G.OnInitialize(s, epoch, height).protocolVersion == G.ActivateAll(s, queue, epoch, height).protocolVersion
  {
    hide G.ActivateAll, G.Remaining, G.Bucket;
    ActivateAppend(s, G.Bucket(s, epoch), s.ready, epoch, height);
    GS.ActivateFrame(s, G.Bucket(s, epoch), epoch, height);
  }

  /** After a block the version is that of the proposal activated last, in the order of the epoch's
      bucket and then of the ready queue, and unchanged if none was due. */
  lemma HookVersion(s: G.State, domain: DomainId, epoch: EpochId, epoch': EpochId, height: nat)
    requires GP.CoreInv(s, domain, epoch) && epoch <= epoch' <= epoch + 1 && height > 0
    ensures var queue := G.Bucket(s, epoch') + s.ready;
            var version := G.OnInitialize(s, epoch', height).protocolVersion;
            if exists id :: GS.Due(s, epoch', id)
            then exists i: nat :: LastDue(s, queue, epoch', i) && version == s.proposals[queue[i]].newVersion
            else version == s.protocolVersion
  {
    hide G.ActivateAll, G.OnInitialize, GP.CoreInv, G.Bucket, G.CanActivate, GS.Due;
    var queue := G.Bucket(s, epoch') + s.ready;
    QueuedVersion(s, epoch', height);
    ListVersion(s, queue, epoch', height);
    forall id ensures GS.Due(s, epoch', id) <==> G.CanActivate(s, id, epoch') && id in queue
    {
      GS.DueIsQueued(s, domain, epoch, epoch', id);
    }
    var version := G.ActivateAll(s, queue, epoch', height).protocolVersion;
    if LastSets(s, queue, epoch', version) {
      var i :| 0 <= i < |queue| && SetsVersion(s, queue, epoch', i, version);
      assert GS.Due(s, epoch', queue[i]) && LastDue(s, queue, epoch', i);
    }
  }

  /** A proposal that alone is due sets the version to its own. */
  lemma SoleDueVersion(s: G.State, domain: DomainId, epoch: EpochId, epoch': EpochId, height: nat, id: ItemId)
    requires GP.CoreInv(s, domain, epoch) && epoch <= epoch' <= epoch + 1 && height > 0
    requires GS.Due(s, epoch', id) && forall k :: GS.Due(s, epoch', k) ==> k == id
    ensures G.OnInitialize(s, epoch', height).protocolVersion == s.proposals[id].newVersion
  {
    hide G.OnInitialize, GP.CoreInv, G.Bucket;
    HookVersion(s, domain, epoch, epoch', height);
  }

  // ---------- calls ----------

  lemma ScheduleVersion(s: G.State, id: ItemId, epoch: EpochId)
    ensures G.MaybeSchedule(s, id, epoch).protocolVersion == s.protocolVersion
  {
    hide G.HasFullAckSet, G.Enqueue, G.Bucket;
  }

  lemma NoteAckVersion(s: G.State, id: ItemId, acking: DomainId, epoch: EpochId)
    ensures G.NoteAck(s, id, acking, epoch).protocolVersion == s.protocolVersion
  {
    hide G.MaybeSchedule, G.SortedDomains;
    ScheduleVersion(s, id, epoch);
    if id in s.activations {
      ScheduleVersion(GS.WithAck(s, id, acking), id, epoch);
    }
  }

  lemma CloseVersion(s: G.State, env: G.Env, id: ItemId, s': G.State)
    requires G.CloseProposal(s, env, id) == Ok(s')
    ensures s'.protocolVersion == s.protocolVersion
  {
    hide G.InsertProposalLeaves, G.QuorumMet, G.Approved, G.ActivationFor;
    var p' := G.Approve(s.proposals[id], env.epoch);
    var s1 := s.(activations := s.activations[p'.proposalId := G.ActivationFor(p', [])]);
    ProposalLeavesOnly(s1, p', env.epoch, p'.targetDomains);
  }

  lemma ImportVersion(s: G.State, env: G.Env, who: Account, leaf: ProposalLeafInput, s': G.State)
    requires G.ImportProposal(s, env, who, leaf) == Ok(s')
    ensures s'.protocolVersion == s.protocolVersion
  {
    hide G.MaybeSchedule, G.InsertAckLeaves, G.ActivationFor, G.FanoutTargets;
    var p := G.ImportedProposal(leaf);
    var s1 := s.(proposals := s.proposals[leaf.proposalId := p],
                 activations := s.activations[p.proposalId := G.ActivationFor(p, [env.domain])]);
    var s2 := s1.(acks := s1.acks[(p.proposalId, env.domain) :=
      G.AckRecord(p.sourceDomain, p.targetDomains, p.activationEpoch, p.payloadHash, p.newVersion, env.epoch,
                  env.height)]);
    AckLeavesOnly(s2, p, env.domain, env.epoch, G.FanoutTargets(p, env.domain));
    ScheduleVersion(G.RecordLocalAck(s1, p, env), leaf.proposalId, env.epoch);
  }

  lemma ImportAckVersion(s: G.State, env: G.Env, who: Account, leaf: AckLeafInput, s': G.State)
    requires G.ImportAck(s, env, who, leaf) == Ok(s')
    ensures s'.protocolVersion == s.protocolVersion
  {
    hide G.NoteAck;
    var s1 := s.(acks := s.acks[(leaf.proposalId, leaf.acknowledgingDomain) :=
      G.AckRecord(leaf.sourceDomain, leaf.targetDomains, leaf.activationEpoch, leaf.payloadHash, leaf.newVersion,
                  leaf.acknowledgedEpoch, env.height)]);
    NoteAckVersion(s1, leaf.proposalId, leaf.acknowledgingDomain, env.epoch);
  }

  /** Calls never change the version. */
  lemma CallVersion(c: Chain, a: Action, c': Chain)
    requires !a.Block? && Outcome(c, a) == Some(c')
    ensures c'.governance.protocolVersion == c.governance.protocolVersion
  {
    hide NextBlock, TransfersCall, G.CloseProposal, G.ImportProposal, G.ImportAck;
    match a
    case Close(_, id) => CloseVersion(c.governance, GovernanceEnv(c), id, c'.governance);
    case ImportProposal(_, who, leaf) => ImportVersion(c.governance, GovernanceEnv(c), who, leaf, c'.governance);
    case ImportAck(_, who, leaf) => ImportAckVersion(c.governance, GovernanceEnv(c), who, leaf, c'.governance);
    case _ =>
  }

  // ---------- runs ----------

  ghost predicate ActiveVersion(g: G.State, id: ItemId, version: nat) {
    id in g.proposals && g.proposals[id].status == G.Activated && g.proposals[id].newVersion == version
  }

  /** The version is the one of the start or that of an active proposal. */
  ghost predicate VersionFrom(g0: G.State, g: G.State) {
    g.protocolVersion == g0.protocolVersion || exists id :: ActiveVersion(g, id, g.protocolVersion)
  }

  lemma BlockVersion(c: Chain, a: Action, c': Chain)
    requires Inv(c) && a.Block? && Outcome(c, a) == Some(c')
    ensures c'.governance.protocolVersion == c.governance.protocolVersion
            || exists id :: ActiveVersion(c'.governance, id, c'.governance.protocolVersion)
  {
    hide E.OnInitialize, RootsAt, T.CommitExports, E.Inv, TP.Inv, GP.CoreInv, GP.LeavesInv, G.OnInitialize, E.Closes;
    hide GP.Evolves, TP.Evolves, G.Bucket;
    var g := c.governance;
    PalletsNext(c, a.observation, E.Context(c.domain, a.parentHash, a.validatorSetHash), c');
    HookVersion(g, c.domain, c.Epoch(), c'.Epoch(), c.number + 1);
    var queue := G.Bucket(g, c'.Epoch()) + g.ready;
    if exists id :: GS.Due(g, c'.Epoch(), id) {
      var i: nat :|
        LastDue(g, queue, c'.Epoch(), i) && c'.governance.protocolVersion == g.proposals[queue[i]].newVersion;
      GS.HookEffect(g, c.domain, c.Epoch(), c'.Epoch(), c.number + 1, queue[i]);
      assert ActiveVersion(c'.governance, queue[i], c'.governance.protocolVersion);
    }
  }

  lemma VersionKept(g0: G.State, g: G.State, g': G.State)
    requires VersionFrom(g0, g) && GP.ProposalsGrow(g.proposals, g'.proposals)
    requires g'.protocolVersion == g.protocolVersion || exists id :: ActiveVersion(g', id, g'.protocolVersion)
    ensures VersionFrom(g0, g')
  {
    if g'.protocolVersion == g.protocolVersion && g.protocolVersion != g0.protocolVersion {
      var id :| ActiveVersion(g, id, g.protocolVersion);
      assert GP.ProposalGrows(g.proposals[id], g'.proposals[id]);
      assert ActiveVersion(g', id, g'.protocolVersion);
    }
  }

  lemma StepVersion(w: World, a: Action, d: DomainId)
    requires WorldInv(w) && Admissible(w, a)
    ensures var g, g' := Council(w, d), Council(Apply(w, a), d);
            g'.protocolVersion == g.protocolVersion || exists id :: ActiveVersion(g', id, g'.protocolVersion)
  {
    hide Outcome, Admissible, World.At, World.With, Events, Inv, ActiveVersion, SettlementInv, AgreementInv;
    hide PalletFacts;
    var c := w.At(a.domain);
    if Outcome(c, a).Some? {
      var c' := Outcome(c, a).value;
      WithAt(w, a.domain, c', Apply(w, a).log);
      if a.Block? {
        BlockVersion(c, a, c');
      } else {
        CallVersion(c, a, c');
      }
    }
  }

  /** In every run the version of a chain is the one it started with or that of one of its active
      proposals. */
  lemma {:induction false} VersionIsActive(w: World, actions: seq<Action>, d: DomainId)
    requires WorldInv(w) && Legal(w, actions)
    ensures VersionFrom(Council(w, d), Council(Exec(w, actions), d))
    decreases |actions|
  {
    hide WorldInv, Admissible, Apply, World.At, VersionFrom, GP.ProposalsGrow;
    if actions == [] {
      StartVersion(Council(w, d));
    } else {
      var n := |actions| - 1;
      var v := Exec(w, actions[..n]);
      VersionIsActive(w, actions[..n], d);
      RunKeeps(w, actions[..n]);
      ProposalsGrowOnce(v, actions[n], d);
      StepVersion(v, actions[n], d);
      VersionKept(Council(w, d), Council(v, d), Council(Apply(v, actions[n]), d));
    }
  }

  lemma StartVersion(g: G.State)
    ensures VersionFrom(g, g)
  {
  }
}
