/** Governance can always be completed: a proposal whose acknowledgements are all in is scheduled at
    once, and from every reachable state each approved proposal has a legal continuation in which
    its source and all its targets hold it active. */
module Adoption {
  import opened Types
  import opened Exporter
  import opened Chain
  import opened Network
  import opened Settlement
  import opened History
  import opened Agreement
  import opened Activation
  import opened Runs
  import opened Theorems
  import opened Delivery
  import opened Completion
  import Sorting
  import opened GovernanceFlow
  import E = Epochs
  import TP = TransfersProofs
  import G = Governance
  import GP = GovernanceProofs
  import GS = GovernanceSteps

  // ---------- what every reachable state promises ----------

  lemma FlowOf(w: World, d: DomainId)
    requires WorldInv(w)
    ensures FlowInv(Council(w, d), d) && GP.Inv(Council(w, d), d, w.At(d).Epoch()) && w.At(d).domain == d
  {
    hide E.Inv, TP.Inv, GP.Inv, FlowInv, SettlementInv, LogInv, AgreementInv, RootsAt;
    assert PalletFacts(w.At(d)) && w.At(d).domain == d && Inv(w.At(d));
  }

  /** In every reachable state an approved proposal with all targets' acknowledgements known is
      scheduled or active. */
  lemma FullyAckedIsScheduled(w: World, d: DomainId, id: ItemId)
    requires WorldInv(w) && id in Council(w, d).proposals && GP.Live(Council(w, d).proposals[id].status)
    requires forall t :: t in Council(w, d).proposals[id].targetDomains ==> GP.Knows(Council(w, d), id, t)
    ensures var status := Council(w, d).proposals[id].status;
            status == G.Scheduled || status == G.Activated
  {
    hide WorldInv, GP.LeavesInv, GP.QueuesInv, LeavesPresent, AcksCount;
    FlowOf(w, d);
    assert GP.RecordOk(Council(w, d), d, id) && PromptAt(Council(w, d), id);
  }

  // ---------- moving forward ----------

  ghost predicate ForwardAt(w: World, v: World, d: DomainId) {
    && GP.ProposalsGrow(Council(w, d).proposals, Council(v, d).proposals) && w.At(d).Epoch() <= v.At(d).Epoch()
    && FlowGrows(Council(w, d), Council(v, d)) && Council(v, d).importer == Council(w, d).importer
  }

  /** Nothing known is lost on any chain. */
  ghost predicate Forward(w: World, v: World) { forall d: DomainId :: ForwardAt(w, v, d) }

  lemma ForwardSame(w: World, v: World, d: DomainId)
    requires v.At(d) == w.At(d)
    ensures ForwardAt(w, v, d)
  {
  }

  lemma ForwardThen(u: World, w: World, v: World)
    requires Forward(u, w) && Forward(w, v)
    ensures Forward(u, v)
  {
    hide GP.ProposalsGrow, World.At;
    forall d: DomainId ensures ForwardAt(u, v, d) {
      assert ForwardAt(u, w, d) && ForwardAt(w, v, d);
      GS.GrowTransitive(Council(u, d).proposals, Council(w, d).proposals, Council(v, d).proposals);
    }
  }

  lemma ForwardOnce(w: World, a: Action)
    requires WorldInv(w) && Admissible(w, a)
    ensures Forward(w, Apply(w, a))
  {
    hide WorldInv, Outcome, Admissible, World.At, World.With, Events, TP.Evolves, GP.ProposalsGrow, GP.LeavesGrow;
    hide FlowGrows, Inv, PalletFacts;
    var c := w.At(a.domain);
    var w' := Apply(w, a);
    if Outcome(c, a).Some? {
      WithAt(w, a.domain, Outcome(c, a).value, w'.log);
      LocalStep(w, a, Outcome(c, a).value);
    }
    forall d: DomainId ensures ForwardAt(w, w', d) {
      if w'.At(d) == w.At(d) {
        ForwardSame(w, w', d);
      }
    }
  }

  lemma {:induction false} ForwardRun(w: World, actions: seq<Action>)
    requires WorldInv(w) && Legal(w, actions)
    ensures Forward(w, Exec(w, actions)) && WorldInv(Exec(w, actions))
    decreases |actions|
  {
    hide WorldInv, Apply, Admissible, Forward;
    if actions == [] {
      StandStill(w);
    } else {
      var n := |actions| - 1;
      ForwardRun(w, actions[..n]);
      RunKeeps(w, actions);
      ForwardOnce(Exec(w, actions[..n]), actions[n]);
      ForwardThen(w, Exec(w, actions[..n]), Exec(w, actions));
    }
  }

  lemma StandStill(w: World)
    ensures Forward(w, w)
  {
    forall d: DomainId ensures ForwardAt(w, w, d) {
      ForwardSame(w, w, d);
    }
  }

  // ---------- importers and room ----------

  /** Leaves an import of the proposal may still add on a chain. */
  function Need(w: World, d: DomainId, id: ItemId, extra: nat): nat {
    if id in Council(w, d).proposals then 0 else extra
  }

  /** Importers everywhere, and room in every epoch for one acknowledgement fan-out. */
  ghost predicate Ready(w: World, id: ItemId, who: DomainId -> Account, extra: nat) {
    && WorldInv(w) && (forall d: DomainId :: Council(w, d).importer == Some(who(d)))
    && forall d: DomainId :: Room(w.At(d), 0, Need(w, d, id, extra))
  }

  lemma ReadyParts(w: World, id: ItemId, who: DomainId -> Account, extra: nat, d: DomainId)
    requires Ready(w, id, who, extra)
    ensures WorldInv(w) && ChainsOk(w) && AgreementInv(w) && G.Gate(Council(w, d), who(d)).None?
    ensures forall e: EpochId :: e in w.At(d).epochs.headers ==> Small(Served(w.At(d), e))
  {
    hide Room, Small, Served, World.At, ChainsOk, AgreementInv, SettlementInv, LogInv, PalletFacts;
    forall e: EpochId | e in w.At(d).epochs.headers ensures Small(Served(w.At(d), e)) {
      RoomIsSmall(w.At(d), 0, Need(w, d, id, extra), e);
    }
  }

  /** One more step of the plan. */
  ghost predicate Advanced(w: World, v: World, actions: seq<Action>, id: ItemId, who: DomainId -> Account, extra: nat) {
    Legal(w, actions) && Exec(w, actions) == v && Ready(v, id, who, extra) && Forward(w, v)
  }

  lemma AdvancedThen(u: World, w: World, v: World, a: seq<Action>, b: seq<Action>, id: ItemId, who: DomainId -> Account,
                     extra: nat)
    requires Advanced(u, w, a, id, who, extra) && Advanced(w, v, b, id, who, extra)
    ensures Advanced(u, v, a + b, id, who, extra)
  {
    hide Legal, Exec, Ready, Forward;
    Append(u, a, b);
    ForwardThen(u, w, v);
  }

  lemma NoAdvance(w: World, id: ItemId, who: DomainId -> Account, extra: nat)
    requires Ready(w, id, who, extra)
    ensures Advanced(w, w, [], id, who, extra)
  {
    hide Ready, Forward;
    StandStill(w);
  }

  lemma LessNeeded(c: Chain, c': Chain, need: nat, need': nat)
    requires Room(c, 0, need) && need' <= need && c'.governance.epochLeafIds == c.governance.epochLeafIds
    requires c'.transfers.epochExportIds == c.transfers.epochExportIds
    requires c'.transfers.epochImportIds == c.transfers.epochImportIds
    ensures Room(c', 0, need')
  {
    forall e: EpochId ensures RoomAt(c'.transfers, c'.governance, 0, need', e) {
      assert RoomAt(c.transfers, c.governance, 0, need, e);
    }
  }

  /** Steps that add to no epoch list. */
  lemma ReadyAfter(w: World, v: World, id: ItemId, who: DomainId -> Account, extra: nat)
    requires Ready(w, id, who, extra) && WorldInv(v) && Forward(w, v)
    requires forall d: DomainId ::
               && v.At(d).governance.epochLeafIds == w.At(d).governance.epochLeafIds
               && v.At(d).transfers.epochExportIds == w.At(d).transfers.epochExportIds
               && v.At(d).transfers.epochImportIds == w.At(d).transfers.epochImportIds
    ensures Ready(v, id, who, extra)
  {
    hide WorldInv, Room, World.At, FlowGrows;
    forall d: DomainId
      ensures Council(v, d).importer == Some(who(d)) && Room(v.At(d), 0, Need(v, d, id, extra))
    {
      assert ForwardAt(w, v, d);
      LessNeeded(w.At(d), v.At(d), Need(w, d, id, extra), Need(v, d, id, extra));
    }
  }

  // ---------- blocks ----------

  lemma SomeBlocks(w: World, d: DomainId, n: nat, id: ItemId, who: DomainId -> Account, extra: nat) returns (v: World)
    requires Ready(w, id, who, extra)
    ensures Advanced(w, v, Blocks(d, n), id, who, extra)
    ensures v.At(d).number == w.At(d).number + n && v.At(d).epochs.length == w.At(d).epochs.length
  {
    hide WorldInv, Room, World.At, Legal, Exec, Forward;
    ManyBlocks(w, d, n);
    v := Exec(w, Blocks(d, n));
    ForwardRun(w, Blocks(d, n));
    forall x: DomainId
      ensures v.At(x).governance.epochLeafIds == w.At(x).governance.epochLeafIds
      ensures v.At(x).transfers.epochExportIds == w.At(x).transfers.epochExportIds
      ensures v.At(x).transfers.epochImportIds == w.At(x).transfers.epochImportIds
    {
    }
    ReadyAfter(w, v, id, who, extra);
  }

  /** Closing the current epoch of one chain. */
  lemma CloseOne(w: World, d: DomainId, id: ItemId, who: DomainId -> Account, extra: nat)
    returns (v: World, actions: seq<Action>)
    requires Ready(w, id, who, extra)
    ensures Advanced(w, v, actions, id, who, extra) && w.At(d).Epoch() < v.At(d).Epoch()
  {
    hide WorldInv, Room, World.At, Legal, Exec, Forward;
    actions := Blocks(d, w.At(d).epochs.length);
    v := SomeBlocks(w, d, w.At(d).epochs.length, id, who, extra);
    EpochCloses(w, v, d);
  }

  // ---------- spreading the proposal ----------

  ghost predicate HeldAt(w: World, id: ItemId, k: DomainId) { id in Council(w, k).proposals }

  /** The source has approved it, in an epoch since closed. */
  ghost predicate Published(w: World, d: DomainId, id: ItemId) {
    && HeldAt(w, id, d) && Council(w, d).proposals[id].sourceDomain == d && GP.Live(Council(w, d).proposals[id].status)
    && Council(w, d).proposals[id].approvalEpoch.Some?
    && Council(w, d).proposals[id].approvalEpoch.value < w.At(d).Epoch()
  }

  lemma HeldForward(w: World, v: World, id: ItemId, k: DomainId)
    requires Forward(w, v) && HeldAt(w, id, k)
    ensures HeldAt(v, id, k) && GP.ProposalGrows(Council(w, k).proposals[id], Council(v, k).proposals[id])
  {
    assert ForwardAt(w, v, k);
  }

  lemma PublishedForward(w: World, v: World, d: DomainId, id: ItemId)
    requires Published(w, d, id) && Forward(w, v)
    ensures Published(v, d, id)
    ensures Council(v, d).proposals[id].targetDomains == Council(w, d).proposals[id].targetDomains
  {
    hide World.At, FlowGrows, GP.ProposalsGrow;
    HeldForward(w, v, id, d);
    assert ForwardAt(w, v, d);
  }

  lemma {:induction false} FewerInserted(s: G.State, p: G.Proposal, local: DomainId, epoch: EpochId,
                                         targets: seq<DomainId>, e: EpochId)
    ensures |G.LeafIds(G.InsertAckLeaves(s, p, local, epoch, targets), e)| <= |G.LeafIds(s, e)| + |targets|
    decreases |targets|
  {
    if targets != [] {
      FewerInserted(s, p, local, epoch, targets[..|targets| - 1], e);
    }
  }

  lemma {:induction false} DedupShortens<X>(s: seq<X>)
    ensures |G.Dedup(s)| <= |s|
  {
    if |s| > 1 {
      DedupShortens(s[1..]);
    }
  }

  lemma {:induction false} WithoutShortens(domains: seq<DomainId>, d: DomainId)
    ensures |G.Without(domains, d)| <= |domains|
  {
    if domains != [] {
      WithoutShortens(domains[1..], d);
    }
  }

  lemma FanoutShort(p: G.Proposal, local: DomainId)
    ensures |G.FanoutTargets(p, local)| <= |p.targetDomains| + 1
  {
    DedupShortens(Sorting.Sort(p.targetDomains + [p.sourceDomain], G.DomainLeq));
    WithoutShortens(G.SortedDomains(p.targetDomains + [p.sourceDomain]), local);
  }

  /** An import adds at most one leaf per domain named. */
  lemma ImportAddsFew(s: G.State, env: G.Env, who: Account, leaf: ProposalLeafInput, s': G.State, e: EpochId)
    requires G.ImportProposal(s, env, who, leaf) == Ok(s')
    ensures |G.LeafIds(s', e)| <= |G.LeafIds(s, e)| + |leaf.targetDomains| + 1
  {
    hide G.MaybeSchedule, G.InsertAckLeaves, G.FanoutTargets, G.ActivationFor;
    var p := G.ImportedProposal(leaf);
    var s1 := s.(proposals := s.proposals[leaf.proposalId := p],
                 activations := s.activations[p.proposalId := G.ActivationFor(p, [env.domain])]);
    var s2 := s1.(acks := s1.acks[(p.proposalId, env.domain) :=
      G.AckRecord(p.sourceDomain, p.targetDomains, p.activationEpoch, p.payloadHash, p.newVersion, env.epoch,
                  env.height)]);
    FewerInserted(s2, p, env.domain, env.epoch, G.FanoutTargets(p, env.domain), e);
    FanoutShort(p, env.domain);
    ScheduleKnows(G.RecordLocalAck(s1, p, env), leaf.proposalId, env.epoch);
  }

  lemma GovernanceApplied(w: World, a: Action, g: G.State)
    requires a.ImportProposal? || a.ImportAck?
    requires GovernanceCall(w.At(a.domain), a) == Ok(g)
    ensures Apply(w, a).At(a.domain) == w.At(a.domain).(governance := g)
    ensures forall x: DomainId :: x != a.domain ==> Apply(w, a).At(x) == w.At(x)
  {
    hide TransfersCall, GovernanceCall, NextBlock;
  }

  /** A committed leaf of the proposal, for one of its targets. */
  lemma LeafOfPublished(w: World, d: DomainId, id: ItemId, k: DomainId) returns (leaf: GovernanceLeaf)
    requires WorldInv(w) && Published(w, d, id) && k in Council(w, d).proposals[id].targetDomains
    ensures leaf in G.CanonicalLeaves(Council(w, d), Council(w, d).proposals[id].approvalEpoch.value)
    ensures leaf.ProposalLeaf? && leaf.ProposalId() == id && leaf.TargetDomain() == k
    ensures leaf.proposal.targetDomains == Council(w, d).proposals[id].targetDomains
  {
    hide WorldInv, GP.CoreInv, AcksCount, Prompt, G.CanonicalLeaves;
    FlowOf(w, d);
    var g := Council(w, d);
    var e := g.proposals[id].approvalEpoch.value;
    assert OutboundOk(g, d, id);
    leaf :| InList(g, e, leaf) && IsProposalLeaf(leaf, id, k);
    InListIsCommitted(g, e, leaf);
    GS.CommittedLeaf(g, d, w.At(d).Epoch(), e, leaf);
  }

  lemma RoomAfterImport(c: Chain, who: Account, leaf: ProposalLeafInput, g': G.State, extra: nat)
    requires Room(c, 0, extra) && |leaf.targetDomains| + 1 <= extra
    requires G.ImportProposal(c.governance, GovernanceEnv(c), who, leaf) == Ok(g')
    ensures Room(c.(governance := g'), 0, 0)
  {
    hide G.ImportProposal;
    forall e: EpochId ensures RoomAt(c.transfers, g', 0, 0, e) {
      assert RoomAt(c.transfers, c.governance, 0, extra, e);
      ImportAddsFew(c.governance, GovernanceEnv(c), who, leaf, g', e);
    }
  }

  lemma ImportStored(w: World, k: DomainId, who: Account, leaf: ProposalLeafInput)
    requires WorldInv(w) && G.ImportProposal(Council(w, k), GovernanceEnv(w.At(k)), who, leaf).Ok?
    ensures leaf.proposalId in G.ImportProposal(Council(w, k), GovernanceEnv(w.At(k)), who, leaf).value.proposals
  {
    hide WorldInv, G.ImportProposal, GP.Inv, FlowInv;
    FlowOf(w, k);
    ImportCommits(Council(w, k), GovernanceEnv(w.At(k)), who, leaf,
                  G.ImportProposal(Council(w, k), GovernanceEnv(w.At(k)), who, leaf).value);
  }

  /** What the import leaves behind. */
  lemma ImportCalled(w: World, k: DomainId, id: ItemId, leaf: ProposalLeafInput, who: DomainId -> Account, extra: nat)
    requires Ready(w, id, who, extra) && id == leaf.proposalId && id !in Council(w, k).proposals
    requires |leaf.targetDomains| + 1 <= extra
    requires var a := ImportProposal(k, who(k), leaf);
             Admissible(w, a) && Outcome(w.At(k), a).Some?
    ensures var v := Apply(w, ImportProposal(k, who(k), leaf));
            Ready(v, id, who, extra) && HeldAt(v, id, k)
  {
    hide WorldInv, World.At, Apply, G.ImportProposal, TransfersCall, NextBlock, FlowGrows, GP.ProposalsGrow, Admissible;
    hide Room;
    var a := ImportProposal(k, who(k), leaf);
    var v := Apply(w, a);
    var g' := GovernanceCall(w.At(k), a).value;
    GovernanceApplied(w, a, g');
    WorldStep(w, a);
    ForwardOnce(w, a);
    ImportStored(w, k, who(k), leaf);
    RoomAfterImport(w.At(k), who(k), leaf, g', extra);
    forall d: DomainId
      ensures Council(v, d).importer == Some(who(d)) && Room(v.At(d), 0, Need(v, d, id, extra))
    {
      assert ForwardAt(w, v, d);
    }
  }

  /** The proposal reaches one target. */
  lemma SpreadOne(w: World, d: DomainId, id: ItemId, k: DomainId, who: DomainId -> Account, extra: nat)
    returns (v: World, actions: seq<Action>)
    requires Ready(w, id, who, extra) && Published(w, d, id) && k in Council(w, d).proposals[id].targetDomains
    requires |Council(w, d).proposals[id].targetDomains| + 1 <= extra
    ensures Advanced(w, v, actions, id, who, extra) && HeldAt(v, id, k)
  {
    hide Ready, WorldInv, World.At, Legal, Exec, Apply, Admissible, Outcome, Small, Served, G.CanonicalLeaves, Forward;
    hide ChainsOk, AgreementInv, Published;
    PublishedFacts(w, d, id);
    if HeldAt(w, id, k) {
      NoAdvance(w, id, who, extra);
      v, actions := w, [];
    } else {
      ReadyParts(w, id, who, extra, d);
      ReadyParts(w, id, who, extra, k);
      var e := Council(w, d).proposals[id].approvalEpoch.value;
      var leaf := LeafOfPublished(w, d, id, k);
      ProposalCanBeImported(w, d, e, leaf, who(k), ANY_CERTIFICATE, ANY_STORAGE);
      var a := ImportProposal(k, who(k), leaf.proposal);
      ImportCalled(w, k, id, leaf.proposal, who, extra);
      ForwardOnce(w, a);
      One(w, a);
      v, actions := Apply(w, a), [a];
    }
  }

  lemma PublishedFacts(w: World, d: DomainId, id: ItemId)
    requires Published(w, d, id)
    ensures HeldAt(w, id, d) && Council(w, d).proposals[id].approvalEpoch.Some?
    ensures Council(w, d).proposals[id].approvalEpoch.value < w.At(d).Epoch()
  {
  }

  /** The proposal reaches all of them. */
  lemma {:induction false} SpreadAll(w: World, d: DomainId, id: ItemId, ks: seq<DomainId>, who: DomainId -> Account,
                                     extra: nat)
    returns (v: World, actions: seq<Action>)
    requires Ready(w, id, who, extra) && Published(w, d, id)
    requires forall k :: k in ks ==> k in Council(w, d).proposals[id].targetDomains
    requires |Council(w, d).proposals[id].targetDomains| + 1 <= extra
    ensures Advanced(w, v, actions, id, who, extra) && forall k :: k in ks ==> HeldAt(v, id, k)
    decreases |ks|
  {
    hide Ready, World.At, Legal, Exec, Forward, Published, HeldAt;
    PublishedFacts(w, d, id);
    if ks == [] {
      NoAdvance(w, id, who, extra);
      v, actions := w, [];
    } else {
      var n := |ks| - 1;
      assert ks[n] in ks && forall k :: k in ks[..n] ==> k in ks;
      var u, a := SpreadAll(w, d, id, ks[..n], who, extra);
      PublishedForward(w, u, d, id);
      PublishedFacts(u, d, id);
      var b;
      v, b := SpreadOne(u, d, id, ks[n], who, extra);
      forall k | k in ks ensures HeldAt(v, id, k) {
        if k in ks[..n] {
          HeldForward(u, v, id, k);
        }
      }
      AdvancedThen(w, u, v, a, b, id, who, extra);
      actions := a + b;
    }
  }

  /** Closing the current epochs of several chains. */
  lemma {:induction false} CloseAll(w: World, ks: seq<DomainId>, id: ItemId, who: DomainId -> Account, extra: nat)
    returns (v: World, actions: seq<Action>)
    requires Ready(w, id, who, extra)
    ensures Advanced(w, v, actions, id, who, extra) && forall k :: k in ks ==> w.At(k).Epoch() < v.At(k).Epoch()
    decreases |ks|
  {
    hide Ready, World.At, Legal, Exec, FlowGrows, GP.ProposalsGrow;
    if ks == [] {
      NoAdvance(w, id, who, extra);
      v, actions := w, [];
    } else {
      var n := |ks| - 1;
      var u, a := CloseAll(w, ks[..n], id, who, extra);
      var b;
      v, b := CloseOne(u, ks[n], id, who, extra);
      forall k | k in ks ensures w.At(k).Epoch() < v.At(k).Epoch() {
        assert ForwardAt(w, u, k) && ForwardAt(u, v, k) && (k in ks[..n] || k == ks[n]);
      }
      AdvancedThen(w, u, v, a, b, id, who, extra);
      actions := a + b;
    }
  }

  // ---------- acknowledgements ----------

  /** A copy that names this source and these targets. */
  ghost predicate CopyOf(w: World, x: DomainId, id: ItemId, d: DomainId, targets: seq<DomainId>) {
    && HeldAt(w, id, x) && Council(w, x).proposals[id].sourceDomain == d
    && Council(w, x).proposals[id].targetDomains == targets && GP.Live(Council(w, x).proposals[id].status)
  }

  /** Acknowledged, in an epoch since closed. */
  ghost predicate Acked(w: World, k: DomainId, id: ItemId) {
    && (id, k) in Council(w, k).acks && Council(w, k).acks[(id, k)].acknowledgedEpoch < w.At(k).Epoch()
  }

  lemma CopyForward(w: World, v: World, x: DomainId, id: ItemId, d: DomainId, targets: seq<DomainId>)
    requires CopyOf(w, x, id, d, targets) && Forward(w, v)
    ensures CopyOf(v, x, id, d, targets)
  {
    hide World.At;
    HeldForward(w, v, id, x);
  }

  lemma AckedForward(w: World, v: World, k: DomainId, id: ItemId)
    requires Acked(w, k, id) && Forward(w, v)
    ensures Acked(v, k, id)
  {
    hide World.At, GP.ProposalsGrow;
    assert ForwardAt(w, v, k);
  }

  lemma KnowsForward(w: World, v: World, x: DomainId, id: ItemId, k: DomainId)
    requires GP.Knows(Council(w, x), id, k) && Forward(w, v)
    ensures GP.Knows(Council(v, x), id, k)
  {
    hide World.At, GP.ProposalsGrow, GP.Knows;
    assert ForwardAt(w, v, x);
  }

  /** The acknowledgement of a copy is recorded in an epoch already reached. */
  lemma AckRecorded(w: World, k: DomainId, id: ItemId, d: DomainId, targets: seq<DomainId>)
    requires WorldInv(w) && CopyOf(w, k, id, d, targets) && k != d
    ensures (id, k) in Council(w, k).acks && Council(w, k).acks[(id, k)].acknowledgedEpoch <= w.At(k).Epoch()
    ensures GP.Knows(Council(w, k), id, k)
  {
    hide WorldInv, GP.CoreInv, Prompt;
    FlowOf(w, k);
    var g := Council(w, k);
    assert InboundOk(g, k, id) && AckCounts(g, (id, k));
    var e := g.acks[(id, k)].acknowledgedEpoch;
    assert Concerned(g.proposals[id], k, d);
    var leaf :| InList(g, e, leaf) && IsAckLeaf(leaf, id, d);
    assert GP.LeafListOk(g, k, w.At(k).Epoch(), e);
  }

  lemma LeafOfAck(w: World, k: DomainId, id: ItemId, d: DomainId, targets: seq<DomainId>, x: DomainId)
    returns (leaf: GovernanceLeaf)
    requires WorldInv(w) && CopyOf(w, k, id, d, targets) && k != d && x != k && (x == d || x in targets)
    requires (id, k) in Council(w, k).acks
    ensures leaf in G.CanonicalLeaves(Council(w, k), Council(w, k).acks[(id, k)].acknowledgedEpoch)
    ensures leaf.AckLeaf? && leaf.ProposalId() == id && leaf.TargetDomain() == x && leaf.ack.acknowledgingDomain == k
  {
    hide WorldInv, GP.CoreInv, AcksCount, Prompt, G.CanonicalLeaves;
    FlowOf(w, k);
    var g := Council(w, k);
    assert InboundOk(g, k, id) && Concerned(g.proposals[id], k, x);
    var e := g.acks[(id, k)].acknowledgedEpoch;
    leaf :| InList(g, e, leaf) && IsAckLeaf(leaf, id, x);
    InListIsCommitted(g, e, leaf);
    GS.CommittedLeaf(g, k, w.At(k).Epoch(), e, leaf);
  }

  /** An acknowledgement that is not known has not been recorded either. */
  lemma UnknownIsNew(w: World, x: DomainId, id: ItemId, k: DomainId)
    requires WorldInv(w) && !GP.Knows(Council(w, x), id, k)
    ensures (id, k) !in Council(w, x).acks
  {
    hide WorldInv, GP.Inv, GP.Knows, Prompt, LeavesPresent;
    FlowOf(w, x);
    assert AckCounts(Council(w, x), (id, k));
  }

  lemma NoteKeepsLists(s: G.State, id: ItemId, acking: DomainId, epoch: EpochId)
    ensures G.NoteAck(s, id, acking, epoch).epochLeafIds == s.epochLeafIds
  {
    hide G.MaybeSchedule, G.SortedDomains;
    ScheduleKnows(s, id, epoch);
    if id in s.activations {
      ScheduleKnows(GS.WithAck(s, id, acking), id, epoch);
    }
  }

  /** What an acknowledgement does to the chain it is imported on. */
  lemma AckEffect(w: World, x: DomainId, who: Account, leaf: AckLeafInput, g': G.State)
    requires WorldInv(w) && Admissible(w, ImportAck(x, who, leaf))
    requires G.ImportAck(Council(w, x), GovernanceEnv(w.At(x)), who, leaf) == Ok(g')
    ensures GP.Knows(g', leaf.proposalId, leaf.acknowledgingDomain) && g'.epochLeafIds == Council(w, x).epochLeafIds
  {
    hide WorldInv, World.At, G.ImportAck, Admissible, GP.Knows, FlowInv, GP.Inv, G.NoteAck, ChainsOk, AgreementInv;
    hide FlowGrows;
    var env := GovernanceEnv(w.At(x));
    FlowOf(w, x);
    InvariantParts(w);
    AckIsOfApproved(w, ImportAck(x, who, leaf), w.At(x).(governance := g'));
    ImportAckFlow(Council(w, x), env, who, leaf, g');
    ImportAckShape(Council(w, x), env, who, leaf, g');
    NoteKeepsLists(AckStored(Council(w, x), env, leaf), leaf.proposalId, leaf.acknowledgingDomain, env.epoch);
  }

  lemma AckCalled(w: World, x: DomainId, id: ItemId, k: DomainId, leaf: AckLeafInput, who: DomainId -> Account,
                  extra: nat)
    requires Ready(w, id, who, extra) && leaf.proposalId == id && leaf.acknowledgingDomain == k
    requires var a := ImportAck(x, who(x), leaf);
             Admissible(w, a) && Outcome(w.At(x), a).Some?
    ensures var v := Apply(w, ImportAck(x, who(x), leaf));
            Ready(v, id, who, extra) && GP.Knows(Council(v, x), id, k)
  {
    hide WorldInv, World.At, Apply, G.ImportAck, TransfersCall, NextBlock, Forward, Admissible, Room, GP.Knows;
    var a := ImportAck(x, who(x), leaf);
    var v := Apply(w, a);
    var g' := GovernanceCall(w.At(x), a).value;
    GovernanceApplied(w, a, g');
    WorldStep(w, a);
    ForwardOnce(w, a);
    AckEffect(w, x, who(x), leaf, g');
    ReadyAfter(w, v, id, who, extra);
  }

  /** One chain learns that another has acknowledged. */
  lemma TellOne(w: World, k: DomainId, x: DomainId, id: ItemId, d: DomainId, targets: seq<DomainId>,
                who: DomainId -> Account, extra: nat)
    returns (v: World, actions: seq<Action>)
    requires Ready(w, id, who, extra) && CopyOf(w, k, id, d, targets) && CopyOf(w, x, id, d, targets)
    requires k != d && (x == d || x in targets) && Acked(w, k, id)
    ensures Advanced(w, v, actions, id, who, extra) && GP.Knows(Council(v, x), id, k)
  {
    hide Ready, WorldInv, World.At, Legal, Exec, Apply, Admissible, Outcome, Small, Served, G.CanonicalLeaves, Forward;
    hide ChainsOk, AgreementInv, GP.Knows;
    ReadyParts(w, id, who, extra, k);
    ReadyParts(w, id, who, extra, x);
    if GP.Knows(Council(w, x), id, k) {
      NoAdvance(w, id, who, extra);
      v, actions := w, [];
    } else {
      if x == k {
        AckRecorded(w, k, id, d, targets);
      }
      var e := Council(w, k).acks[(id, k)].acknowledgedEpoch;
      var leaf := LeafOfAck(w, k, id, d, targets, x);
      UnknownIsNew(w, x, id, k);
      AckCanBeImported(w, k, e, leaf, who(x), ANY_CERTIFICATE, ANY_STORAGE);
      var a := ImportAck(x, who(x), leaf.ack);
      AckCalled(w, x, id, k, leaf.ack, who, extra);
      ForwardOnce(w, a);
      One(w, a);
      v, actions := Apply(w, a), [a];
    }
  }

  ghost predicate Circulated(w: World, id: ItemId, d: DomainId, targets: seq<DomainId>) {
    && CopyOf(w, d, id, d, targets) && d !in targets
    && forall k :: k in targets ==> CopyOf(w, k, id, d, targets) && Acked(w, k, id)
  }

  lemma CirculatedForward(w: World, v: World, id: ItemId, d: DomainId, targets: seq<DomainId>)
    requires Circulated(w, id, d, targets) && Forward(w, v)
    ensures Circulated(v, id, d, targets)
  {
    hide World.At, CopyOf, Acked, Forward;
    CopyForward(w, v, d, id, d, targets);
    forall k | k in targets ensures CopyOf(v, k, id, d, targets) && Acked(v, k, id) {
      CopyForward(w, v, k, id, d, targets);
      AckedForward(w, v, k, id);
    }
  }

  /** One chain learns of all acknowledgements. */
  lemma {:induction false} TellAll(w: World, ks: seq<DomainId>, x: DomainId, id: ItemId, d: DomainId,
                                   targets: seq<DomainId>, who: DomainId -> Account, extra: nat)
    returns (v: World, actions: seq<Action>)
    requires Ready(w, id, who, extra) && Circulated(w, id, d, targets) && (x == d || x in targets)
    requires forall k :: k in ks ==> k in targets
    ensures Advanced(w, v, actions, id, who, extra) && forall k :: k in ks ==> GP.Knows(Council(v, x), id, k)
    decreases |ks|
  {
    hide Ready, World.At, Legal, Exec, Forward, CopyOf, Acked, GP.Knows;
    if ks == [] {
      NoAdvance(w, id, who, extra);
      v, actions := w, [];
    } else {
      var n := |ks| - 1;
      assert ks[n] in ks && forall k :: k in ks[..n] ==> k in ks;
      var u, a := TellAll(w, ks[..n], x, id, d, targets, who, extra);
      CirculatedForward(w, u, id, d, targets);
      var b;
      v, b := TellOne(u, ks[n], x, id, d, targets, who, extra);
      forall k | k in ks ensures GP.Knows(Council(v, x), id, k) {
        if k in ks[..n] {
          KnowsForward(u, v, x, id, k);
        }
      }
      AdvancedThen(w, u, v, a, b, id, who, extra);
      actions := a + b;
    }
  }

  // ---------- activation ----------

  ghost predicate ActiveAt(w: World, id: ItemId, x: DomainId) {
    HeldAt(w, id, x) && Council(w, x).proposals[id].status == G.Activated
  }

  lemma ActiveForward(w: World, v: World, id: ItemId, x: DomainId)
    requires ActiveAt(w, id, x) && Forward(w, v)
    ensures ActiveAt(v, id, x)
  {
    hide World.At;
    HeldForward(w, v, id, x);
  }

  lemma StatusesAgree(w: World, x: DomainId, id: ItemId)
    requires WorldInv(w) && HeldAt(w, id, x) && GP.Live(Council(w, x).proposals[id].status)
    ensures id in Council(w, x).activations
    ensures Council(w, x).activations[id].status == Council(w, x).proposals[id].status
  {
    hide WorldInv, FlowInv, GP.LeavesInv, GP.QueuesInv;
    FlowOf(w, x);
    assert GP.RecordOk(Council(w, x), x, id);
  }

  /** A scheduled proposal becomes active after enough blocks. */
  lemma ActivateOne(w: World, x: DomainId, id: ItemId, who: DomainId -> Account, extra: nat)
    returns (v: World, actions: seq<Action>)
    requires Ready(w, id, who, extra) && HeldAt(w, id, x)
    requires var status := Council(w, x).proposals[id].status;
             status == G.Scheduled || status == G.Activated
    ensures Advanced(w, v, actions, id, who, extra) && ActiveAt(v, id, x)
  {
    hide Ready, WorldInv, World.At, Legal, Exec, Forward;
    ReadyParts(w, id, who, extra, x);
    if Council(w, x).proposals[id].status == G.Activated {
      NoAdvance(w, id, who, extra);
      v, actions := w, [];
    } else {
      StatusesAgree(w, x, id);
      var block := ActivationBlock(w.At(x), Council(w, x).activations[id]);
      var n := if block <= w.At(x).number then 0 else block - w.At(x).number;
      actions := Blocks(x, n);
      v := SomeBlocks(w, x, n, id, who, extra);
      ActivatesInItsBlock(w, actions, x, id);
      ReadyParts(v, id, who, extra, x);
      HeldForward(w, v, id, x);
      StatusesAgree(v, x, id);
    }
  }

  /** One party: all acknowledgements, then activation. */
  lemma AdoptOne(w: World, x: DomainId, id: ItemId, d: DomainId, targets: seq<DomainId>, who: DomainId -> Account,
                 extra: nat)
    returns (v: World, actions: seq<Action>)
    requires Ready(w, id, who, extra) && Circulated(w, id, d, targets) && (x == d || x in targets)
    ensures Advanced(w, v, actions, id, who, extra) && ActiveAt(v, id, x)
  {
    hide Ready, WorldInv, World.At, Legal, Exec, Forward, Acked, GP.Knows;
    var u, a := TellAll(w, targets, x, id, d, targets, who, extra);
    CirculatedForward(w, u, id, d, targets);
    assert CopyOf(u, x, id, d, targets);
    ReadyParts(u, id, who, extra, x);
    FullyAckedIsScheduled(u, x, id);
    var b;
    v, b := ActivateOne(u, x, id, who, extra);
    AdvancedThen(w, u, v, a, b, id, who, extra);
    actions := a + b;
  }

  lemma {:induction false} AdoptAll(w: World, xs: seq<DomainId>, id: ItemId, d: DomainId, targets: seq<DomainId>,
                                    who: DomainId -> Account, extra: nat)
    returns (v: World, actions: seq<Action>)
    requires Ready(w, id, who, extra) && Circulated(w, id, d, targets)
    requires forall x :: x in xs ==> x == d || x in targets
    ensures Advanced(w, v, actions, id, who, extra) && forall x :: x in xs ==> ActiveAt(v, id, x)
    decreases |xs|
  {
    hide Ready, World.At, Legal, Exec, Forward, Circulated, ActiveAt;
    if xs == [] {
      NoAdvance(w, id, who, extra);
      v, actions := w, [];
    } else {
      var n := |xs| - 1;
      assert xs[n] in xs && forall x :: x in xs[..n] ==> x in xs;
      var u, a := AdoptAll(w, xs[..n], id, d, targets, who, extra);
      CirculatedForward(w, u, id, d, targets);
      var b;
      v, b := AdoptOne(u, xs[n], id, d, targets, who, extra);
      forall x | x in xs ensures ActiveAt(v, id, x) {
        if x in xs[..n] {
          ActiveForward(u, v, id, x);
        }
      }
      AdvancedThen(w, u, v, a, b, id, who, extra);
      actions := a + b;
    }
  }

  // ---------- together ----------

  lemma ApprovalListed(g: G.State, d: DomainId, epoch: EpochId, id: ItemId)
    requires GP.Inv(g, d, epoch) && LeavesPresent(g, d) && id in g.proposals
    requires g.proposals[id].sourceDomain == d && GP.Live(g.proposals[id].status)
    ensures var p := g.proposals[id];
            p.approvalEpoch.Some? && p.approvalEpoch.value <= epoch && d !in p.targetDomains
  {
    hide GP.QueuesInv, GP.LeafOk;
    var p := g.proposals[id];
    assert GP.RecordOk(g, d, id) && OutboundOk(g, d, id);
    var t := p.targetDomains[0];
    assert t in p.targetDomains;
    var leaf :| InList(g, p.approvalEpoch.value, leaf) && IsProposalLeaf(leaf, id, t);
    assert GP.LeafListOk(g, d, epoch, p.approvalEpoch.value);
  }

  /** Its source's epoch of approval has been reached. */
  lemma ApprovalReached(w: World, d: DomainId, id: ItemId)
    requires WorldInv(w) && HeldAt(w, id, d) && Council(w, d).proposals[id].sourceDomain == d
    requires GP.Live(Council(w, d).proposals[id].status)
    ensures var p := Council(w, d).proposals[id];
            p.approvalEpoch.Some? && p.approvalEpoch.value <= w.At(d).Epoch() && d !in p.targetDomains
  {
    hide WorldInv, GP.Inv, LeavesPresent, AcksCount, Prompt;
    FlowOf(w, d);
    ApprovalListed(Council(w, d), d, w.At(d).Epoch(), id);
  }

  /** Copies name the same source and targets. */
  lemma HeldIsCopy(w: World, x: DomainId, id: ItemId, d: DomainId, targets: seq<DomainId>)
    requires WorldInv(w) && CopyOf(w, d, id, d, targets) && HeldAt(w, id, x)
    ensures CopyOf(w, x, id, d, targets)
  {
    hide SettlementInv, LogInv, PalletFacts, E.Inv, TP.Inv, RootsAt, GP.LeavesInv, GP.QueuesInv;
    HomeDomain(w, d, id);
    HomeDomain(w, x, id);
    if x != d {
      ImportedIsLive(w, x, id);
    }
    CopiesAgree(w, d, x, id);
  }

  /** Publish: the epoch of approval is closed and every target imports. */
  lemma Publish(w: World, id: ItemId, d: DomainId, who: DomainId -> Account, extra: nat)
    returns (v: World, actions: seq<Action>)
    requires Ready(w, id, who, extra) && HeldAt(w, id, d) && Council(w, d).proposals[id].sourceDomain == d
    requires GP.Live(Council(w, d).proposals[id].status) && |Council(w, d).proposals[id].targetDomains| + 1 <= extra
    ensures var targets := Council(w, d).proposals[id].targetDomains;
            && Advanced(w, v, actions, id, who, extra) && CopyOf(v, d, id, d, targets)
            && forall k :: k in targets ==> CopyOf(v, k, id, d, targets)
  {
    hide Ready, WorldInv, World.At, Legal, Exec, Forward;
    ReadyParts(w, id, who, extra, d);
    ApprovalReached(w, d, id);
    var targets := Council(w, d).proposals[id].targetDomains;
    var u, a := CloseOne(w, d, id, who, extra);
    assert CopyOf(w, d, id, d, targets);
    CopyForward(w, u, d, id, d, targets);
    HeldForward(w, u, id, d);
    var b;
    v, b := SpreadAll(u, d, id, targets, who, extra);
    CopyForward(u, v, d, id, d, targets);
    ReadyParts(v, id, who, extra, d);
    forall k | k in targets ensures CopyOf(v, k, id, d, targets) {
      HeldIsCopy(v, k, id, d, targets);
    }
    AdvancedThen(w, u, v, a, b, id, who, extra);
    actions := a + b;
  }

  /** Circulate: the epochs of the acknowledgements are closed as well. */
  lemma Circulate(w: World, id: ItemId, d: DomainId, targets: seq<DomainId>, who: DomainId -> Account, extra: nat)
    returns (v: World, actions: seq<Action>)
    requires Ready(w, id, who, extra) && CopyOf(w, d, id, d, targets) && d !in targets
    requires forall k :: k in targets ==> CopyOf(w, k, id, d, targets)
    ensures Advanced(w, v, actions, id, who, extra) && Circulated(v, id, d, targets)
  {
    hide Ready, WorldInv, World.At, Legal, Exec, CopyOf, GP.ProposalsGrow, GP.Knows;
    ReadyParts(w, id, who, extra, d);
    v, actions := CloseAll(w, targets, id, who, extra);
    CopyForward(w, v, d, id, d, targets);
    forall k | k in targets ensures CopyOf(v, k, id, d, targets) && Acked(v, k, id) {
      CopyForward(w, v, k, id, d, targets);
      AckRecorded(w, k, id, d, targets);
      assert ForwardAt(w, v, k);
    }
  }

  /** Every approved proposal can be adopted: with importers and room, there is a legal continuation
      after which its source and all its targets hold it active. */
  lemma EveryProposalCanActivate(w: World, id: ItemId, d: DomainId, who: DomainId -> Account)
    returns (v: World, actions: seq<Action>)
    requires HeldAt(w, id, d) && Council(w, d).proposals[id].sourceDomain == d
    requires GP.Live(Council(w, d).proposals[id].status)
    requires Ready(w, id, who, |Council(w, d).proposals[id].targetDomains| + 1)
    ensures Legal(w, actions) && Exec(w, actions) == v && ActiveAt(v, id, d)
    ensures forall k :: k in Council(w, d).proposals[id].targetDomains ==> ActiveAt(v, id, k)
  {
    hide Ready, WorldInv, World.At, Legal, Exec, Forward, CopyOf, ActiveAt, Circulated;
    var targets := Council(w, d).proposals[id].targetDomains;
    var extra := |targets| + 1;
    ReadyParts(w, id, who, extra, d);
    ApprovalReached(w, d, id);
    var u1, a1 := Publish(w, id, d, who, extra);
    var u2, a2 := Circulate(u1, id, d, targets, who, extra);
    var a3;
    v, a3 := AdoptAll(u2, targets + [d], id, d, targets, who, extra);
    AdvancedThen(w, u1, u2, a1, a2, id, who, extra);
    AdvancedThen(w, u2, v, a1 + a2, a3, id, who, extra);
    actions := a1 + a2 + a3;
    assert d in targets + [d];
    forall k | k in targets ensures ActiveAt(v, id, k) {
      assert k in targets + [d];
    }
  }
}
