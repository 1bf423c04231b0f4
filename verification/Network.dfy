/** The three chains together.  Every step is a block boundary or a call on one chain; what
    crosses between chains is only what a verified package backs. */
module Network {
  import opened Types
  import opened Packages
  import opened Chain
  import E = Epochs
  import T = Transfers
  import TP = TransfersProofs
  import G = Governance
  import GP = GovernanceProofs
  import GS = GovernanceSteps

  /** The history of an export. */
  datatype Event = Created(id: ItemId) | Committed(id: ItemId) | Minted(id: ItemId) | Burnt(id: ItemId)

  datatype World = World(earth: Chain, moon: Chain, mars: Chain, log: seq<Event>)
  {
    function At(d: DomainId): Chain {
      match d
      case Earth => earth
      case Moon => moon
      case Mars => mars
    }

    function With(d: DomainId, c: Chain): World {
      match d
      case Earth => this.(earth := c)
      case Moon => this.(moon := c)
      case Mars => this.(mars := c)
    }
  }

  lemma WithAt(w: World, d: DomainId, c: Chain, log: seq<Event>)
    ensures var w' := w.With(d, c).(log := log);
            w'.At(d) == c && forall x: DomainId :: x != d ==> w'.At(x) == w.At(x)
  {
  }

  datatype Action =
    | Block(domain: DomainId, observation: E.Observation, parentHash: Digest, validatorSetHash: Digest)
    | Transfer(domain: DomainId, who: Account, target: DomainId, recipient: Account, amount: nat,
               allowed: bool, extrinsicIndex: nat)
    | ObserveImport(domain: DomainId, who: Account, observed: T.ObservedClaim)
    | FinalizeImport(domain: DomainId, who: Account, exportId: ItemId, allowed: bool)
    | AcknowledgeExport(domain: DomainId, who: Account, completion: T.FinalizationClaim)
    | Propose(domain: DomainId, who: Account, targets: seq<DomainId>, newVersion: nat)
    | Vote(domain: DomainId, who: Account, proposalId: ItemId, choice: G.Choice)
    | Close(domain: DomainId, proposalId: ItemId)
    | ImportProposal(domain: DomainId, who: Account, proposal: ProposalLeafInput)
    | ImportAck(domain: DomainId, who: Account, ack: AckLeafInput)

  function TransfersEnv(c: Chain, extrinsicIndex: nat): T.Env { T.Env(c.domain, c.Epoch(), c.number, extrinsicIndex) }
  function GovernanceEnv(c: Chain): G.Env { G.Env(c.domain, c.Epoch(), c.number) }

  function TransfersCall(c: Chain, a: Action): Result<T.State, T.Error>
    requires a.Transfer? || a.ObserveImport? || a.FinalizeImport? || a.AcknowledgeExport?
  {
    match a
    case Transfer(_, who, target, recipient, amount, allowed, extrinsicIndex) =>
      T.Create(c.transfers, TransfersEnv(c, extrinsicIndex), who, target, recipient, amount, allowed)
    case ObserveImport(_, who, claim) => T.Observe(c.transfers, TransfersEnv(c, 0), who, claim)
    case FinalizeImport(_, who, id, allowed) => T.Finalize(c.transfers, TransfersEnv(c, 0), who, id, allowed)
    case AcknowledgeExport(_, who, claim) => T.Acknowledge(c.transfers, TransfersEnv(c, 0), who, claim)
  }

  /** Voting power is the free balance at the time of the proposal. */
  function GovernanceCall(c: Chain, a: Action): Result<G.State, G.Error>
    requires a.Propose? || a.Vote? || a.Close? || a.ImportProposal? || a.ImportAck?
  {
    match a
    case Propose(_, who, targets, newVersion) =>
      G.CreateProposal(c.governance, GovernanceEnv(c), who, targets, newVersion, c.transfers.free)
    case Vote(_, who, id, choice) => G.CastVote(c.governance, GovernanceEnv(c), who, id, choice)
    case Close(_, id) => G.CloseProposal(c.governance, GovernanceEnv(c), id)
    case ImportProposal(_, who, leaf) => G.ImportProposal(c.governance, GovernanceEnv(c), who, leaf)
    case ImportAck(_, who, leaf) => G.ImportAck(c.governance, GovernanceEnv(c), who, leaf)
  }

  /** The chain after an action, if it succeeds. */
  function Outcome(c: Chain, a: Action): Option<Chain> {
    if a.Block? then Some(NextBlock(c, a.observation, E.Context(c.domain, a.parentHash, a.validatorSetHash)))
    else if a.Transfer? || a.ObserveImport? || a.FinalizeImport? || a.AcknowledgeExport? then
      var r := TransfersCall(c, a);
      if r.Ok? then Some(c.(transfers := r.value)) else None
    else
      var r := GovernanceCall(c, a);
      if r.Ok? then Some(c.(governance := r.value)) else None
  }

  function CommittedEvents(ids: seq<ItemId>): seq<Event> { seq(|ids|, i requires 0 <= i < |ids| => Committed(ids[i])) }

  /** What a successful action adds to the history. */
  function Events(c: Chain, c': Chain, a: Action): seq<Event> {
    match a
    case Block(_, _, _, _) =>
      if c'.Epoch() == c.Epoch() then [] else CommittedEvents(T.ExportIds(c.transfers, c.Epoch()))
    case Transfer(_, _, _, _, _, _, _) => [Created(ItemId(c.domain, c.transfers.nextSequence))]
    case FinalizeImport(_, _, id, _) => [Minted(id)]
    case AcknowledgeExport(_, _, claim) => [Burnt(claim.exportId)]
    case _ => []
  }

  /** A failed call changes nothing. */
  function Apply(w: World, a: Action): World {
    var c := w.At(a.domain);
    match Outcome(c, a)
    case None => w
    case Some(c') => w.With(a.domain, c').(log := w.log + Events(c, c', a))
  }

  // ---------- what the importers may submit ----------

  /** The header is one that its chain has staged; a finality certificate and a storage proof
      establish this. */
  predicate Certified(w: World, package: Package) {
    var header := package.input.header;
    var headers := w.At(header.input.domain).epochs.headers;
    header.input.epoch in headers && headers[header.input.epoch] == header
  }

  ghost predicate Verified(w: World, importer: DomainId, package: Package) {
    Certified(w, package) && FlowOk(package, importer)
  }

  function ClaimOf(package: Package, leaf: ExportLeaf): T.ObservedClaim {
    T.ObservedClaim(leaf.input.exportId, leaf.input.sourceDomain, leaf.input.targetDomain, leaf.input.sourceEpoch,
                    package.input.header.summaryHash, package.packageHash, leaf.input.recipient, leaf.input.amount)
  }

  function CompletionOf(package: Package, leaf: FinalizedImportLeaf): T.FinalizationClaim {
    T.FinalizationClaim(leaf.input.exportId, leaf.input.sourceDomain, leaf.input.targetDomain, leaf.input.sourceEpoch,
                        leaf.input.recipient, leaf.input.amount, package.input.header.summaryHash, package.packageHash)
  }

  ghost predicate BacksObservation(w: World, d: DomainId, package: Package, proof: Inclusion<ExportLeaf>,
                                   claim: T.ObservedClaim) {
    Verified(w, d, package) && proof in FlowOf(package).exports && claim == ClaimOf(package, proof.leaf)
  }

  ghost predicate BacksCompletion(w: World, d: DomainId, package: Package, proof: Inclusion<FinalizedImportLeaf>,
                                  claim: T.FinalizationClaim) {
    Verified(w, d, package) && proof in FlowOf(package).completions && claim == CompletionOf(package, proof.leaf)
  }

  ghost predicate BacksGovernance(w: World, d: DomainId, package: Package, proof: Inclusion<GovernanceLeaf>) {
    Verified(w, d, package) && proof in FlowOf(package).governance
  }

  /** Anyone may call anything.  The one account that passes the pallets' gate submits only what
      it has verified, and no id is handed out a second time. */
  ghost predicate Admissible(w: World, a: Action) {
    var c := w.At(a.domain);
    match a
    case Transfer(_, _, _, _, _, _, _) => ItemId(a.domain, c.transfers.nextSequence) !in c.transfers.exports
    case Propose(_, _, _, _) => ItemId(a.domain, c.governance.nextSequence) !in c.governance.proposals
    case ObserveImport(_, who, claim) =>
      T.Gate(c.transfers, who).None? ==> exists package, proof :: BacksObservation(w, a.domain, package, proof, claim)
    case AcknowledgeExport(_, who, claim) =>
      T.Gate(c.transfers, who).None? ==> exists package, proof :: BacksCompletion(w, a.domain, package, proof, claim)
    case ImportProposal(_, who, leaf) =>
      G.Gate(c.governance, who).None? ==>
        exists package, proof ::
          BacksGovernance(w, a.domain, package, proof) && proof.leaf.ProposalLeaf? && proof.leaf.proposal == leaf
    case ImportAck(_, who, leaf) =>
      G.Gate(c.governance, who).None? ==>
        exists package, proof ::
          BacksGovernance(w, a.domain, package, proof) && proof.leaf.AckLeaf? && proof.leaf.ack == leaf
    case _ => true
  }

  // ---------- each chain by itself ----------

  /** The ids a creation would use are not in use. */
  predicate FreshIds(c: Chain, a: Action) {
    && (a.Transfer? ==> ItemId(c.domain, c.transfers.nextSequence) !in c.transfers.exports)
    && (a.Propose? ==> ItemId(c.domain, c.governance.nextSequence) !in c.governance.proposals)
  }

  lemma TransfersStep(c: Chain, a: Action, t: T.State)
    requires a.Transfer? || a.ObserveImport? || a.FinalizeImport? || a.AcknowledgeExport?
    requires TP.Inv(c.transfers, c.domain, c.Epoch()) && FreshIds(c, a) && TransfersCall(c, a) == Ok(t)
    ensures TP.Inv(t, c.domain, c.Epoch()) && TP.Evolves(c.transfers, t, c.Epoch())
  {
    hide TP.Inv, TP.Evolves, T.Create, T.Observe, T.Finalize, T.Acknowledge;
    match a
    case Transfer(_, who, target, recipient, amount, allowed, extrinsicIndex) =>
      TP.CreateKeeps(c.transfers, TransfersEnv(c, extrinsicIndex), who, target, recipient, amount, allowed, t);
    case ObserveImport(_, who, claim) => TP.ObserveKeeps(c.transfers, TransfersEnv(c, 0), who, claim, t);
    case FinalizeImport(_, who, id, allowed) => TP.FinalizeKeeps(c.transfers, TransfersEnv(c, 0), who, id, allowed, t);
    case AcknowledgeExport(_, who, claim) => TP.AcknowledgeKeeps(c.transfers, TransfersEnv(c, 0), who, claim, t);
  }

  lemma GovernanceStep(c: Chain, a: Action, g: G.State)
    requires a.Propose? || a.Vote? || a.Close? || a.ImportProposal? || a.ImportAck?
    requires GP.Inv(c.governance, c.domain, c.Epoch()) && FreshIds(c, a) && GovernanceCall(c, a) == Ok(g)
    ensures GP.Inv(g, c.domain, c.Epoch()) && GP.Evolves(c.governance, g, c.Epoch())
  {
    hide GP.Inv, GP.Evolves, G.CreateProposal, G.CastVote, G.CloseProposal, G.ImportProposal, G.ImportAck, GP.AcksFrom;
    hide GP.AcksSame;
    match a
    case Propose(_, who, targets, newVersion) =>
      GS.CreateKeeps(c.governance, GovernanceEnv(c), who, targets, newVersion, c.transfers.free, g);
    case Vote(_, who, id, choice) => GS.CastVoteKeeps(c.governance, GovernanceEnv(c), who, id, choice, g);
    case Close(_, id) => GS.CloseKeeps(c.governance, GovernanceEnv(c), id, g);
    case ImportProposal(_, who, leaf) => GS.ImportProposalKeeps(c.governance, GovernanceEnv(c), who, leaf, g);
    case ImportAck(_, who, leaf) => GS.ImportAckKeeps(c.governance, GovernanceEnv(c), who, leaf, g);
  }

  lemma ChainStep(c: Chain, a: Action, c': Chain)
    requires Inv(c) && FreshIds(c, a) && Outcome(c, a) == Some(c')
    ensures Inv(c') && Evolves(c, c')
  {
    hide TP.Inv, TP.Evolves, GP.Inv, GP.Evolves, NextBlock, TransfersCall, GovernanceCall;
    if a.Block? {
      NextBlockKeeps(c, a.observation, E.Context(c.domain, a.parentHash, a.validatorSetHash));
    } else if a.Transfer? || a.ObserveImport? || a.FinalizeImport? || a.AcknowledgeExport? {
      TransfersStep(c, a, c'.transfers);
      GovernanceUnchanged(c.governance, c.Epoch());
      CallKeeps(c, c');
    } else {
      GovernanceStep(c, a, c'.governance);
      TransfersUnchanged(c.transfers, c.Epoch());
      CallKeeps(c, c');
    }
  }
}
