/** Theorems about every run of the three chains from genesis. */
module Runs {
  import opened Types
  import opened Chain
  import opened Network
  import opened Settlement
  import opened History
  import opened Conservation
  import opened Agreement
  import opened Ballots
  import opened Voting
  import opened GovernanceTiming
  import opened GovernanceFlow
  import E = Epochs
  import T = Transfers
  import TP = TransfersProofs
  import G = Governance
  import GP = GovernanceProofs

  // ---------- runs ----------

  function Exec(w: World, actions: seq<Action>): World {
    if actions == [] then w else Apply(Exec(w, actions[..|actions| - 1]), actions[|actions| - 1])
  }

  ghost predicate Legal(w: World, actions: seq<Action>) {
    actions == [] ||
      var n := |actions| - 1;
      Legal(w, actions[..n]) && Admissible(Exec(w, actions[..n]), actions[n])
  }

  ghost predicate GenesisChain(c: Chain, d: DomainId) {
    exists ctx: E.Context, length: nat, importer: Option<Account>, free: map<Account, nat>, version: nat,
        voters: seq<Account> ::
      ctx.domain == d && c == Genesis(ctx, length, T.Genesis(importer, free), G.Genesis(version, importer, voters))
  }

  ghost predicate GenesisWorld(w: World) { w.log == [] && forall d: DomainId :: GenesisChain(w.At(d), d) }

  /** Runs exist for every choice of importers, balances and voters. */
  lemma GenesisExists(importer: DomainId -> Option<Account>, free: DomainId -> map<Account, nat>, voters: seq<Account>,
                      length: nat) returns (w: World)
    ensures GenesisWorld(w) && Legal(w, []) && forall d: DomainId :: Ledger(w, d) == T.Genesis(importer(d), free(d))
  {
    hide E.OnInitialize, E.Genesis;
    var chain := (d: DomainId) =>
      Genesis(E.Context(d, Zero, Zero), length, T.Genesis(importer(d), free(d)), G.Genesis(1, importer(d), voters));
    w := World(chain(Earth), chain(Moon), chain(Mars), []);
    forall d: DomainId ensures GenesisChain(w.At(d), d) {
      assert w.At(d) == chain(d);
    }
  }

  // ---------- the invariant of every run ----------

  /** Every mint is in the list of an epoch, closed or current. */
  ghost predicate MintListed(t: T.State, epoch: EpochId, id: ItemId) {
    HasMinted(t, id) ==> exists e: EpochId :: e <= epoch && id in T.ImportIds(t, e)
  }

  ghost predicate MintsListed(t: T.State, epoch: EpochId) { forall id :: MintListed(t, epoch, id) }

  ghost predicate PalletFacts(c: Chain) {
    && VotesInv(c.governance) && TimingInv(c.governance, c.Epoch(), c.epochs.length)
    && MintsListed(c.transfers, c.Epoch()) && FlowInv(c.governance, c.domain)
  }

  ghost predicate WorldInv(w: World) {
    && ChainsOk(w) && SettlementInv(w) && LogInv(w) && AgreementInv(w)
    && forall d: DomainId :: PalletFacts(w.At(d))
  }

  lemma GenesisChainOk(c: Chain, d: DomainId)
    requires GenesisChain(c, d)
    ensures c.domain == d && Inv(c) && PalletFacts(c) && GP.SequenceOk(c.governance, d)
    ensures c.transfers.exports == map[] && c.transfers.observed == map[]
    ensures c.governance.proposals == map[] && c.governance.activations == map[]
  {
    hide Inv, TP.Inv, GP.Inv, VotesInv, E.OnInitialize;
    var ctx: E.Context, length: nat, importer, free, version: nat, voters :|
      ctx.domain == d && c == Genesis(ctx, length, T.Genesis(importer, free), G.Genesis(version, importer, voters));
    TP.GenesisInv(importer, free, d, 0);
    GP.GenesisInv(version, importer, voters, d, 0);
    GenesisInv(ctx, length, c.transfers, c.governance);
    GenesisVotes(version, importer, voters);
  }

  lemma GenesisWorldOk(w: World)
    requires GenesisWorld(w)
    ensures WorldInv(w)
  {
    hide Inv, VotesInv, TimingInv, GP.SequenceOk, GenesisChain;
    forall d: DomainId
      ensures w.At(d).domain == d && Inv(w.At(d)) && PalletFacts(w.At(d)) && GP.SequenceOk(Council(w, d), d)
      ensures Ledger(w, d).exports == map[] && Ledger(w, d).observed == map[]
      ensures Council(w, d).proposals == map[] && Council(w, d).activations == map[]
    {
      GenesisChainOk(w.At(d), d);
    }
  }

  lemma TimingStep(c: Chain, a: Action, c': Chain)
    requires Inv(c) && FreshIds(c, a) && Outcome(c, a) == Some(c')
    requires TimingInv(c.governance, c.Epoch(), c.epochs.length)
    ensures TimingInv(c'.governance, c'.Epoch(), c'.epochs.length)
  {
    hide E.Inv, TP.Inv, GP.Inv, NextBlock, TransfersCall, TimingInv, RootsAt;
    hide G.CloseProposal, G.ImportProposal, G.ImportAck;
    var g, g' := c.governance, c'.governance;
    match a
    case Block(_, _, _, _) => BlockTiming(c, a, c');
    case Close(_, id) => CloseTiming(c.epochs.length, g, GovernanceEnv(c), id, g');
    case ImportProposal(_, who, leaf) => ImportProposalTiming(c.epochs.length, g, GovernanceEnv(c), who, leaf, g');
    case ImportAck(_, who, leaf) => ImportAckTiming(c.epochs.length, g, GovernanceEnv(c), who, leaf, g');
    case _ => SameActivations(g, g', c.Epoch(), c.epochs.length);
  }

  lemma SameActivations(g: G.State, g': G.State, epoch: EpochId, length: nat)
    requires TimingInv(g, epoch, length) && g'.activations == g.activations
    ensures TimingInv(g', epoch, length)
  {
  }

  /** The block after a boundary is the first of the next epoch. */
  lemma BlockReaches(c: Chain, a: Action, c': Chain)
    requires Inv(c) && a.Block? && Outcome(c, a) == Some(c')
    ensures Reaches(c.number + 1, c.Epoch(), c'.Epoch(), c.epochs.length)
  {
    hide E.OnInitialize, RootsAt, T.CommitExports, TP.Inv, GP.Inv, G.OnInitialize, E.Closes, GP.Evolves, TP.Evolves;
    hide E.HeadersOk;
    PalletsNext(c, a.observation, E.Context(c.domain, a.parentHash, a.validatorSetHash), c');
  }

  lemma BlockTiming(c: Chain, a: Action, c': Chain)
    requires Inv(c) && a.Block? && Outcome(c, a) == Some(c') && TimingInv(c.governance, c.Epoch(), c.epochs.length)
    ensures TimingInv(c'.governance, c'.Epoch(), c'.epochs.length)
  {
    hide E.OnInitialize, RootsAt, T.CommitExports, E.Inv, TP.Inv, GP.CoreInv, GP.LeavesInv, G.OnInitialize, E.Closes;
    hide GP.Evolves, TP.Evolves, TimingInv;
    PalletsNext(c, a.observation, E.Context(c.domain, a.parentHash, a.validatorSetHash), c');
    BlockReaches(c, a, c');
    HookTiming(c.epochs.length, c.governance, c.domain, c.Epoch(), c'.Epoch(), c.number + 1);
  }

  lemma ListsGrow(c: Chain, a: Action, c': Chain, e: EpochId, id: ItemId)
    requires Outcome(c, a) == Some(c') && id in T.ImportIds(c.transfers, e)
    ensures id in T.ImportIds(c'.transfers, e)
  {
    hide E.OnInitialize, RootsAt, T.MarkExported, GovernanceCall, T.CanonicalExports;
  }

  lemma MintEntersList(c: Chain, a: Action, c': Chain)
    requires a.FinalizeImport? && Outcome(c, a) == Some(c')
    ensures c'.epochs == c.epochs && a.exportId in T.ImportIds(c'.transfers, c.Epoch())
  {
  }

  lemma MintsStep(c: Chain, a: Action, c': Chain)
    requires Inv(c) && Outcome(c, a) == Some(c') && MintsListed(c.transfers, c.Epoch()) && c.Epoch() <= c'.Epoch()
    ensures MintsListed(c'.transfers, c'.Epoch())
  {
    hide Inv, Outcome, HasMinted, T.ImportIds;
    forall id ensures MintListed(c'.transfers, c'.Epoch(), id) {
      MintedChange(c, a, c', id);
      assert MintListed(c.transfers, c.Epoch(), id);
      if HasMinted(c.transfers, id) {
        var e: EpochId :| e <= c.Epoch() && id in T.ImportIds(c.transfers, e);
        ListsGrow(c, a, c', e, id);
      } else if HasMinted(c'.transfers, id) {
        MintEntersList(c, a, c');
      }
    }
  }

  lemma FlowStep(c: Chain, a: Action, c': Chain)
    requires Inv(c) && FreshIds(c, a) && Outcome(c, a) == Some(c') && FlowInv(c.governance, c.domain)
    requires a.ImportAck? ==> a.ack.proposalId in c.governance.activations
    ensures FlowInv(c'.governance, c.domain) && FlowGrows(c.governance, c'.governance)
  {
    hide E.Inv, TP.Inv, GP.Inv, NextBlock, TransfersCall, FlowInv, FlowGrows, RootsAt;
    hide G.CreateProposal, G.CastVote, G.CloseProposal, G.ImportProposal, G.ImportAck;
    var g, g' := c.governance, c'.governance;
    match a
    case Block(_, _, _, _) => BlockFlow(c, a, c');
    case Propose(_, who, targets, newVersion) =>
      CreateFlow(g, GovernanceEnv(c), who, targets, newVersion, c.transfers.free, g');
    case Vote(_, who, id, choice) => CastVoteFlow(g, GovernanceEnv(c), who, id, choice, g');
    case Close(_, id) => CloseFlow(g, GovernanceEnv(c), id, g');
    case ImportProposal(_, who, leaf) => ImportProposalFlow(g, GovernanceEnv(c), who, leaf, g');
    case ImportAck(_, who, leaf) => ImportAckFlow(g, GovernanceEnv(c), who, leaf, g');
    case _ => SameFlow(g);
  }

  lemma SameFlow(g: G.State)
    ensures FlowGrows(g, g)
  {
  }

  lemma BlockFlow(c: Chain, a: Action, c': Chain)
    requires Inv(c) && a.Block? && Outcome(c, a) == Some(c') && FlowInv(c.governance, c.domain)
    ensures FlowInv(c'.governance, c.domain) && FlowGrows(c.governance, c'.governance)
  {
    hide E.OnInitialize, RootsAt, T.CommitExports, E.Inv, TP.Inv, GP.Inv, G.OnInitialize, E.Closes;
    hide GP.Evolves, TP.Evolves, FlowInv, FlowGrows;
    PalletsNext(c, a.observation, E.Context(c.domain, a.parentHash, a.validatorSetHash), c');
    HookFlow(c.governance, c.domain, c.Epoch(), c'.Epoch(), c.number + 1);
  }

  /** One action: the chain it runs on, and nothing else, moves to a good state. */
  lemma LocalStep(w: World, a: Action, c': Chain)
    requires WorldInv(w) && Admissible(w, a) && Outcome(w.At(a.domain), a) == Some(c')
    ensures Inv(c') && Evolves(w.At(a.domain), c') && PalletFacts(c')
    ensures FlowGrows(Council(w, a.domain), c'.governance)
  {
    hide Inv, Outcome, SettlementInv, LogInv, AgreementInv, Evolves, VotesInv, TimingInv, MintsListed, FlowInv;
    hide FlowGrows;
    var c := w.At(a.domain);
    assert PalletFacts(c) && c.domain == a.domain;
    ChainStep(c, a, c');
    VotesStep(c, a, c');
    TimingStep(c, a, c');
    EpochForward(c, c');
    MintsStep(c, a, c');
    if a.ImportAck? {
      AckIsOfApproved(w, a, c');
    }
    FlowStep(c, a, c');
  }

  lemma EpochForward(c: Chain, c': Chain)
    requires Evolves(c, c')
    ensures c.Epoch() <= c'.Epoch() && c'.domain == c.domain
  {
  }

  lemma WorldStep(w: World, a: Action)
    requires WorldInv(w) && Admissible(w, a)
    ensures WorldInv(Apply(w, a)) && TotalValue(Apply(w, a)) == TotalValue(w)
  {
    hide Inv, Outcome, SettlementInv, LogInv, AgreementInv, Admissible, PalletFacts, World.At, World.With, TotalValue;
    hide Events;
    var c := w.At(a.domain);
    var w' := Apply(w, a);
    if Outcome(c, a).Some? {
      var c' := Outcome(c, a).value;
      WithAt(w, a.domain, c', w'.log);
      LocalStep(w, a, c');
      SettlementStep(w, a, c', w');
      LogStep(w, a, c', w');
      AgreementStep(w, a, c', w');
      ValueConserved(w, a, c', w');
    }
  }

  /** A run from any good state. */
  lemma {:induction false} RunKeeps(w: World, actions: seq<Action>)
    requires WorldInv(w) && Legal(w, actions)
    ensures WorldInv(Exec(w, actions)) && TotalValue(Exec(w, actions)) == TotalValue(w)
    decreases |actions|
  {
    hide WorldInv, Admissible, Apply, TotalValue;
    if actions != [] {
      var n := |actions| - 1;
      RunKeeps(w, actions[..n]);
      WorldStep(Exec(w, actions[..n]), actions[n]);
    }
  }

  /** The invariant holds, and no value appears or vanishes, in every run. */
  lemma EveryRun(w: World, actions: seq<Action>)
    requires GenesisWorld(w) && Legal(w, actions)
    ensures WorldInv(Exec(w, actions)) && TotalValue(Exec(w, actions)) == TotalValue(w)
  {
    hide WorldInv, GenesisWorld, Legal, Exec, TotalValue;
    GenesisWorldOk(w);
    RunKeeps(w, actions);
  }
}
