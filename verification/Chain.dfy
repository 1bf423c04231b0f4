/** One chain: the epoch, transfers and governance pallets and the block hooks that tie them
    together.  A state is always taken inside a block, after its hooks have run. */
module Chain {
  import opened Types
  import opened Commitments
  import E = Epochs
  import T = Transfers
  import TP = TransfersProofs
  import G = Governance
  import GP = GovernanceProofs
  import GS = GovernanceSteps

  datatype Chain = Chain(
    domain: DomainId, number: nat, blocks: seq<E.BlockFacts>,
    epochs: E.State, transfers: T.State, governance: G.State)
  {
    function Epoch(): EpochId { epochs.currentEpoch }
  }

  /** The roots that the hook commits to, recomputed from storage. */
  function RootsAt(c: Chain, epoch: EpochId, start: nat, end: nat): E.Roots {
    E.Roots(ExportRoot(c.domain, epoch, start, end, T.CanonicalExports(c.transfers, epoch)),
            ImportRoot(c.domain, epoch, start, end, T.CanonicalImports(c.transfers, epoch)),
            GovernanceRoot(c.domain, epoch, start, end, G.CanonicalLeaves(c.governance, epoch)))
  }

  function Genesis(ctx: E.Context, length: nat, transfers: T.State, governance: G.State): Chain {
    var epochs := E.OnInitialize(E.Genesis(length), ctx, 1, E.Roots(Zero, Zero, Zero));
    Chain(ctx.domain, 1, [], epochs, transfers, governance)
  }

  /** The end of one block and the hooks of the next: the epoch pallet first, which commits the
      exports when the epoch closes, then governance in the epoch just reached. */
  function NextBlock(c: Chain, observation: E.Observation, ctx: E.Context): Chain {
    var finalized := E.OnFinalize(c.epochs, c.number, observation);
    var roots := RootsAt(c, c.Epoch(), c.epochs.currentStart, c.number);
    var epochs := E.OnInitialize(finalized, ctx, c.number + 1, roots);
    Chain(c.domain, c.number + 1, c.blocks + [E.FactsOf(observation, ctx)], epochs,
          if E.Closes(finalized, c.number + 1) then T.CommitExports(c.transfers, c.Epoch()) else c.transfers,
          G.OnInitialize(c.governance, epochs.currentEpoch, c.number + 1))
  }

  // ---------- the invariant ----------

  /** A staged header still agrees with storage. */
  ghost predicate Reproducible(c: Chain, e: EpochId) {
    e in c.epochs.headers ==>
      var header := c.epochs.headers[e].input;
      E.Roots(header.exportRoot, header.importRoot, header.governanceRoot) == RootsAt(c, e, header.start, header.end)
  }

  ghost predicate Inv(c: Chain) {
    && E.Inv(c.epochs, c.domain, c.number, c.blocks)
    && TP.Inv(c.transfers, c.domain, c.Epoch()) && GP.Inv(c.governance, c.domain, c.Epoch())
    && forall e: EpochId :: Reproducible(c, e)
  }

  /** What a later state of the same chain keeps. */
  ghost predicate Evolves(c: Chain, c': Chain) {
    && c'.domain == c.domain && c.Epoch() <= c'.Epoch()
    && TP.Evolves(c.transfers, c'.transfers, c.Epoch()) && GP.Evolves(c.governance, c'.governance, c.Epoch())
    && forall e: EpochId :: e in c.epochs.headers ==>
         e in c'.epochs.headers && c'.epochs.headers[e] == c.epochs.headers[e]
  }

  lemma GenesisInv(ctx: E.Context, length: nat, transfers: T.State, governance: G.State)
    requires TP.Inv(transfers, ctx.domain, 0) && GP.Inv(governance, ctx.domain, 0)
    ensures Inv(Genesis(ctx, length, transfers, governance))
  {
    E.InvStart(length, ctx, E.Roots(Zero, Zero, Zero));
  }

  lemma HeadersAreClosed(c: Chain, e: EpochId)
    requires E.Inv(c.epochs, c.domain, c.number, c.blocks) && e in c.epochs.headers
    ensures e < c.Epoch() && c.epochs.headers[e].input.domain == c.domain && c.epochs.headers[e].input.epoch == e
  {
    assert E.HeaderOk(c.epochs.headers, e, c.domain, c.epochs.length, c.blocks);
  }

  /** Storage may go on changing: roots of closed epochs do not. */
  lemma RootsStable(c: Chain, c': Chain, e: EpochId, start: nat, end: nat)
    requires TP.Inv(c.transfers, c.domain, c.Epoch()) && GP.Inv(c.governance, c.domain, c.Epoch())
    requires TP.Evolves(c.transfers, c'.transfers, c.Epoch()) && GP.Evolves(c.governance, c'.governance, c.Epoch())
    requires c'.domain == c.domain && e < c.Epoch()
    ensures RootsAt(c', e, start, end) == RootsAt(c, e, start, end)
  {
    TP.ClosedEpochStable(c.transfers, c'.transfers, c.domain, c.Epoch(), e);
    GS.ClosedEpochStable(c.governance, c'.governance, c.domain, c.Epoch(), e);
  }

  /** A call changes pallets only. */
  lemma CallKeeps(c: Chain, c': Chain)
    requires Inv(c) && c' == c.(transfers := c'.transfers, governance := c'.governance)
    requires TP.Inv(c'.transfers, c.domain, c.Epoch()) && TP.Evolves(c.transfers, c'.transfers, c.Epoch())
    requires GP.Inv(c'.governance, c.domain, c.Epoch()) && GP.Evolves(c.governance, c'.governance, c.Epoch())
    ensures Inv(c') && Evolves(c, c')
  {
    hide TP.Inv, TP.Evolves, GP.Inv, GP.Evolves, RootsAt, E.Inv;
    forall e: EpochId ensures Reproducible(c', e) {
      if e in c.epochs.headers {
        HeadersAreClosed(c, e);
        assert Reproducible(c, e);
        RootsStable(c, c', e, c.epochs.headers[e].input.start, c.epochs.headers[e].input.end);
      }
    }
  }

  lemma TransfersUnchanged(t: T.State, epoch: EpochId)
    ensures TP.Evolves(t, t, epoch)
  {
  }

  lemma GovernanceUnchanged(g: G.State, epoch: EpochId)
    ensures GP.Evolves(g, g, epoch)
  {
  }

  /** The pallets across a block boundary. */
  lemma PalletsNext(c: Chain, observation: E.Observation, ctx: E.Context, c': Chain)
    requires Inv(c) && ctx.domain == c.domain && c' == NextBlock(c, observation, ctx)
    ensures c'.Epoch() == c.Epoch() + if E.Closes(E.OnFinalize(c.epochs, c.number, observation), c.number + 1) then 1
        else 0
    ensures TP.Inv(c'.transfers, c.domain, c'.Epoch()) && TP.Evolves(c.transfers, c'.transfers, c.Epoch())
    ensures GP.Inv(c'.governance, c.domain, c'.Epoch()) && GP.Evolves(c.governance, c'.governance, c.Epoch())
    ensures E.Inv(c'.epochs, c'.domain, c'.number, c'.blocks) && c'.epochs.length == c.epochs.length
  {
    hide TP.Inv, TP.Evolves, GP.Inv, GP.Evolves, RootsAt, T.CommitExports, G.OnInitialize, E.Closes, E.Inv;
    hide E.OnInitialize;
    var finalized := E.OnFinalize(c.epochs, c.number, observation);
    var roots := RootsAt(c, c.Epoch(), c.epochs.currentStart, c.number);
    FinalizeInv(c, observation);
    E.InvStep(finalized, ctx, c.number, c.blocks, roots);
    E.HeaderStep(finalized, ctx, c.number, c.blocks, roots);
    if E.Closes(finalized, c.number + 1) {
      TP.CommitKeeps(c.transfers, c.domain, c.Epoch());
    } else {
      TransfersUnchanged(c.transfers, c.Epoch());
    }
    GS.HookKeeps(c.governance, c.domain, c.Epoch(), c'.Epoch(), c.number + 1);
  }

  /** The header staged at a boundary agrees with the storage that follows it. */
  lemma NewHeaderReproducible(c: Chain, observation: E.Observation, ctx: E.Context, c': Chain)
    requires Inv(c) && ctx.domain == c.domain && c' == NextBlock(c, observation, ctx)
    requires E.Closes(E.OnFinalize(c.epochs, c.number, observation), c.number + 1)
    ensures RootsAt(c', c.Epoch(), c.epochs.currentStart, c.number)
        == RootsAt(c, c.Epoch(), c.epochs.currentStart, c.number)
  {
    hide TP.Inv, GP.Inv, GP.Evolves, T.CommitExports, G.OnInitialize, E.Closes, E.Inv, E.OnInitialize;
    hide ExportRoot, ImportRoot, GovernanceRoot, T.CanonicalExports, T.CanonicalImports, G.CanonicalLeaves;
    PalletsNext(c, observation, ctx, c');
    TP.CommitStable(c.transfers, c.domain, c.Epoch());
    GS.HookLeaves(c.governance, c.domain, c.Epoch(), c'.Epoch(), c.number + 1, c.Epoch());
  }

  lemma NextBlockKeeps(c: Chain, observation: E.Observation, ctx: E.Context)
    requires Inv(c) && ctx.domain == c.domain
    ensures var c' := NextBlock(c, observation, ctx);
            Inv(c') && Evolves(c, c')
  {
    hide TP.Inv, TP.Evolves, GP.Inv, GP.Evolves, RootsAt, T.CommitExports, G.OnInitialize, E.Closes, E.Inv;
    hide E.OnInitialize;
    var c' := NextBlock(c, observation, ctx);
    var finalized := E.OnFinalize(c.epochs, c.number, observation);
    var roots := RootsAt(c, c.Epoch(), c.epochs.currentStart, c.number);
    PalletsNext(c, observation, ctx, c');
    FinalizeInv(c, observation);
    E.HeaderStep(finalized, ctx, c.number, c.blocks, roots);
    forall e: EpochId ensures Reproducible(c', e) {
      if e in c.epochs.headers {
        HeadersAreClosed(c, e);
        assert Reproducible(c, e);
        RootsStable(c, c', e, c.epochs.headers[e].input.start, c.epochs.headers[e].input.end);
      } else if e in c'.epochs.headers {
        NewHeaderReproducible(c, observation, ctx, c');
      }
    }
  }

  lemma FinalizeInv(c: Chain, observation: E.Observation)
    requires E.Inv(c.epochs, c.domain, c.number, c.blocks)
    ensures E.Inv(E.OnFinalize(c.epochs, c.number, observation), c.domain, c.number, c.blocks)
    ensures E.OnFinalize(c.epochs, c.number, observation) == c.epochs.(pending := Some(observation))
  {
  }
}
