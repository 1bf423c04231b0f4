/** Settlement can always be completed: from every reachable state each committed export has a
    legal continuation in which it is observed, minted, proved back and resolved. */
module Completion {
  import opened Types
  import opened Exporter
  import opened Chain
  import opened Network
  import opened Settlement
  import opened History
  import opened Agreement
  import opened Activation
  import opened Runs
  import opened Delivery
  import E = Epochs
  import T = Transfers
  import TP = TransfersProofs
  import G = Governance
  import GP = GovernanceProofs
  import GS = GovernanceSteps

  // ---------- continuing a run ----------

  lemma {:induction false} Append(w: World, a: seq<Action>, b: seq<Action>)
    ensures Exec(w, a + b) == Exec(Exec(w, a), b)
    ensures Legal(w, a) && Legal(Exec(w, a), b) ==> Legal(w, a + b)
    decreases |b|
  {
    hide Apply, Admissible;
    if b == [] {
      assert a + b == a;
    } else {
      var n := |b| - 1;
      assert (a + b)[..|a + b| - 1] == a + b[..n];
      Append(w, a, b[..n]);
    }
  }

  lemma One(w: World, a: Action)
    requires Admissible(w, a)
    ensures Legal(w, [a]) && Exec(w, [a]) == Apply(w, a)
  {
    hide Apply, Admissible;
    assert [a][..0] == [];
    assert Legal(w, []) && Exec(w, []) == w;
  }

  // ---------- room in the epochs ----------

  /** Every epoch's lists leave room, below 2^32, for so many more finalized imports and
      governance leaves. */
  ghost predicate Room(c: Chain, imports: nat, leaves: nat) {
    forall e: EpochId :: RoomAt(c.transfers, c.governance, imports, leaves, e)
  }

  predicate RoomAt(t: T.State, g: G.State, imports: nat, leaves: nat, e: EpochId) {
    && |T.ExportIds(t, e)| <= U32_MAX && |T.ImportIds(t, e)| + imports <= U32_MAX
    && |G.LeafIds(g, e)| + leaves <= U32_MAX
  }

  lemma {:induction false} FewerExports(exports: map<ItemId, T.ExportRecord>, ids: seq<ItemId>)
    ensures |T.ExportLeaves(exports, ids)| <= |ids|
  {
    if ids != [] {
      FewerExports(exports, ids[1..]);
    }
  }

  lemma {:induction false} FewerImports(observed: map<ItemId, T.ObservedRecord>, ids: seq<ItemId>)
    ensures |T.ImportLeaves(observed, ids)| <= |ids|
  {
    if ids != [] {
      FewerImports(observed, ids[1..]);
    }
  }

  lemma {:induction false} FewerLeaves(leaves: map<Digest, GovernanceLeaf>, ids: seq<Digest>)
    ensures |G.LeavesById(leaves, ids)| <= |ids|
  {
    if ids != [] {
      FewerLeaves(leaves, ids[1..]);
    }
  }

  lemma RoomIsSmall(c: Chain, imports: nat, leaves: nat, e: EpochId)
    requires Room(c, imports, leaves) && e in c.epochs.headers
    ensures Small(Served(c, e))
  {
    assert RoomAt(c.transfers, c.governance, imports, leaves, e);
    FewerExports(c.transfers.exports, T.ExportIds(c.transfers, e));
    FewerImports(c.transfers.observed, T.ImportIds(c.transfers, e));
    FewerLeaves(c.governance.leaves, G.LeafIds(c.governance, e));
  }

  // ---------- blocks ----------

  function AnyBlock(d: DomainId): Action { Block(d, E.Observation(0, Zero, 0, 0, 0), Zero, Zero) }

  function Blocks(d: DomainId, n: nat): seq<Action> { seq(n, _ => AnyBlock(d)) }

  /** What a block leaves alone. */
  ghost predicate BlockSame(c: Chain, c': Chain) {
    && c'.transfers.observed == c.transfers.observed && c'.transfers.epochImportIds == c.transfers.epochImportIds
    && c'.transfers.epochExportIds == c.transfers.epochExportIds && c'.transfers.importer == c.transfers.importer
    && c'.governance.epochLeafIds == c.governance.epochLeafIds && c'.epochs.length == c.epochs.length
  }

  lemma BlockFrame(c: Chain, a: Action, c': Chain)
    requires Inv(c) && a.Block? && Outcome(c, a) == Some(c')
    ensures BlockSame(c, c') && c'.number == c.number + 1
  {
    hide E.OnInitialize, RootsAt, T.MarkExported, E.Inv, TP.Inv, GP.CoreInv, GP.LeavesInv, G.OnInitialize, E.Closes;
    hide GP.Evolves, TP.Evolves, T.CanonicalExports;
    PalletsNext(c, a.observation, E.Context(c.domain, a.parentHash, a.validatorSetHash), c');
    GS.HookFrame(c.governance, c.domain, c.Epoch(), c'.Epoch(), c.number + 1);
  }

  lemma OneBlock(w: World, d: DomainId)
    requires WorldInv(w)
    ensures Admissible(w, AnyBlock(d))
    ensures var w' := Apply(w, AnyBlock(d));
            && WorldInv(w') && BlockSame(w.At(d), w'.At(d)) && w'.At(d).number == w.At(d).number + 1
            && forall x: DomainId :: x != d ==> w'.At(x) == w.At(x)
  {
    hide Outcome, World.At, World.With, Events, SettlementInv, AgreementInv, LogInv, PalletFacts, Inv, BlockSame;
    var c := w.At(d);
    BlockSucceeds(c, AnyBlock(d));
    var c' := Outcome(c, AnyBlock(d)).value;
    WithAt(w, d, c', Apply(w, AnyBlock(d)).log);
    BlockFrame(c, AnyBlock(d), c');
    WorldStep(w, AnyBlock(d));
  }

  lemma {:induction false} ManyBlocks(w: World, d: DomainId, n: nat)
    requires WorldInv(w)
    ensures Legal(w, Blocks(d, n))
    ensures var v := Exec(w, Blocks(d, n));
            && WorldInv(v) && BlockSame(w.At(d), v.At(d)) && v.At(d).number == w.At(d).number + n
            && forall x: DomainId :: x != d ==> v.At(x) == w.At(x)
  {
    hide WorldInv, Apply, Admissible, World.At;
    if n > 0 {
      ManyBlocks(w, d, n - 1);
      assert Blocks(d, n)[..n - 1] == Blocks(d, n - 1) && Blocks(d, n)[n - 1] == AnyBlock(d);
      OneBlock(Exec(w, Blocks(d, n - 1)), d);
    } else {
      assert Blocks(d, n) == [];
    }
  }

  /** As many blocks as an epoch is long close the current epoch. */
  lemma EpochCloses(w: World, v: World, d: DomainId)
    requires WorldInv(w) && WorldInv(v) && v.At(d).epochs.length == w.At(d).epochs.length
    requires v.At(d).number == w.At(d).number + w.At(d).epochs.length
    ensures w.At(d).Epoch() < v.At(d).Epoch()
  {
    hide WorldInv, World.At;
    ChainsNumbered(w, d);
    ChainsNumbered(v, d);
    var length := w.At(d).epochs.length;
    if v.At(d).Epoch() <= w.At(d).Epoch() {
      BeforeGrows(v.At(d).Epoch(), w.At(d).Epoch(), length);
    }
  }

  // ---------- the four stages ----------

  ghost predicate Importer(w: World, d: DomainId, who: Account) { Ledger(w, d).importer == Some(who) }

  const ANY_CERTIFICATE := Certificate(0, 0, Zero, 0, Zero, [])
  const ANY_STORAGE := StorageProof(0, Zero, 0)

  /** Only the imports of one chain differ. */
  ghost predicate OnlyImports(w: World, w': World, d: DomainId) {
    && (forall x: DomainId :: x != d ==> w'.At(x) == w.At(x))
    && w'.At(d) == w.At(d).(transfers := w'.At(d).transfers)
    && Ledger(w', d).importer == Ledger(w, d).importer && Ledger(w', d).exports == Ledger(w, d).exports
    && Ledger(w', d).epochExportIds == Ledger(w, d).epochExportIds
  }

  lemma CallApplied(w: World, a: Action, t: T.State)
    requires a.ObserveImport? || a.FinalizeImport? || a.AcknowledgeExport?
    requires TransfersCall(w.At(a.domain), a) == Ok(t)
    ensures Apply(w, a).At(a.domain) == w.At(a.domain).(transfers := t)
    ensures forall x: DomainId :: x != a.domain ==> Apply(w, a).At(x) == w.At(x)
  {
    hide TransfersCall, GovernanceCall, NextBlock;
  }

  lemma ObservedEffect(t: T.State, env: T.Env, who: Account, claim: T.ObservedClaim)
    requires T.Observe(t, env, who, claim).Ok?
    ensures var t' := T.Observe(t, env, who, claim).value;
            && t' == t.(observed := t'.observed) && claim.exportId in t'.observed
            && t'.observed[claim.exportId].status == T.RemoteObserved
  {
  }

  /** An export not yet known at its target can be observed there. */
  lemma StageObserve(w: World, d: DomainId, id: ItemId, who: Account) returns (a: Action)
    requires WorldInv(w) && HasCommitted(Ledger(w, d), id) && Room(w.At(d), 0, 0)
    requires var k := Ledger(w, d).exports[id].leaf.input.targetDomain;
             Importer(w, k, who) && id !in Ledger(w, k).observed
    ensures var k := Ledger(w, d).exports[id].leaf.input.targetDomain;
            var w' := Apply(w, a);
            && Admissible(w, a) && WorldInv(w') && OnlyImports(w, w', k)
            && Ledger(w', k).epochImportIds == Ledger(w, k).epochImportIds
            && id in Ledger(w', k).observed && Ledger(w', k).observed[id].status == T.RemoteObserved
  {
    hide WorldInv, World.At, Apply, Admissible, Room, TransfersCall, Outcome, Small, Served, T.Observe;
    var x := Ledger(w, d).exports[id].leaf.input;
    InvariantParts(w);
    if x.sourceEpoch in w.At(d).epochs.headers {
      RoomIsSmall(w.At(d), 0, 0, x.sourceEpoch);
    }
    var claim := CommittedCanBeObserved(w, d, id, who, ANY_CERTIFICATE, ANY_STORAGE);
    a := ObserveImport(x.targetDomain, who, claim);
    ObserveCalled(w, x.targetDomain, who, claim);
    WorldStep(w, a);
  }

  lemma ObserveCalled(w: World, k: DomainId, who: Account, claim: T.ObservedClaim)
    requires Outcome(w.At(k), ObserveImport(k, who, claim)).Some?
    ensures var w' := Apply(w, ObserveImport(k, who, claim));
            && OnlyImports(w, w', k) && Ledger(w', k).epochImportIds == Ledger(w, k).epochImportIds
            && claim.exportId in Ledger(w', k).observed
            && Ledger(w', k).observed[claim.exportId].status == T.RemoteObserved
  {
    hide World.At, Apply, GovernanceCall, NextBlock, T.Observe;
    var a := ObserveImport(k, who, claim);
    ObservedEffect(Ledger(w, k), TransfersEnv(w.At(k), 0), who, claim);
    CallApplied(w, a, TransfersCall(w.At(k), a).value);
  }

  lemma InvariantParts(w: World)
    requires WorldInv(w)
    ensures ChainsOk(w) && SettlementInv(w) && LogInv(w) && AgreementInv(w)
  {
  }

  lemma FinalizedEffect(t: T.State, env: T.Env, who: Account, id: ItemId)
    requires T.Gate(t, who).None? && id in t.observed && t.observed[id].status == T.RemoteObserved
    requires t.observed[id].claim.targetDomain == env.domain
    ensures var r := T.Finalize(t, env, who, id, true);
            && r.Ok? && HasMinted(r.value, id) && id in T.ImportIds(r.value, env.epoch)
            && r.value.importer == t.importer && r.value.exports == t.exports
            && r.value.epochExportIds == t.epochExportIds
            && forall e: EpochId :: |T.ImportIds(r.value, e)| <= |T.ImportIds(t, e)| + 1
  {
  }

  /** An observed export can be minted. */
  lemma StageFinalize(w: World, k: DomainId, id: ItemId, who: Account) returns (a: Action)
    requires WorldInv(w) && Importer(w, k, who) && Room(w.At(k), 1, 0)
    requires id in Ledger(w, k).observed && Ledger(w, k).observed[id].status == T.RemoteObserved
    ensures var w' := Apply(w, a);
            && Admissible(w, a) && WorldInv(w') && OnlyImports(w, w', k) && Room(w'.At(k), 0, 0)
            && id in T.ImportIds(Ledger(w', k), w'.At(k).Epoch())
  {
    hide WorldInv, World.At, Apply, T.Finalize, Inv, GovernanceCall, NextBlock;
    a := FinalizeImport(k, who, id, true);
    InvariantParts(w);
    ClaimIsHere(w, k, id);
    FinalizedEffect(Ledger(w, k), TransfersEnv(w.At(k), 0), who, id);
    CallApplied(w, a, TransfersCall(w.At(k), a).value);
    WorldStep(w, a);
    var w' := Apply(w, a);
    forall e: EpochId ensures RoomAt(Ledger(w', k), w'.At(k).governance, 0, 0, e) {
      assert RoomAt(Ledger(w, k), w.At(k).governance, 1, 0, e);
    }
  }

  lemma ClaimIsHere(w: World, k: DomainId, id: ItemId)
    requires ChainsOk(w) && id in Ledger(w, k).observed
    ensures Ledger(w, k).observed[id].claim.targetDomain == k && w.At(k).domain == k
  {
    hide E.Inv, GP.Inv, RootsAt, TP.ExportsInv, TP.HoldsInv;
    assert w.At(k).domain == k && Inv(w.At(k));
  }

  /** A mint of a closed epoch can be acknowledged at its source. */
  lemma StageAcknowledge(w: World, k: DomainId, e: EpochId, id: ItemId, who: Account) returns (a: Action)
    requires WorldInv(w) && id in T.ImportIds(Ledger(w, k), e) && e < w.At(k).Epoch() && Room(w.At(k), 0, 0)
    requires Importer(w, id.domain, who) && !HasResolved(Ledger(w, id.domain), id)
    ensures Admissible(w, a) && HasResolved(Ledger(Apply(w, a), id.domain), id)
  {
    hide WorldInv, World.At, Apply, Admissible, Room, Outcome, Small, Served, Inv, SettlementInv, HasResolved;
    InvariantParts(w);
    if e in w.At(k).epochs.headers {
      RoomIsSmall(w.At(k), 0, 0, e);
    }
    SourceOfMint(w, k, e, id);
    var claim := MintedCanBeAcknowledged(w, k, e, id, who, ANY_CERTIFICATE, ANY_STORAGE);
    a := AcknowledgeExport(id.domain, who, claim);
    AcknowledgeCalled(w, id.domain, who, claim);
  }

  lemma SourceOfMint(w: World, k: DomainId, e: EpochId, id: ItemId)
    requires ChainsOk(w) && SettlementInv(w) && id in T.ImportIds(Ledger(w, k), e)
    ensures id in Ledger(w, k).observed && Ledger(w, k).observed[id].claim.sourceDomain == id.domain
  {
    hide E.Inv, GP.Inv, RootsAt, TP.ExportsInv, TP.HoldsInv;
    assert w.At(k).domain == k && Inv(w.At(k)) && TP.ImportListOk(Ledger(w, k), e);
    assert ImportBacked(w, k, id);
    ExportDomain(w, Ledger(w, k).observed[id].claim.sourceDomain, id);
  }

  lemma AcknowledgeCalled(w: World, d: DomainId, who: Account, claim: T.FinalizationClaim)
    requires ChainsOk(w) && Outcome(w.At(d), AcknowledgeExport(d, who, claim)).Some?
    ensures HasResolved(Ledger(Apply(w, AcknowledgeExport(d, who, claim)), d), claim.exportId)
  {
    hide Inv, HasResolved, World.At, World.With, Outcome;
    var a := AcknowledgeExport(d, who, claim);
    var c' := Outcome(w.At(d), a).value;
    ResolvedChange(w.At(d), a, c', claim.exportId);
    WithAt(w, d, c', Apply(w, a).log);
  }

  // ---------- together ----------

  /** From a listed mint: close the epoch, then acknowledge. */
  lemma MintToEnd(w: World, k: DomainId, e: EpochId, id: ItemId, who: Account) returns (actions: seq<Action>)
    requires WorldInv(w) && id in T.ImportIds(Ledger(w, k), e) && e <= w.At(k).Epoch() && Room(w.At(k), 0, 0)
    requires Importer(w, id.domain, who) && id.domain != k && !HasResolved(Ledger(w, id.domain), id)
    ensures Legal(w, actions) && HasResolved(Ledger(Exec(w, actions), id.domain), id)
  {
    hide WorldInv, World.At, Admissible, Legal, Exec, Apply, HasResolved;
    var n := w.At(k).epochs.length;
    ManyBlocks(w, k, n);
    var v := Exec(w, Blocks(k, n));
    EpochCloses(w, v, k);
    forall x: EpochId ensures RoomAt(Ledger(v, k), v.At(k).governance, 0, 0, x) {
      assert RoomAt(Ledger(w, k), w.At(k).governance, 0, 0, x);
    }
    var a := StageAcknowledge(v, k, e, id, who);
    One(v, a);
    Append(w, Blocks(k, n), [a]);
    actions := Blocks(k, n) + [a];
  }

  /** From an observed import: mint, then to the end. */
  lemma ObservedToEnd(w: World, k: DomainId, id: ItemId, whoSource: Account, whoTarget: Account)
    returns (actions: seq<Action>)
    requires WorldInv(w) && Room(w.At(k), 1, 0) && Importer(w, k, whoTarget) && Importer(w, id.domain, whoSource)
    requires id in Ledger(w, k).observed && Ledger(w, k).observed[id].status == T.RemoteObserved
    requires id.domain != k && !HasResolved(Ledger(w, id.domain), id)
    ensures Legal(w, actions) && HasResolved(Ledger(Exec(w, actions), id.domain), id)
  {
    hide WorldInv, World.At, Admissible, Legal, Exec, Apply, HasResolved, Room;
    var a := StageFinalize(w, k, id, whoTarget);
    var v := Apply(w, a);
    One(w, a);
    var rest := MintToEnd(v, k, v.At(k).Epoch(), id, whoSource);
    Append(w, [a], rest);
    actions := [a] + rest;
  }

  /** From a committed export unknown at its target: observe, then to the end. */
  lemma UnknownToEnd(w: World, k: DomainId, id: ItemId, whoSource: Account, whoTarget: Account)
    returns (actions: seq<Action>)
    requires WorldInv(w) && HasCommitted(Ledger(w, id.domain), id) && Room(w.At(id.domain), 0, 0) && Room(w.At(k), 1, 0)
    requires k == Ledger(w, id.domain).exports[id].leaf.input.targetDomain && id.domain != k
    requires Importer(w, k, whoTarget) && Importer(w, id.domain, whoSource)
    requires id !in Ledger(w, k).observed && !HasResolved(Ledger(w, id.domain), id)
    ensures Legal(w, actions) && HasResolved(Ledger(Exec(w, actions), id.domain), id)
  {
    hide WorldInv, World.At, Admissible, Legal, Exec, Apply, HasResolved, Room;
    var a := StageObserve(w, id.domain, id, whoTarget);
    var v := Apply(w, a);
    RoomKept(w.At(k), v.At(k), 1, 0);
    One(w, a);
    var rest := ObservedToEnd(v, k, id, whoSource, whoTarget);
    Append(w, [a], rest);
    actions := [a] + rest;
  }

  /** Every committed export can still be settled, with importers at both ends and room in the
      epochs. */
  lemma EveryExportCanSettle(w: World, id: ItemId, whoSource: Account, whoTarget: Account)
    returns (actions: seq<Action>)
    requires WorldInv(w) && HasCommitted(Ledger(w, id.domain), id)
    requires var k := Ledger(w, id.domain).exports[id].leaf.input.targetDomain;
             && Importer(w, id.domain, whoSource) && Importer(w, k, whoTarget)
             && Room(w.At(id.domain), 0, 0) && Room(w.At(k), 1, 0)
    ensures Legal(w, actions) && HasResolved(Ledger(Exec(w, actions), id.domain), id)
  {
    hide WorldInv, World.At, Admissible, Apply, HasResolved, Room, ChainsOk, SettlementInv, AgreementInv, LogInv;
    var d := id.domain;
    var k := Ledger(w, d).exports[id].leaf.input.targetDomain;
    InvariantParts(w);
    ExportDomain(w, d, id);
    if HasResolved(Ledger(w, d), id) {
      actions := [];
    } else if id !in Ledger(w, k).observed {
      actions := UnknownToEnd(w, k, id, whoSource, whoTarget);
    } else if Ledger(w, k).observed[id].status == T.RemoteObserved {
      actions := ObservedToEnd(w, k, id, whoSource, whoTarget);
    } else {
      var e := MintIsListed(w, k, id);
      LessRoom(w.At(k));
      actions := MintToEnd(w, k, e, id, whoSource);
    }
  }

  lemma RoomKept(c: Chain, c': Chain, imports: nat, leaves: nat)
    requires Room(c, imports, leaves) && c'.governance.epochLeafIds == c.governance.epochLeafIds
    requires c'.transfers.epochExportIds == c.transfers.epochExportIds
    requires c'.transfers.epochImportIds == c.transfers.epochImportIds
    ensures Room(c', imports, leaves)
  {
    forall e: EpochId ensures RoomAt(c'.transfers, c'.governance, imports, leaves, e) {
      assert RoomAt(c.transfers, c.governance, imports, leaves, e);
    }
  }

  lemma LessRoom(c: Chain)
    requires Room(c, 1, 0)
    ensures Room(c, 0, 0)
  {
    forall e: EpochId ensures RoomAt(c.transfers, c.governance, 0, 0, e) {
      assert RoomAt(c.transfers, c.governance, 1, 0, e);
    }
  }

  lemma MintIsListed(w: World, k: DomainId, id: ItemId) returns (e: EpochId)
    requires WorldInv(w) && HasMinted(Ledger(w, k), id)
    ensures e <= w.At(k).Epoch() && id in T.ImportIds(Ledger(w, k), e)
  {
    hide ChainsOk, SettlementInv, LogInv, AgreementInv, HasMinted;
    assert PalletFacts(w.At(k));
    assert MintListed(Ledger(w, k), w.At(k).Epoch(), id);
    e :| e <= w.At(k).Epoch() && id in T.ImportIds(Ledger(w, k), e);
  }
}
