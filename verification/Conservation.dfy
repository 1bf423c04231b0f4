/** Value is conserved: free balances plus the exports not yet minted add up to the same total
    in every reachable state. */
module Conservation {
  import opened Types
  import opened Sums
  import opened Chain
  import opened Network
  import opened Settlement
  import opened History
  import E = Epochs
  import T = Transfers
  import TP = TransfersProofs
  import G = Governance
  import GP = GovernanceProofs

  ghost function Balance(free: map<Account, nat>): Account -> nat { who => Lookup(free, who, 0) }

  ghost function FreeTotal(t: T.State): nat { Sum(t.free.Keys, Balance(t.free)) }

  /** An export weighs its amount until it is minted. */
  ghost function Weight(w: World, d: DomainId): ItemId -> nat {
    id => if id in Ledger(w, d).exports && !HasMinted(Ledger(w, Ledger(w, d).exports[id].leaf.input.targetDomain), id)
          then Ledger(w, d).exports[id].leaf.input.amount else 0
  }

  ghost function InFlight(w: World, d: DomainId): nat { Sum(Ledger(w, d).exports.Keys, Weight(w, d)) }

  ghost function Value(w: World, d: DomainId): nat { FreeTotal(Ledger(w, d)) + InFlight(w, d) }

  ghost function TotalValue(w: World): nat { Value(w, Earth) + Value(w, Moon) + Value(w, Mars) }

  // ---------- balances ----------

  lemma SetBalance(free: map<Account, nat>, who: Account, amount: nat)
    ensures Sum(free[who := amount].Keys, Balance(free[who := amount])) + Lookup(free, who, 0)
        == Sum(free.Keys, Balance(free)) + amount
  {
    hide Sum;
    var free' := free[who := amount];
    if who in free {
      assert free'.Keys == free.Keys;
      SumChange(free.Keys, who, Balance(free), Balance(free'));
    } else {
      assert free'.Keys == free.Keys + {who};
      SumAdd(free.Keys, who, Balance(free), Balance(free'));
    }
  }

  lemma TransferDebits(c: Chain, a: Action, c': Chain)
    requires a.Transfer? && Outcome(c, a) == Some(c')
    ensures FreeTotal(c'.transfers) + a.amount == FreeTotal(c.transfers)
    ensures c'.transfers.exports.Keys == c.transfers.exports.Keys + {ItemId(c.domain, c.transfers.nextSequence)}
    ensures c'.transfers.exports[ItemId(c.domain, c.transfers.nextSequence)].leaf.input.amount == a.amount
  {
    hide Sum;
    SetBalance(c.transfers.free, a.who, T.FreeOf(c.transfers, a.who) - a.amount);
  }

  lemma FinalizeCredits(c: Chain, a: Action, c': Chain)
    requires a.FinalizeImport? && Outcome(c, a) == Some(c')
    ensures a.exportId in c.transfers.observed && c'.transfers.exports == c.transfers.exports
    ensures FreeTotal(c'.transfers) == FreeTotal(c.transfers) + c.transfers.observed[a.exportId].claim.amount
  {
    hide Sum;
    var claim := c.transfers.observed[a.exportId].claim;
    SetBalance(c.transfers.free, claim.recipient, T.FreeOf(c.transfers, claim.recipient) + claim.amount);
  }

  lemma OthersKeepBalances(c: Chain, a: Action, c': Chain)
    requires !a.Transfer? && !a.FinalizeImport? && Outcome(c, a) == Some(c')
    ensures c'.transfers.free == c.transfers.free
  {
    hide E.OnInitialize, RootsAt, T.MarkExported, GovernanceCall, T.CanonicalExports;
  }

  // ---------- weights ----------

  lemma SameKeys(c: Chain, a: Action, c': Chain)
    requires Inv(c) && FreshIds(c, a) && !a.Transfer? && Outcome(c, a) == Some(c')
    ensures c'.transfers.exports.Keys == c.transfers.exports.Keys
  {
    hide Inv, Outcome;
    forall id ensures id in c'.transfers.exports <==> id in c.transfers.exports {
      CreatedChange(c, a, c', id);
    }
  }

  /** An export keeps its weight unless this very step mints it. */
  lemma WeightKept(w: World, a: Action, c': Chain, w': World, d: DomainId, id: ItemId)
    requires Stepped(w, a, c', w') && id in Ledger(w, d).exports
    requires !(a.FinalizeImport? && id == a.exportId)
    ensures Weight(w', d)(id) == Weight(w, d)(id)
  {
    hide Inv, Outcome, HasMinted, SettlementInv, World.At, World.With;
    var c := w.At(a.domain);
    WithAt(w, a.domain, c', w'.log);
    CreatedChange(c, a, c', id);
    MintedChange(c, a, c', id);
  }

  lemma WeightMinted(w: World, a: Action, c': Chain, w': World, id: ItemId)
    requires Stepped(w, a, c', w') && a.FinalizeImport? && id == a.exportId
    ensures id.domain != a.domain && id in Ledger(w, id.domain).exports && id in Ledger(w, a.domain).observed
    ensures Weight(w, id.domain)(id) == Ledger(w, a.domain).observed[id].claim.amount && Weight(w', id.domain)(id) == 0
  {
    hide Inv, Outcome, World.At, World.With, SettlementInv, Admissible;
    var c := w.At(a.domain);
    WithAt(w, a.domain, c', w'.log);
    MintedChange(c, a, c', id);
    MintBacked(w, a.domain, id);
    ExportDomain(w, id.domain, id);
    MintAmount(w, a.domain, id);
  }

  lemma MintAmount(w: World, d: DomainId, id: ItemId)
    requires ChainsOk(w) && SettlementInv(w) && id in Ledger(w, d).observed
    ensures id in Ledger(w, id.domain).exports
    ensures Ledger(w, id.domain).exports[id].leaf.input.amount == Ledger(w, d).observed[id].claim.amount
  {
    hide Inv;
    assert ImportBacked(w, d, id);
    ExportDomain(w, Ledger(w, d).observed[id].claim.sourceDomain, id);
  }

  lemma InFlightKept(w: World, a: Action, c': Chain, w': World, d: DomainId)
    requires Stepped(w, a, c', w') && !(a.Transfer? && d == a.domain)
    requires a.FinalizeImport? ==> a.exportId !in Ledger(w, d).exports
    ensures InFlight(w', d) == InFlight(w, d)
  {
    hide Inv, Outcome, Sum, Weight, World.At, World.With, SettlementInv;
    WithAt(w, a.domain, c', w'.log);
    if d == a.domain {
      SameKeys(w.At(a.domain), a, c');
    }
    forall id | id in Ledger(w, d).exports.Keys ensures Weight(w, d)(id) == Weight(w', d)(id) {
      WeightKept(w, a, c', w', d, id);
    }
    SumSame(Ledger(w, d).exports.Keys, Weight(w, d), Weight(w', d));
  }

  lemma InFlightCreated(w: World, a: Action, c': Chain, w': World)
    requires Stepped(w, a, c', w') && a.Transfer?
    ensures InFlight(w', a.domain) == InFlight(w, a.domain) + a.amount
  {
    hide Inv, Outcome, Sum, World.At, World.With, SettlementInv, HasMinted;
    var c := w.At(a.domain);
    var id := ItemId(c.domain, c.transfers.nextSequence);
    WithAt(w, a.domain, c', w'.log);
    TransferDebits(c, a, c');
    forall k | k in c.transfers.exports.Keys ensures Weight(w, a.domain)(k) == Weight(w', a.domain)(k) {
      WeightKept(w, a, c', w', a.domain, k);
    }
    SumAdd(c.transfers.exports.Keys, id, Weight(w, a.domain), Weight(w', a.domain));
    NewNotMinted(w, a, c', w', id);
  }

  lemma NewNotMinted(w: World, a: Action, c': Chain, w': World, id: ItemId)
    requires Stepped(w, a, c', w') && a.Transfer? && id == ItemId(a.domain, w.At(a.domain).transfers.nextSequence)
    ensures forall d: DomainId :: !HasMinted(Ledger(w', d), id)
  {
    hide Inv, Outcome, World.At, World.With, SettlementInv, HasMinted;
    WithAt(w, a.domain, c', w'.log);
    forall d: DomainId ensures !HasMinted(Ledger(w', d), id) {
      UnknownNotMinted(w, d, id);
      MintedChange(w.At(a.domain), a, c', id);
    }
  }

  lemma InFlightMinted(w: World, a: Action, c': Chain, w': World)
    requires Stepped(w, a, c', w') && a.FinalizeImport?
    ensures a.exportId in Ledger(w, a.domain).observed && a.exportId.domain != a.domain
    ensures InFlight(w', a.exportId.domain) + Ledger(w, a.domain).observed[a.exportId].claim.amount
        == InFlight(w, a.exportId.domain)
  {
    hide Inv, Outcome, Sum, Weight, World.At, World.With, SettlementInv;
    var id := a.exportId;
    var d := id.domain;
    WithAt(w, a.domain, c', w'.log);
    WeightMinted(w, a, c', w', id);
    forall k | k in Ledger(w, d).exports.Keys && k != id ensures Weight(w, d)(k) == Weight(w', d)(k) {
      WeightKept(w, a, c', w', d, k);
    }
    SumChange(Ledger(w, d).exports.Keys, id, Weight(w, d), Weight(w', d));
  }

  // ---------- every step ----------

  /** What a step does to the value counted at each domain. */
  lemma ValueStep(w: World, a: Action, c': Chain, w': World, d: DomainId)
    requires Stepped(w, a, c', w')
    ensures var amount := if a.FinalizeImport? && a.exportId in Ledger(w, a.domain).observed
                          then Ledger(w, a.domain).observed[a.exportId].claim.amount else 0;
            && (a.FinalizeImport? ==> a.exportId.domain != a.domain)
            && Value(w', d) + (if a.FinalizeImport? && d == a.exportId.domain then amount else 0)
               == Value(w, d) + (if d == a.domain then amount else 0)
  {
    hide Inv, Outcome, FreeTotal, InFlight, World.At, World.With, SettlementInv;
    var c := w.At(a.domain);
    WithAt(w, a.domain, c', w'.log);
    if a.FinalizeImport? {
      InFlightMinted(w, a, c', w');
      FinalizeCredits(c, a, c');
      if d != a.exportId.domain {
        OnlyOneHome(w, d, a.exportId);
        InFlightKept(w, a, c', w', d);
      }
    } else if a.Transfer? && d == a.domain {
      TransferDebits(c, a, c');
      InFlightCreated(w, a, c', w');
    } else {
      InFlightKept(w, a, c', w', d);
      if d == a.domain {
        OthersKeepTotals(c, a, c');
      }
    }
  }

  lemma OthersKeepTotals(c: Chain, a: Action, c': Chain)
    requires !a.Transfer? && !a.FinalizeImport? && Outcome(c, a) == Some(c')
    ensures FreeTotal(c'.transfers) == FreeTotal(c.transfers)
  {
    hide Outcome, Sum;
    OthersKeepBalances(c, a, c');
  }

  lemma OnlyOneHome(w: World, d: DomainId, id: ItemId)
    requires ChainsOk(w) && d != id.domain
    ensures id !in Ledger(w, d).exports
  {
    hide Inv;
    if id in Ledger(w, d).exports {
      ExportDomain(w, d, id);
    }
  }

  lemma ValueConserved(w: World, a: Action, c': Chain, w': World)
    requires Stepped(w, a, c', w')
    ensures TotalValue(w') == TotalValue(w)
  {
    hide Stepped, Value;
    ValueStep(w, a, c', w', Earth);
    ValueStep(w, a, c', w', Moon);
    ValueStep(w, a, c', w', Mars);
  }

  // ---------- creations under a used id ----------

  /** The value that disappears with the record written over. */
  ghost function WrittenOver(w: World, d: DomainId, id: ItemId): nat { Weight(w, d)(id) }

  /** The value the new record counts for. */
  ghost function Gained(w: World, target: DomainId, id: ItemId, amount: nat): nat {
    if HasMinted(Ledger(w, target), id) then 0 else amount
  }

  /** A creation, whether or not its id is in use. */
  ghost predicate Creates(w: World, a: Action, c': Chain, w': World, id: ItemId) {
    && ChainsOk(w) && a.Transfer? && Outcome(w.At(a.domain), a) == Some(c')
    && w' == w.With(a.domain, c').(log := w'.log) && id == ItemId(a.domain, w.At(a.domain).transfers.nextSequence)
  }

  lemma CreateShape(c: Chain, a: Action, c': Chain)
    requires a.Transfer? && Outcome(c, a) == Some(c')
    ensures var id := ItemId(c.domain, c.transfers.nextSequence);
            && id in c'.transfers.exports && c'.transfers.exports == c.transfers.exports[id := c'.transfers.exports[id]]
            && c'.transfers.observed == c.transfers.observed && c'.transfers.exports[id].leaf.input.amount == a.amount
            && c'.transfers.exports[id].leaf.input.targetDomain == a.target && a.amount > 0
  {
  }

  lemma CreateWeights(w: World, a: Action, c': Chain, w': World, id: ItemId, d: DomainId, k: ItemId)
    requires Creates(w, a, c', w', id)
    ensures d != a.domain || k != id ==> Weight(w', d)(k) == Weight(w, d)(k)
    ensures Weight(w', a.domain)(id) == Gained(w, a.target, id, a.amount)
  {
    hide Inv, Outcome, World.At, World.With;
    WithAt(w, a.domain, c', w'.log);
    CreateShape(w.At(a.domain), a, c');
  }

  lemma CreateInFlight(w: World, a: Action, c': Chain, w': World, id: ItemId, d: DomainId)
    requires Creates(w, a, c', w', id)
    ensures InFlight(w', d) + (if d == a.domain then WrittenOver(w, d, id) else 0)
         == InFlight(w, d) + (if d == a.domain then Gained(w, a.target, id, a.amount) else 0)
  {
    hide Inv, Outcome, World.At, World.With, Weight, Gained, Sum;
    var c := w.At(a.domain);
    WithAt(w, a.domain, c', w'.log);
    CreateShape(c, a, c');
    forall k ensures d != a.domain || k != id ==> Weight(w', d)(k) == Weight(w, d)(k) {
      CreateWeights(w, a, c', w', id, d, k);
    }
    if d != a.domain {
      SumSame(Ledger(w, d).exports.Keys, Weight(w, d), Weight(w', d));
    } else {
      CreateWeights(w, a, c', w', id, d, id);
      AbsentWeighsNothing(w, d, id);
      if id in c.transfers.exports {
        assert c'.transfers.exports.Keys == c.transfers.exports.Keys;
        SumChange(c.transfers.exports.Keys, id, Weight(w, d), Weight(w', d));
      } else {
        assert c'.transfers.exports.Keys == c.transfers.exports.Keys + {id};
        SumAdd(c.transfers.exports.Keys, id, Weight(w, d), Weight(w', d));
      }
    }
  }

  lemma AbsentWeighsNothing(w: World, d: DomainId, id: ItemId)
    ensures id !in Ledger(w, d).exports ==> Weight(w, d)(id) == 0
  {
  }

  /** What any creation does to the total. */
  lemma ValueAfterCreation(w: World, a: Action, c': Chain, w': World, id: ItemId)
    requires Creates(w, a, c', w', id)
    ensures TotalValue(w') + a.amount + WrittenOver(w, a.domain, id)
        == TotalValue(w) + Gained(w, a.target, id, a.amount)
  {
    hide Inv, Outcome, World.At, World.With, InFlight, FreeTotal, Gained, WrittenOver;
    WithAt(w, a.domain, c', w'.log);
    TransferDebits(w.At(a.domain), a, c');
    CreateInFlight(w, a, c', w', id, Earth);
    CreateInFlight(w, a, c', w', id, Moon);
    CreateInFlight(w, a, c', w', id, Mars);
  }

  /** A creation conserves value exactly when the export it writes over, if any, has been minted
      at its own target, and nothing has been minted under the id at the new target. */
  lemma CreationConservesIff(w: World, a: Action, c': Chain, w': World, id: ItemId)
    requires Creates(w, a, c', w', id)
    ensures TotalValue(w') == TotalValue(w) <==>
              && !HasMinted(Ledger(w, a.target), id)
              && (id in Ledger(w, a.domain).exports ==>
                    HasMinted(Ledger(w, Ledger(w, a.domain).exports[id].leaf.input.targetDomain), id))
  {
    hide Inv, Outcome, World.At, World.With, TotalValue, HasMinted;
    ValueAfterCreation(w, a, c', w', id);
    CreateShape(w.At(a.domain), a, c');
    if id in Ledger(w, a.domain).exports {
      ExportPositive(w, a.domain, id);
    }
  }

  lemma ExportPositive(w: World, d: DomainId, id: ItemId)
    requires ChainsOk(w) && id in Ledger(w, d).exports
    ensures Ledger(w, d).exports[id].leaf.input.amount > 0
  {
    hide E.Inv, RootsAt;
    assert TP.ExportOk(Ledger(w, d), d, w.At(d).Epoch(), id);
  }

  /** At a saturated counter the first creation is sound and the second, right after it, makes
      the first amount disappear. */
  lemma SecondSaturatedCreation(w: World, a: Action, c1: Chain, w1: World, b: Action, c2: Chain, w2: World, id: ItemId)
    requires SettlementInv(w) && Creates(w, a, c1, w1, id) && id !in Ledger(w, a.domain).exports
    requires id.sequence == U64_MAX
    requires Creates(w1, b, c2, w2, id)
    ensures TotalValue(w1) == TotalValue(w) && TotalValue(w2) + a.amount == TotalValue(w1)
  {
    hide Inv, Outcome, World.At, World.With, TotalValue, HasMinted, SettlementInv;
    WithAt(w, a.domain, c1, w1.log);
    CreateShape(w.At(a.domain), a, c1);
    forall d: DomainId ensures !HasMinted(Ledger(w, d), id) && !HasMinted(Ledger(w1, d), id) {
      UnknownNotMinted(w, d, id);
      MintsSame(Ledger(w, d), Ledger(w1, d), id);
    }
    ValueAfterCreation(w, a, c1, w1, id);
    ValueAfterCreation(w1, b, c2, w2, id);
  }

  lemma MintsSame(t: T.State, t': T.State, id: ItemId)
    requires t'.observed == t.observed
    ensures HasMinted(t', id) <==> HasMinted(t, id)
  {
  }

  /** A chain that starts at the last sequence number. */
  ghost function LastIdChain(d: DomainId, free: map<Account, nat>): Chain {
    var transfers := T.Genesis(None, free).(nextSequence := U64_MAX);
    Genesis(E.Context(d, Zero, Zero), 1, transfers, G.Genesis(1, None, []))
  }

  lemma LastIdChainOk(d: DomainId, free: map<Account, nat>)
    ensures Inv(LastIdChain(d, free)) && LastIdChain(d, free).domain == d
  {
    hide Inv, E.OnInitialize, TP.Inv, GP.Inv;
    TP.SaturatedGenesis(free, d, 0);
    GP.GenesisInv(1, None, [], d, 0);
    GenesisInv(E.Context(d, Zero, Zero), 1, LastIdChain(d, free).transfers, LastIdChain(d, free).governance);
  }

  ghost function LastIdWorld(free: map<Account, nat>): World {
    World(LastIdChain(Earth, free), LastIdChain(Moon, free), LastIdChain(Mars, free), [])
  }

  lemma LastIdWorldOk(free: map<Account, nat>)
    ensures ChainsOk(LastIdWorld(free)) && SettlementInv(LastIdWorld(free))
  {
    hide Inv, E.OnInitialize;
    forall d: DomainId ensures Inv(LastIdWorld(free).At(d)) && LastIdWorld(free).At(d).domain == d {
      LastIdChainOk(d, free);
    }
  }

  lemma TransferSucceeds(c: Chain, a: Action)
    requires a.Transfer? && a.allowed && 0 < a.amount <= T.FreeOf(c.transfers, a.who) && a.target != c.domain
    ensures var r := Outcome(c, a);
            && r.Some? && r.value.transfers.nextSequence == SatAdd(c.transfers.nextSequence, 1, U64_MAX)
            && T.FreeOf(r.value.transfers, a.who) == T.FreeOf(c.transfers, a.who) - a.amount
  {
  }

  lemma ApplyTransfer(w: World, a: Action)
    requires a.Transfer? && Outcome(w.At(a.domain), a).Some? && ChainsOk(w)
    ensures var c' := Outcome(w.At(a.domain), a).value;
            && Creates(w, a, c', Apply(w, a), ItemId(a.domain, w.At(a.domain).transfers.nextSequence))
            && Apply(w, a).At(a.domain) == c' && |Apply(w, a).log| == |w.log| + 1
            && forall d: DomainId :: d != a.domain ==> Apply(w, a).At(d) == w.At(d)
  {
    hide Inv, Outcome;
  }

  lemma StartOfLastIds(free: map<Account, nat>)
    ensures var t := Ledger(LastIdWorld(free), Earth);
            t.nextSequence == U64_MAX && t.exports == map[] && t.free == free
  {
    hide E.OnInitialize;
  }

  /** Two transfers of 3 from a balance of 10 in such a world: the first is sound, the second
      loses 3. */
  lemma SaturatedWorldLoses() returns (w1: World, w2: World)
    ensures var w := LastIdWorld(map[7 := 10]);
            var a := Transfer(Earth, 7, Moon, 8, 3, true, 0);
            && w1 == Apply(w, a) && w2 == Apply(w1, a) && |w2.log| == |w.log| + 2
            && TotalValue(w1) == TotalValue(w) && TotalValue(w2) + 3 == TotalValue(w1)
  {
    hide Inv, Outcome, SettlementInv, TotalValue, LastIdWorld, Apply, Creates, World.At;
    var w := LastIdWorld(map[7 := 10]);
    var a := Transfer(Earth, 7, Moon, 8, 3, true, 0);
    var id := ItemId(Earth, U64_MAX);
    w1 := Apply(w, a);
    w2 := Apply(w1, a);
    LastIdWorldOk(map[7 := 10]);
    StartOfLastIds(map[7 := 10]);
    TransferSucceeds(w.At(Earth), a);
    ApplyTransfer(w, a);
    var c1 := Outcome(w.At(Earth), a).value;
    ChainStep(w.At(Earth), a, c1);
    StillNamed(w.At(Earth), c1);
    TransferSucceeds(c1, a);
    ApplyTransfer(w1, a);
    SecondSaturatedCreation(w, a, c1, w1, a, Outcome(c1, a).value, w2, id);
  }

  lemma StillNamed(c: Chain, c': Chain)
    requires Evolves(c, c')
    ensures c'.domain == c.domain
  {
  }
}
