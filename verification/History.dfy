/** Exactly once and in order: the log of any run holds each event of an export at most once,
    and created, committed, minted, burnt appear in that order. */
module History {
  import opened Types
  import opened Chain
  import opened Network
  import opened Settlement
  import E = Epochs
  import T = Transfers
  import TP = TransfersProofs
  import GP = GovernanceProofs

  // ---------- storage and log say the same ----------

  /** What storage says about an event. */
  predicate Happened(w: World, e: Event) {
    var source := Ledger(w, e.id.domain);
    match e
    case Created(id) => id in source.exports
    case Committed(id) => HasCommitted(source, id)
    case Minted(id) => id in source.exports && HasMinted(Ledger(w, source.exports[id].leaf.input.targetDomain), id)
    case Burnt(id) => HasResolved(source, id)
  }

  function Before(e: Event): Option<Event> {
    match e
    case Created(_) => None
    case Committed(id) => Some(Created(id))
    case Minted(id) => Some(Committed(id))
    case Burnt(id) => Some(Minted(id))
  }

  /** No event twice, none before the one it follows from. */
  ghost predicate Ordered(log: seq<Event>) {
    forall i :: 0 <= i < |log| ==> log[i] !in log[..i] && (Before(log[i]).Some? ==> Before(log[i]).value in log[..i])
  }

  ghost predicate LogInv(w: World) { Ordered(w.log) && forall e :: e in w.log <==> Happened(w, e) }

  // ---------- one action, one chain ----------

  predicate Closed(c: Chain, a: Action, c': Chain) { a.Block? && c'.Epoch() != c.Epoch() }

  lemma CreatedChange(c: Chain, a: Action, c': Chain, id: ItemId)
    requires Inv(c) && FreshIds(c, a) && Outcome(c, a) == Some(c')
    ensures id in c'.transfers.exports <==>
              id in c.transfers.exports || (a.Transfer? && id == ItemId(c.domain, c.transfers.nextSequence))
    ensures id in c.transfers.exports ==> c'.transfers.exports[id].leaf == c.transfers.exports[id].leaf
  {
    hide E.OnInitialize, RootsAt, T.CommitExports, TP.ExportsInv, GovernanceCall, E.Inv, GP.Inv;
    if a.Block? && c'.transfers != c.transfers {
      CommitMembers(c, id);
    }
  }

  lemma CommitMembers(c: Chain, id: ItemId)
    requires TP.ExportsInv(c.transfers, c.domain, c.Epoch())
    ensures var t' := T.CommitExports(c.transfers, c.Epoch());
            && (id in t'.exports <==> id in c.transfers.exports)
            && (id in c.transfers.exports ==> t'.exports[id].leaf == c.transfers.exports[id].leaf)
            && (HasCommitted(t', id) <==> id in c.transfers.exports)
            && (id in T.ExportIds(c.transfers, c.Epoch()) <==>
                  id in c.transfers.exports && !HasCommitted(c.transfers, id))
            && (HasResolved(t', id) <==> HasResolved(c.transfers, id))
  {
    hide T.CommitExports;
    TP.CommitEffect(c.transfers, c.domain, c.Epoch(), id);
    assert TP.ExportListOk(c.transfers, c.Epoch());
    if id in c.transfers.exports {
      assert TP.ExportOk(c.transfers, c.domain, c.Epoch(), id);
    }
  }

  /** The epoch moves on exactly when the exports are committed. */
  lemma BlockCommits(c: Chain, a: Action, c': Chain)
    requires Inv(c) && a.Block? && Outcome(c, a) == Some(c')
    ensures c'.transfers == if Closed(c, a, c') then T.CommitExports(c.transfers, c.Epoch()) else c.transfers
  {
    hide E.OnInitialize, RootsAt, T.CommitExports, E.Inv, GP.Inv, TP.Inv, E.Closes, GP.Evolves, TP.Evolves;
    PalletsNext(c, a.observation, E.Context(c.domain, a.parentHash, a.validatorSetHash), c');
  }

  lemma CommittedChange(c: Chain, a: Action, c': Chain, id: ItemId)
    requires Inv(c) && FreshIds(c, a) && Outcome(c, a) == Some(c')
    ensures HasCommitted(c'.transfers, id) <==>
              HasCommitted(c.transfers, id) || (Closed(c, a, c') && id in T.ExportIds(c.transfers, c.Epoch()))
  {
    hide NextBlock, T.CommitExports, TP.ExportsInv, GovernanceCall, E.Inv, GP.Inv;
    if a.Block? {
      BlockCommits(c, a, c');
      CommitMembers(c, id);
    }
  }

  lemma ResolvedChange(c: Chain, a: Action, c': Chain, id: ItemId)
    requires Inv(c) && FreshIds(c, a) && Outcome(c, a) == Some(c')
    ensures HasResolved(c'.transfers, id) <==>
              HasResolved(c.transfers, id) || (a.AcknowledgeExport? && id == a.completion.exportId)
    ensures a.AcknowledgeExport? && id == a.completion.exportId ==>
        id in c.transfers.exports && !HasResolved(c.transfers, id)
  {
    hide NextBlock, T.CommitExports, TP.ExportsInv, GovernanceCall, E.Inv, GP.Inv;
    if a.Block? {
      BlockCommits(c, a, c');
      CommitMembers(c, id);
    }
  }

  lemma MintedChange(c: Chain, a: Action, c': Chain, id: ItemId)
    requires Inv(c) && Outcome(c, a) == Some(c')
    ensures HasMinted(c'.transfers, id) <==>
              HasMinted(c.transfers, id) || (a.FinalizeImport? && id == a.exportId)
    ensures a.FinalizeImport? && id == a.exportId ==>
              id in c.transfers.observed && !HasMinted(c.transfers, id)
                && c.transfers.observed[id].claim.targetDomain == c.domain
  {
    hide E.OnInitialize, RootsAt, T.MarkExported, TP.ExportsInv, GovernanceCall, E.Inv, GP.Inv, T.CanonicalExports;
  }

  // ---------- one action, all chains ----------

  lemma ExportDomain(w: World, d: DomainId, id: ItemId)
    requires ChainsOk(w) && id in Ledger(w, d).exports
    ensures id.domain == d && Ledger(w, d).exports[id].leaf.input.targetDomain != d
  {
    hide E.Inv, GP.Inv, RootsAt;
    assert TP.ExportOk(Ledger(w, d), d, w.At(d).Epoch(), id);
  }

  /** An id that is not exported has been minted nowhere. */
  lemma UnknownNotMinted(w: World, d: DomainId, id: ItemId)
    requires ChainsOk(w) && SettlementInv(w) && id !in Ledger(w, id.domain).exports
    ensures !HasMinted(Ledger(w, d), id)
  {
    hide Inv;
    assert ImportBacked(w, d, id);
    if id in Ledger(w, d).observed {
      ExportDomain(w, Ledger(w, d).observed[id].claim.sourceDomain, id);
    }
  }

  lemma MintBacked(w: World, d: DomainId, id: ItemId)
    requires ChainsOk(w) && SettlementInv(w) && id in Ledger(w, d).observed
    requires Ledger(w, d).observed[id].claim.targetDomain == d
    ensures HasCommitted(Ledger(w, id.domain), id) && Ledger(w, id.domain).exports[id].leaf.input.targetDomain == d
  {
    hide Inv;
    assert ImportBacked(w, d, id);
    ExportDomain(w, Ledger(w, d).observed[id].claim.sourceDomain, id);
  }

  lemma CommittedEventsMembers(ids: seq<ItemId>, e: Event)
    ensures e in CommittedEvents(ids) <==> e.Committed? && e.id in ids
  {
    if e.Committed? && e.id in ids {
      var i :| 0 <= i < |ids| && ids[i] == e.id;
      assert CommittedEvents(ids)[i] == e;
    }
  }

  ghost predicate Stepped(w: World, a: Action, c': Chain, w': World) {
    && ChainsOk(w) && SettlementInv(w) && Admissible(w, a) && Outcome(w.At(a.domain), a) == Some(c')
    && w' == w.With(a.domain, c').(log := w.log + Events(w.At(a.domain), c', a))
  }

  /** Events of the export itself happen on its own chain. */
  lemma SourceEvents(w: World, a: Action, c': Chain, w': World, e: Event)
    requires Stepped(w, a, c', w') && !e.Minted?
    ensures Happened(w', e) <==> Happened(w, e) || e in Events(w.At(a.domain), c', a)
    ensures e in Events(w.At(a.domain), c', a) ==> !Happened(w, e)
    ensures e.Committed? && e in Events(w.At(a.domain), c', a) ==> Happened(w, Created(e.id))
  {
    hide Inv, Outcome, HasCommitted, HasResolved, HasMinted, T.ExportIds, SettlementInv, World.At, World.With;
    var c := w.At(a.domain);
    var id := e.id;
    WithAt(w, a.domain, c', w'.log);
    CreatedChange(c, a, c', id);
    CommittedChange(c, a, c', id);
    ResolvedChange(c, a, c', id);
    CommittedEventsMembers(T.ExportIds(c.transfers, c.Epoch()), e);
    if a.Block? {
      ListedExports(c, id);
    }
    if id in c.transfers.exports {
      ExportDomain(w, a.domain, id);
    }
  }

  lemma ListedExports(c: Chain, id: ItemId)
    requires Inv(c)
    ensures id in T.ExportIds(c.transfers, c.Epoch()) <==> id in c.transfers.exports && !HasCommitted(c.transfers, id)
  {
    CommitMembers(c, id);
  }

  /** A mint happens at the export's target, after its commitment. */
  lemma MintEvents(w: World, a: Action, c': Chain, w': World, id: ItemId)
    requires Stepped(w, a, c', w')
    ensures Happened(w', Minted(id)) <==> Happened(w, Minted(id)) || Minted(id) in Events(w.At(a.domain), c', a)
    ensures Minted(id) in Events(w.At(a.domain), c', a) ==> !Happened(w, Minted(id)) && Happened(w, Committed(id))
  {
    hide Inv, Outcome, HasCommitted, HasResolved, HasMinted, T.ExportIds, SettlementInv, World.At, World.With;
    var c := w.At(a.domain);
    WithAt(w, a.domain, c', w'.log);
    MintedChange(c, a, c', id);
    CommittedEventsMembers(T.ExportIds(c.transfers, c.Epoch()), Minted(id));
    if id.domain == a.domain {
      CreatedChange(c, a, c', id);
    }
    if id in w'.At(id.domain).transfers.exports && id !in Ledger(w, id.domain).exports {
      UnknownNotMinted(w, w'.At(id.domain).transfers.exports[id].leaf.input.targetDomain, id);
    }
    if a.FinalizeImport? && id == a.exportId {
      MintBacked(w, a.domain, id);
      FinalizedExported(w, id);
    }
  }

  lemma FinalizedExported(w: World, id: ItemId)
    requires HasCommitted(Ledger(w, id.domain), id)
    ensures id in Ledger(w, id.domain).exports && Happened(w, Committed(id))
  {
  }

  /** A hold is released only for a mint already in the log. */
  lemma BurnAfterMint(w: World, a: Action, c': Chain, w': World, id: ItemId)
    requires Stepped(w, a, c', w') && Burnt(id) in Events(w.At(a.domain), c', a)
    ensures Happened(w, Minted(id))
  {
    hide Inv, Outcome, SettlementInv, Admissible;
    var c := w.At(a.domain);
    CommittedEventsMembers(T.ExportIds(c.transfers, c.Epoch()), Burnt(id));
    ResolvedFacts(w, a, c', id);
    NewSettled(w, a, c', id);
    ExportDomain(w, a.domain, id);
  }

  lemma ResolvedFacts(w: World, a: Action, c': Chain, id: ItemId)
    requires ChainsOk(w) && Admissible(w, a) && Outcome(w.At(a.domain), a) == Some(c') && a.AcknowledgeExport?
    requires id == a.completion.exportId
    ensures HasResolved(c'.transfers, id) && !HasResolved(Ledger(w, a.domain), id) && id in Ledger(w, a.domain).exports
    ensures c'.transfers.exports[id].leaf == Ledger(w, a.domain).exports[id].leaf
  {
    hide Inv, GovernanceCall, HasResolved, NextBlock;
    ResolvedChange(w.At(a.domain), a, c', id);
    CreatedChange(w.At(a.domain), a, c', id);
  }

  // ---------- the log ----------

  lemma {:induction false} Extend(log: seq<Event>, events: seq<Event>)
    requires Ordered(log) && forall i, j :: 0 <= i < j < |events| ==> events[i] != events[j]
    requires forall e :: e in events ==> e !in log && (Before(e).Some? ==> Before(e).value in log)
    ensures Ordered(log + events)
  {
    var all := log + events;
    forall i | 0 <= i < |all| ensures all[i] !in all[..i] && (Before(all[i]).Some? ==>
        Before(all[i]).value in all[..i]) {
      if i < |log| {
        assert all[..i] == log[..i] && all[i] == log[i];
      } else {
        var k := i - |log|;
        assert all[..i] == log + events[..k] && all[i] == events[k] && events[k] in events;
      }
    }
  }

  lemma EventsDistinct(c: Chain, c': Chain, a: Action)
    requires Inv(c)
    ensures var events := Events(c, c', a);
            forall i, j :: 0 <= i < j < |events| ==> events[i] != events[j]
  {
    assert TP.ExportListOk(c.transfers, c.Epoch());
  }

  lemma EventStep(w: World, a: Action, c': Chain, w': World, e: Event)
    requires Stepped(w, a, c', w')
    ensures Happened(w', e) <==> Happened(w, e) || e in Events(w.At(a.domain), c', a)
    ensures e in Events(w.At(a.domain), c', a) ==> !Happened(w, e) && (Before(e).Some? ==> Happened(w, Before(e).value))
  {
    hide Happened, Stepped, Events;
    if e.Minted? {
      MintEvents(w, a, c', w', e.id);
    } else {
      SourceEvents(w, a, c', w', e);
      if e.Burnt? && e in Events(w.At(a.domain), c', a) {
        BurnAfterMint(w, a, c', w', e.id);
      }
    }
  }

  lemma LogStep(w: World, a: Action, c': Chain, w': World)
    requires Stepped(w, a, c', w') && LogInv(w)
    ensures LogInv(w')
  {
    hide Happened, Events, Inv, Outcome, Admissible, SettlementInv, Ordered;
    var events := Events(w.At(a.domain), c', a);
    forall e ensures (e in w'.log <==> Happened(w', e)) && (e in events ==> e !in w.log && (Before(e).Some? ==>
        Before(e).value in w.log)) {
      EventStep(w, a, c', w', e);
    }
    EventsDistinct(w.At(a.domain), c', a);
    Extend(w.log, events);
  }
}
