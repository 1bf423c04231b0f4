/** Where things come from: in every run each export goes back to one transfer call, each mint to one
    transfer and one finalization, each ballot to one vote, and each balance to the calls that moved it. */
module Origins {
  import opened Types
  import opened Chain
  import opened Network
  import opened Settlement
  import opened History
  import opened Agreement
  import opened Runs
  import opened Theorems
  import E = Epochs
  import T = Transfers
  import TC = TransfersCalls
  import G = Governance
  import GC = GovernanceCalls
  import V = Voting
  import B = Ballots

  // ---------- one step of a run ----------

  predicate Succeeds(w: World, a: Action) { Outcome(w.At(a.domain), a).Some? }

  /** The state in which the action at place `i` runs. */
  function Upto(w: World, actions: seq<Action>, i: nat): World
    requires i <= |actions|
  {
    Exec(w, actions[..i])
  }

  predicate CreatesNow(w: World, a: Action, id: ItemId) {
    a.Transfer? && Succeeds(w, a) && id == ItemId(a.domain, Ledger(w, a.domain).nextSequence)
  }

  predicate MintsNow(w: World, a: Action, d: DomainId, id: ItemId) {
    a.FinalizeImport? && Succeeds(w, a) && a.domain == d && a.exportId == id
  }

  predicate Creates(w: World, actions: seq<Action>, i: nat, id: ItemId) {
    i < |actions| && CreatesNow(Upto(w, actions, i), actions[i], id)
  }

  predicate Mints(w: World, actions: seq<Action>, j: nat, d: DomainId, id: ItemId) {
    j < |actions| && MintsNow(Upto(w, actions, j), actions[j], d, id)
  }

  /** The leaf says what the transfer call asked for, when and where. */
  predicate Asked(w: World, a: Action, x: ExportLeafInput) {
    && a.Transfer? && x.sourceDomain == a.domain && x.sender == a.who
    && x.targetDomain == a.target && x.recipient == a.recipient && x.amount == a.amount
    && x.sourceEpoch == w.At(a.domain).Epoch() && x.sourceBlock == w.At(a.domain).number
    && x.extrinsicIndex == a.extrinsicIndex
  }

  /** One account gains the amount, every other account keeps what it has. */
  ghost predicate Pays(t: T.State, t': T.State, recipient: Account, amount: nat) {
    forall x :: T.FreeOf(t', x) == T.FreeOf(t, x) + if x == recipient then amount else 0
  }

  lemma ApplyAt(w: World, a: Action)
    ensures if Succeeds(w, a) then Outcome(w.At(a.domain), a) == Some(Apply(w, a).At(a.domain)) else Apply(w, a) == w
    ensures forall d: DomainId :: d != a.domain ==> Apply(w, a).At(d) == w.At(d)
    ensures Succeeds(w, a) ==> Apply(w, a).log == w.log + Events(w.At(a.domain), Apply(w, a).At(a.domain), a)
  {
    hide Outcome, Events, World.At, World.With;
    if Succeeds(w, a) {
      WithAt(w, a.domain, Outcome(w.At(a.domain), a).value, Apply(w, a).log);
    }
  }

  lemma {:induction false} Prefix(w: World, actions: seq<Action>, i: nat)
    requires Legal(w, actions) && i <= |actions|
    ensures Legal(w, actions[..i]) && Upto(w, actions, i).log <= Exec(w, actions).log
    decreases |actions|
  {
    hide Apply, Admissible;
    if i == |actions| {
      assert actions[..i] == actions;
    } else {
      var n := |actions| - 1;
      Prefix(w, actions[..n], i);
      assert actions[..n][..i] == actions[..i];
      ApplyAt(Exec(w, actions[..n]), actions[n]);
    }
  }

  lemma StepAt(w: World, actions: seq<Action>, i: nat)
    requires GenesisWorld(w) && Legal(w, actions) && i < |actions|
    ensures WorldInv(Upto(w, actions, i)) && Admissible(Upto(w, actions, i), actions[i])
    ensures Upto(w, actions, i + 1) == Apply(Upto(w, actions, i), actions[i])
  {
    hide Apply, Admissible, WorldInv, GenesisWorld;
    Prefix(w, actions, i + 1);
    assert actions[..i + 1][..i] == actions[..i];
    EveryRun(w, actions[..i]);
  }

  // ---------- exports ----------

  lemma NewExport(c: Chain, a: Action, c': Chain)
    requires a.Transfer? && Outcome(c, a) == Some(c')
    ensures var id := ItemId(c.domain, c.transfers.nextSequence);
            && id in c'.transfers.exports
            && var x := c'.transfers.exports[id].leaf.input;
               && x.sourceDomain == c.domain && x.sender == a.who
               && x.targetDomain == a.target && x.recipient == a.recipient && x.amount == a.amount
               && x.sourceEpoch == c.Epoch() && x.sourceBlock == c.number && x.extrinsicIndex == a.extrinsicIndex
  {
    hide T.Create;
    TC.Created(c.transfers, TransfersEnv(c, a.extrinsicIndex), a.who, a.target, a.recipient, a.amount, a.allowed,
               c'.transfers);
  }

  lemma ExportStep(w: World, a: Action, id: ItemId)
    requires WorldInv(w) && Admissible(w, a) && id in Ledger(Apply(w, a), id.domain).exports
    ensures var x := Ledger(Apply(w, a), id.domain).exports[id].leaf;
            if id in Ledger(w, id.domain).exports then x == Ledger(w, id.domain).exports[id].leaf
            else CreatesNow(w, a, id) && Asked(w, a, x.input)
  {
    hide Inv, Outcome, Apply, Events, World.At, SettlementInv, LogInv, AgreementInv, PalletFacts;
    ApplyAt(w, a);
    var c := w.At(a.domain);
    assert c.domain == a.domain && Inv(c);
    if Succeeds(w, a) && a.domain == id.domain {
      var c' := Outcome(c, a).value;
      CreatedChange(c, a, c', id);
      if id !in c.transfers.exports {
        NewExport(c, a, c');
      }
    }
  }

  /** Every export of a run goes back to a transfer call that asked for it. */
  lemma {:induction false} ExportOrigin(w: World, actions: seq<Action>, n: nat, id: ItemId) returns (i: nat)
    requires GenesisWorld(w) && Legal(w, actions) && n <= |actions|
    requires id in Ledger(Upto(w, actions, n), id.domain).exports
    ensures i < n && Creates(w, actions, i, id)
    ensures Asked(Upto(w, actions, i), actions[i], Ledger(Upto(w, actions, n), id.domain).exports[id].leaf.input)
    decreases n
  {
    hide WorldInv, Apply, Admissible, World.At, Legal, Exec, CreatesNow, Asked;
    if n == 0 {
      Start(w, actions, id.domain);
      assert false;
    } else {
      StepAt(w, actions, n - 1);
      ExportStep(Upto(w, actions, n - 1), actions[n - 1], id);
      if id in Ledger(Upto(w, actions, n - 1), id.domain).exports {
        i := ExportOrigin(w, actions, n - 1, id);
      } else {
        i := n - 1;
      }
    }
  }

  lemma Start(w: World, actions: seq<Action>, d: DomainId)
    requires GenesisWorld(w)
    ensures Upto(w, actions, 0) == w && Ledger(w, d).exports == map[] && Ledger(w, d).observed == map[]
    ensures Council(w, d).votes == map[]
  {
    hide GenesisChain;
    assert actions[..0] == [];
    GenesisChainOk(w.At(d), d);
    NoVotes(w.At(d), d);
  }

  lemma NoVotes(c: Chain, d: DomainId)
    requires GenesisChain(c, d)
    ensures c.governance.votes == map[]
  {
    hide E.OnInitialize;
  }

  // ---------- mints ----------

  lemma MintStep(w: World, a: Action, d: DomainId, id: ItemId)
    requires WorldInv(w) && HasMinted(Ledger(Apply(w, a), d), id) && !HasMinted(Ledger(w, d), id)
    ensures MintsNow(w, a, d, id)
  {
    hide Inv, Outcome, Apply, Events, World.At, SettlementInv, LogInv, AgreementInv, PalletFacts, HasMinted;
    ApplyAt(w, a);
    if Succeeds(w, a) && a.domain == d {
      MintedChange(w.At(d), a, Outcome(w.At(d), a).value, id);
    }
  }

  lemma {:induction false} MintOrigin(w: World, actions: seq<Action>, n: nat, d: DomainId, id: ItemId) returns (j: nat)
    requires GenesisWorld(w) && Legal(w, actions) && n <= |actions| && HasMinted(Ledger(Upto(w, actions, n), d), id)
    ensures j < n && Mints(w, actions, j, d, id)
    decreases n
  {
    hide WorldInv, Apply, Admissible, World.At, Legal, Exec, MintsNow;
    if n == 0 {
      Start(w, actions, d);
      assert false;
    } else {
      StepAt(w, actions, n - 1);
      if HasMinted(Ledger(Upto(w, actions, n - 1), d), id) {
        j := MintOrigin(w, actions, n - 1, d, id);
      } else {
        MintStep(Upto(w, actions, n - 1), actions[n - 1], d, id);
        j := n - 1;
      }
    }
  }

  /** A finalization pays the observed claim. */
  lemma MintPays(w: World, a: Action, d: DomainId, id: ItemId)
    requires WorldInv(w) && MintsNow(w, a, d, id)
    ensures HasMinted(Ledger(Apply(w, a), d), id)
    ensures var claim := Ledger(Apply(w, a), d).observed[id].claim;
            Pays(Ledger(w, d), Ledger(Apply(w, a), d), claim.recipient, claim.amount)
  {
    hide Inv, Apply, Events, World.At, SettlementInv, LogInv, AgreementInv, PalletFacts, T.Finalize;
    ApplyAt(w, a);
    TC.Finalized(Ledger(w, d), TransfersEnv(w.At(d), 0), a.who, id, a.allowed, Ledger(Apply(w, a), d));
  }

  // ---------- once only ----------

  ghost predicate Logs(w: World, actions: seq<Action>, i: nat, e: Event) {
    && i < |actions| && Succeeds(Upto(w, actions, i), actions[i])
    && var v, a := Upto(w, actions, i), actions[i];
       e in Events(v.At(a.domain), Apply(v, a).At(a.domain), a)
  }

  lemma CreatesLogs(w: World, actions: seq<Action>, i: nat, id: ItemId)
    requires GenesisWorld(w) && Legal(w, actions) && Creates(w, actions, i, id)
    ensures Logs(w, actions, i, Created(id))
  {
    hide GenesisWorld, Legal, Exec, Inv, SettlementInv, LogInv, AgreementInv, PalletFacts, Apply, World.At, Outcome;
    StepAt(w, actions, i);
  }

  lemma MintsLogs(w: World, actions: seq<Action>, j: nat, d: DomainId, id: ItemId)
    requires Mints(w, actions, j, d, id)
    ensures Logs(w, actions, j, Minted(id))
  {
    hide Exec, Apply, World.At, Outcome;
  }

  /** What an action logs stays in the log. */
  lemma Remains(w: World, actions: seq<Action>, i: nat, j: nat, e: Event)
    requires GenesisWorld(w) && Legal(w, actions) && Logs(w, actions, i, e) && i < j <= |actions|
    ensures e in Upto(w, actions, j).log
  {
    hide Apply, Admissible, Outcome, Events, World.At, GenesisWorld, Legal, Exec, WorldInv;
    StepAt(w, actions, i);
    ApplyAt(Upto(w, actions, i), actions[i]);
    Prefix(w, actions, j);
    Prefix(w, actions[..j], i + 1);
    assert actions[..j][..i + 1] == actions[..i + 1];
    var before, after := Upto(w, actions, i + 1).log, Upto(w, actions, j).log;
    assert e in before && before <= after;
    var p :| 0 <= p < |before| && before[p] == e;
    assert after[p] == e;
  }

  lemma NewInLog(before: seq<Event>, events: seq<Event>, e: Event)
    requires Ordered(before + events) && e in events
    ensures e !in before
  {
    var q :| 0 <= q < |events| && events[q] == e;
    var k := |before| + q;
    assert (before + events)[k] == e;
    forall p | 0 <= p < |before| ensures before[p] != e {
      assert (before + events)[..k][p] == before[p];
    }
  }

  lemma LogsNew(w: World, actions: seq<Action>, j: nat, e: Event)
    requires GenesisWorld(w) && Legal(w, actions) && Logs(w, actions, j, e)
    ensures j < |actions| && e !in Upto(w, actions, j).log
  {
    hide Apply, Admissible, Outcome, Events, World.At, GenesisWorld, Legal, Exec, ChainsOk, SettlementInv, AgreementInv;
    hide PalletFacts, Ordered;
    var v, a := Upto(w, actions, j), actions[j];
    StepAt(w, actions, j);
    ApplyAt(v, a);
    Prefix(w, actions, j + 1);
    EveryRun(w, actions[..j + 1]);
    NewInLog(v.log, Events(v.At(a.domain), Apply(v, a).At(a.domain), a), e);
  }

  /** No event is logged by two actions of a run. */
  lemma LogsOnce(w: World, actions: seq<Action>, i: nat, j: nat, e: Event)
    requires GenesisWorld(w) && Legal(w, actions) && Logs(w, actions, i, e) && Logs(w, actions, j, e)
    ensures i == j
  {
    hide Logs, Legal, GenesisWorld, Upto;
    LogsNew(w, actions, i, e);
    LogsNew(w, actions, j, e);
    if i < j {
      Remains(w, actions, i, j, e);
    } else if j < i {
      Remains(w, actions, j, i, e);
    }
  }

  /** Whatever has been minted goes back to exactly one transfer call of the run, and was paid by
      exactly one later finalization: to the recipient named in that transfer, the amount named in
      it, at the domain named in it, and to nobody else. */
  lemma MintTraced(w: World, actions: seq<Action>, d: DomainId, id: ItemId) returns (i: nat, j: nat)
    requires GenesisWorld(w) && Legal(w, actions) && HasMinted(Ledger(Exec(w, actions), d), id)
    ensures i < j && Creates(w, actions, i, id) && Mints(w, actions, j, d, id)
    ensures actions[i].domain == id.domain && actions[i].target == d
    ensures Pays(Ledger(Upto(w, actions, j), d), Ledger(Upto(w, actions, j + 1), d), actions[i].recipient,
                 actions[i].amount)
    ensures forall k :: Creates(w, actions, k, id) ==> k == i
    ensures forall k, x: DomainId :: Mints(w, actions, k, x, id) ==> k == j
  {
    hide Legal, Exec, GenesisWorld, WorldInv, Apply, Admissible, World.At, Pays;
    assert actions[..|actions|] == actions;
    j := MintOrigin(w, actions, |actions|, d, id);
    i := PaidFor(w, actions, j, d, id);
    CreatesLogs(w, actions, i, id);
    MintsLogs(w, actions, j, d, id);
    forall k | Creates(w, actions, k, id) ensures k == i {
      CreatesLogs(w, actions, k, id);
      LogsOnce(w, actions, k, i, Created(id));
    }
    forall k, x: DomainId | Mints(w, actions, k, x, id) ensures k == j {
      MintsLogs(w, actions, k, x, id);
      LogsOnce(w, actions, k, j, Minted(id));
    }
  }

  /** The claim paid is the committed export. */
  lemma PaidClaim(w: World, actions: seq<Action>, j: nat, d: DomainId, id: ItemId)
    requires GenesisWorld(w) && Legal(w, actions) && Mints(w, actions, j, d, id)
    ensures var v := Upto(w, actions, j + 1);
            && id in Ledger(v, id.domain).exports
            && var x := Ledger(v, id.domain).exports[id].leaf.input;
               x.targetDomain == d && Pays(Ledger(Upto(w, actions, j), d), Ledger(v, d), x.recipient, x.amount)
  {
    hide Legal, Exec, GenesisWorld, Apply, Admissible, World.At, Pays, ChainsOk, SettlementInv, LogInv, AgreementInv;
    hide PalletFacts, MintsNow;
    StepAt(w, actions, j);
    MintPays(Upto(w, actions, j), actions[j], d, id);
    Prefix(w, actions, j + 1);
    EveryRun(w, actions[..j + 1]);
    MintFacts(Upto(w, actions, j + 1), d, id);
  }

  lemma PaidFor(w: World, actions: seq<Action>, j: nat, d: DomainId, id: ItemId) returns (i: nat)
    requires GenesisWorld(w) && Legal(w, actions) && Mints(w, actions, j, d, id)
    ensures i < j && Creates(w, actions, i, id) && actions[i].domain == id.domain && actions[i].target == d
    ensures Pays(Ledger(Upto(w, actions, j), d), Ledger(Upto(w, actions, j + 1), d), actions[i].recipient,
                 actions[i].amount)
  {
    hide Legal, Exec, GenesisWorld, World.At, Pays, Outcome, Upto;
    PaidClaim(w, actions, j, d, id);
    i := ExportOrigin(w, actions, j + 1, id);
  }

  // ---------- balances ----------

  /** What an action takes from an account's free balance, and what it adds. */
  function Debit(w: World, a: Action, d: DomainId, who: Account): nat {
    if a.domain == d && a.Transfer? && a.who == who && Succeeds(w, a) then a.amount else 0
  }

  function Credit(w: World, a: Action, d: DomainId, who: Account): nat {
    if a.domain == d && a.FinalizeImport? && Succeeds(w, a) && a.exportId in Ledger(w, d).observed
      && Ledger(w, d).observed[a.exportId].claim.recipient == who
    then Ledger(w, d).observed[a.exportId].claim.amount else 0
  }

  function Spent(w: World, actions: seq<Action>, d: DomainId, who: Account): nat {
    if actions == [] then 0
    else
      var n := |actions| - 1;
      Spent(w, actions[..n], d, who) + Debit(Exec(w, actions[..n]), actions[n], d, who)
  }

  function Received(w: World, actions: seq<Action>, d: DomainId, who: Account): nat {
    if actions == [] then 0
    else
      var n := |actions| - 1;
      Received(w, actions[..n], d, who) + Credit(Exec(w, actions[..n]), actions[n], d, who)
  }

  lemma CallBalance(w: World, a: Action, d: DomainId, who: Account)
    requires w.At(d).domain == d && a.domain == d && !a.Block? && Succeeds(w, a)
    ensures T.FreeOf(Outcome(w.At(d), a).value.transfers, who) + Debit(w, a, d, who)
         == T.FreeOf(Ledger(w, d), who) + Credit(w, a, d, who)
  {
    hide World.At, T.Create, T.Finalize, GovernanceCall;
    var c := w.At(d);
    var t' := Outcome(c, a).value.transfers;
    match a
    case Transfer(_, caller, target, recipient, amount, allowed, index) =>
      TC.CreateAccepted(c.transfers, TransfersEnv(c, index), caller, target, recipient, amount, allowed);
      TC.Created(c.transfers, TransfersEnv(c, index), caller, target, recipient, amount, allowed, t');
    case FinalizeImport(_, caller, id, allowed) =>
      TC.Finalized(c.transfers, TransfersEnv(c, 0), caller, id, allowed, t');
    case _ =>
  }

  lemma BlockBalance(c: Chain, a: Action, c': Chain, who: Account)
    requires Inv(c) && a.Block? && Outcome(c, a) == Some(c')
    ensures T.FreeOf(c'.transfers, who) == T.FreeOf(c.transfers, who)
  {
    hide Inv, Outcome, T.MarkExported, T.CanonicalExports;
    BlockCommits(c, a, c');
  }

  lemma BalanceStep(w: World, a: Action, d: DomainId, who: Account)
    requires WorldInv(w)
    ensures T.FreeOf(Ledger(Apply(w, a), d), who) + Debit(w, a, d, who)
         == T.FreeOf(Ledger(w, d), who) + Credit(w, a, d, who)
  {
    hide Inv, Outcome, Apply, Events, World.At, SettlementInv, LogInv, AgreementInv, PalletFacts, T.FreeOf;
    ApplyAt(w, a);
    assert w.At(d).domain == d && Inv(w.At(d));
    if Succeeds(w, a) && a.domain == d {
      if a.Block? {
        BlockBalance(w.At(d), a, Outcome(w.At(d), a).value, who);
      } else {
        CallBalance(w, a, d, who);
      }
    }
  }

  /** The statement of an account: what it has is what it started with, plus the mints to it, minus
      the transfers it made.  Nothing else moves a free balance. */
  lemma {:induction false} AccountStatement(w: World, actions: seq<Action>, d: DomainId, who: Account)
    requires GenesisWorld(w) && Legal(w, actions)
    ensures T.FreeOf(Ledger(Exec(w, actions), d), who) + Spent(w, actions, d, who)
         == T.FreeOf(Ledger(w, d), who) + Received(w, actions, d, who)
    decreases |actions|
  {
    hide WorldInv, Apply, Admissible, World.At, GenesisWorld, Debit, Credit, T.FreeOf;
    if actions != [] {
      var n := |actions| - 1;
      AccountStatement(w, actions[..n], d, who);
      EveryRun(w, actions[..n]);
      BalanceStep(Exec(w, actions[..n]), actions[n], d, who);
    }
  }

  // ---------- ballots ----------

  predicate Votes(w: World, a: Action, d: DomainId, id: ItemId, who: Account, ballot: G.Vote) {
    && a == Vote(d, who, id, ballot.choice) && Succeeds(w, a)
    && (id, who) in Council(w, d).powers && ballot.power == Council(w, d).powers[(id, who)]
    && ballot.castEpoch == w.At(d).Epoch() && ballot.castHeight == w.At(d).number
  }

  lemma OtherVotes(c: Chain, a: Action, c': Chain)
    requires Inv(c) && !a.Vote? && Outcome(c, a) == Some(c')
    ensures c'.governance.votes == c.governance.votes
  {
    hide Inv, NextBlock, TransfersCall, G.CastVote, G.CloseProposal, G.ImportProposal, G.ImportAck;
    var g, g' := c.governance, c'.governance;
    match a
    case Block(_, _, _, _) => B.BlockNoVoting(c, a, c');
    case Close(_, id) => B.CloseNoVoting(g, GovernanceEnv(c), id, g');
    case ImportProposal(_, who, leaf) => B.ImportProposalNoVoting(g, GovernanceEnv(c), who, leaf, g');
    case ImportAck(_, who, leaf) => B.ImportAckNoVoting(g, GovernanceEnv(c), who, leaf, g');
    case _ =>
  }

  lemma BallotStep(w: World, a: Action, d: DomainId, id: ItemId, who: Account)
    requires WorldInv(w) && (id, who) in Council(Apply(w, a), d).votes
    ensures var ballot := Council(Apply(w, a), d).votes[(id, who)];
            if (id, who) in Council(w, d).votes then ballot == Council(w, d).votes[(id, who)]
            else Votes(w, a, d, id, who, ballot)
  {
    hide Inv, Apply, Events, World.At, SettlementInv, LogInv, AgreementInv, PalletFacts, TransfersCall, NextBlock;
    hide G.CastVote, G.CloseProposal, G.ImportProposal, G.ImportAck, G.CreateProposal, V.Cast;
    ApplyAt(w, a);
    var c := w.At(d);
    assert c.domain == d && Inv(c);
    if Succeeds(w, a) && a.domain == d {
      var c' := Outcome(c, a).value;
      if a.Vote? {
        GC.VoteAccepted(c.governance, GovernanceEnv(c), a.who, a.proposalId, a.choice);
        GC.BallotCounted(c.governance, GovernanceEnv(c), a.who, a.proposalId, a.choice, c'.governance);
      } else {
        OtherVotes(c, a, c');
      }
    }
  }

  /** Every stored ballot goes back to a vote by that account, with that choice, cast with the power
      recorded for it. */
  lemma {:induction false} BallotTraced(w: World, actions: seq<Action>, n: nat, d: DomainId, id: ItemId, who: Account)
    returns (i: nat)
    requires GenesisWorld(w) && Legal(w, actions) && n <= |actions|
    requires (id, who) in Council(Upto(w, actions, n), d).votes
    ensures i < n
    ensures Votes(Upto(w, actions, i), actions[i], d, id, who, Council(Upto(w, actions, n), d).votes[(id, who)])
    decreases n
  {
    hide WorldInv, Apply, Admissible, World.At, Legal, Exec, Votes;
    if n == 0 {
      Start(w, actions, d);
      assert false;
    } else {
      StepAt(w, actions, n - 1);
      BallotStep(Upto(w, actions, n - 1), actions[n - 1], d, id, who);
      if (id, who) in Council(Upto(w, actions, n - 1), d).votes {
        i := BallotTraced(w, actions, n - 1, d, id, who);
      } else {
        i := n - 1;
      }
    }
  }
}
