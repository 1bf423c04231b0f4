/** Activation over runs: the block in which a proposal becomes active, and that it does so once. */
module Activation {
  import opened Types
  import opened Chain
  import opened Network
  import opened Settlement
  import opened Agreement
  import opened History
  import opened Runs
  import opened GovernanceTiming
  import E = Epochs
  import T = Transfers
  import TP = TransfersProofs
  import G = Governance
  import GP = GovernanceProofs

  // ---------- one action ----------

  lemma SameStamp(g: G.State, g': G.State, id: ItemId)
    requires g'.activations == g.activations
    ensures StampKept(g, g', id)
  {
  }

  /** Calls never touch the times of a scheduled or active proposal. */
  lemma CallStamp(c: Chain, a: Action, c': Chain, id: ItemId)
    requires Inv(c) && !a.Block? && Outcome(c, a) == Some(c')
    ensures StampKept(c.governance, c'.governance, id) && c'.number == c.number && c'.epochs == c.epochs
  {
    hide E.Inv, TP.Inv, GP.Inv, NextBlock, TransfersCall, StampKept, RootsAt;
    hide G.CloseProposal, G.ImportProposal, G.ImportAck;
    var g, g' := c.governance, c'.governance;
    match a
    case Close(_, k) => CloseStamp(g, GovernanceEnv(c), k, g', id);
    case ImportProposal(_, who, leaf) => ImportProposalStamp(g, GovernanceEnv(c), who, leaf, g', id);
    case ImportAck(_, who, leaf) => ImportAckStamp(g, GovernanceEnv(c), who, leaf, g', id);
    case _ => SameStamp(g, g', id);
  }

  /** The next block activates every scheduled proposal whose epoch it has reached, stamps it
      with its own height, and leaves all other records alone. */
  lemma BlockStamp(c: Chain, a: Action, c': Chain, id: ItemId)
    requires Inv(c) && a.Block? && Outcome(c, a) == Some(c') && id in c.governance.activations
    ensures id in c'.governance.activations && c'.number == c.number + 1
    ensures StampOf(c'.governance.activations[id]) == NextStamp(c.governance.activations[id], c'.Epoch(), c.number + 1)
  {
    hide E.OnInitialize, RootsAt, T.CommitExports, E.Inv, TP.Inv, GP.CoreInv, GP.LeavesInv, G.OnInitialize, E.Closes;
    hide GP.Evolves, TP.Evolves;
    PalletsNext(c, a.observation, E.Context(c.domain, a.parentHash, a.validatorSetHash), c');
    HookStamp(c.governance, c.domain, c.Epoch(), c'.Epoch(), c.number + 1, id);
  }

  // ---------- every run ----------

  /** One action, seen from one record: a block of its chain may activate it, nothing else
      changes its times. */
  lemma StepStamp(w: World, a: Action, d: DomainId, id: ItemId)
    requires WorldInv(w) && Admissible(w, a) && id in Council(w, d).activations && Timed(Council(w, d).activations[id])
    ensures var c, c', r := w.At(d), Apply(w, a).At(d), Council(w, d).activations[id];
            && id in c'.governance.activations && c'.epochs.length == c.epochs.length && c.Epoch() <= c'.Epoch()
            && if a.Block? && a.domain == d then
                 && c'.number == c.number + 1
                 && StampOf(c'.governance.activations[id]) == NextStamp(r, c'.Epoch(), c'.number)
               else
                 c'.number == c.number && StampOf(c'.governance.activations[id]) == StampOf(r)
  {
    hide Inv, Outcome, SettlementInv, AgreementInv, PalletFacts, World.At, World.With, Events, NextStamp;
    hide TP.Evolves, GP.Evolves, Admissible, LogInv;
    var c := w.At(a.domain);
    if Outcome(c, a).Some? {
      var c' := Outcome(c, a).value;
      WithAt(w, a.domain, c', Apply(w, a).log);
      LocalStep(w, a, c');
      if d == a.domain {
        if a.Block? {
          BlockStamp(c, a, c', id);
          SameLength(c, a, c');
        } else {
          CallStamp(c, a, c', id);
        }
      }
    } else if a.Block? {
      BlockSucceeds(c, a);
    }
  }

  lemma SameLength(c: Chain, a: Action, c': Chain)
    requires Inv(c) && a.Block? && Outcome(c, a) == Some(c')
    ensures c'.epochs.length == c.epochs.length
  {
    hide E.OnInitialize, RootsAt, T.CommitExports, E.Inv, TP.Inv, GP.Inv, G.OnInitialize, E.Closes, GP.Evolves;
    hide TP.Evolves;
    PalletsNext(c, a.observation, E.Context(c.domain, a.parentHash, a.validatorSetHash), c');
  }

  lemma BlockSucceeds(c: Chain, a: Action)
    requires a.Block?
    ensures Outcome(c, a).Some?
  {
  }

  lemma NumberInEpoch(c: Chain)
    requires Inv(c)
    ensures InEpoch(c.number, c.Epoch(), c.epochs.length)
  {
    hide TP.Inv, GP.Inv, RootsAt, E.HeadersOk;
  }

  lemma {:induction false} BeforeGrows(a: EpochId, b: EpochId, length: nat)
    requires a <= b
    ensures E.Before(a, length) <= E.Before(b, length)
    decreases b
  {
    if a < b {
      BeforeGrows(a, b - 1, length);
    }
  }

  lemma OneEpoch(height: nat, a: EpochId, b: EpochId, length: nat)
    requires InEpoch(height, a, length) && InEpoch(height, b, length)
    ensures a == b
  {
    if a < b {
      BeforeGrows(a + 1, b, length);
    } else if b < a {
      BeforeGrows(b + 1, a, length);
    }
  }

  /** The block that activates a scheduled record: the next one if its epoch is already reached,
      otherwise the first of its activation epoch. */
  function ActivationBlock(c: Chain, r: G.Activation): nat {
    if r.activationEpoch <= c.Epoch() then c.number + 1 else E.Before(r.activationEpoch, c.epochs.length) + 1
  }

  /** Before that block the record is scheduled as it was; from then on it is active, stamped
      with that block. */
  ghost predicate OnSchedule(c: Chain, r: G.Activation, c': Chain, r': G.Activation) {
    var block := ActivationBlock(c, r);
    if c'.number < block then StampOf(r') == StampOf(r)
    else
      && r'.status == G.Activated && r'.activationEpoch == r.activationEpoch && r'.scheduledAt == r.scheduledAt
      && r'.activatedAtHeight == Some(block)
      && r'.activatedAtEpoch.Some? && InEpoch(block, r'.activatedAtEpoch.value, c.epochs.length)
      && (forall e: EpochId :: InEpoch(block, e, c.epochs.length) ==> e == r'.activatedAtEpoch.value)
      && (r.activationEpoch > c.Epoch() ==> r'.activatedAtEpoch.value == r.activationEpoch)
  }

  /** A block is due exactly from the activation block on. */
  lemma DueFromBlock(c: Chain, r: G.Activation, number: nat, epoch: EpochId)
    requires c.number < number && c.Epoch() <= epoch && InEpoch(number, epoch, c.epochs.length)
    ensures r.activationEpoch <= epoch <==> ActivationBlock(c, r) <= number
  {
    var act, length := r.activationEpoch, c.epochs.length;
    if act > c.Epoch() {
      if act <= epoch {
        BeforeGrows(act, epoch, length);
      } else {
        BeforeGrows(epoch + 1, act, length);
      }
    }
  }

  lemma ScheduleAdvances(c: Chain, r: G.Activation, v: Chain, rv: G.Activation, v': Chain, rv': G.Activation)
    requires r.status == G.Scheduled && OnSchedule(c, r, v, rv) && c.number <= v.number && c.Epoch() <= v'.Epoch()
    requires v'.number == v.number + 1 && InEpoch(v'.number, v'.Epoch(), c.epochs.length)
    requires StampOf(rv') == NextStamp(rv, v'.Epoch(), v'.number)
    ensures OnSchedule(c, r, v', rv')
  {
    DueFromBlock(c, r, v'.number, v'.Epoch());
    forall e: EpochId | InEpoch(v'.number, e, c.epochs.length) ensures e == v'.Epoch() {
      OneEpoch(v'.number, e, v'.Epoch(), c.epochs.length);
    }
    if r.activationEpoch > c.Epoch() {
      assert InEpoch(ActivationBlock(c, r), r.activationEpoch, c.epochs.length);
    }
  }

  /** In every run a scheduled proposal becomes active exactly in its activation block. */
  lemma {:induction false} ActivatesInItsBlock(w: World, actions: seq<Action>, d: DomainId, id: ItemId)
    requires WorldInv(w) && Legal(w, actions)
    requires id in Council(w, d).activations && Council(w, d).activations[id].status == G.Scheduled
    ensures var c, c' := w.At(d), Exec(w, actions).At(d);
            && id in c'.governance.activations && c.number <= c'.number && c.Epoch() <= c'.Epoch()
            && c'.epochs.length == c.epochs.length
            && OnSchedule(c, c.governance.activations[id], c', c'.governance.activations[id])
    decreases |actions|
  {
    hide WorldInv, Admissible, Apply, World.At, OnSchedule, NextStamp;
    var c := w.At(d);
    var r := c.governance.activations[id];
    if actions == [] {
      ChainsNumbered(w, d);
      ScheduledStart(c, r);
    } else {
      var n := |actions| - 1;
      var v := Exec(w, actions[..n]);
      ActivatesInItsBlock(w, actions[..n], d, id);
      RunKeeps(w, actions[..n]);
      WorldStep(v, actions[n]);
      var rv := v.At(d).governance.activations[id];
      ScheduledIsTimed(c, r, v.At(d), rv);
      StepStamp(v, actions[n], d, id);
      var v' := Apply(v, actions[n]);
      ChainsNumbered(v', d);
      var rv' := v'.At(d).governance.activations[id];
      if actions[n].Block? && actions[n].domain == d {
        ScheduleAdvances(c, r, v.At(d), rv, v'.At(d), rv');
      } else {
        ScheduleHolds(c, r, v.At(d), rv, v'.At(d), rv');
      }
    }
  }

  lemma ScheduledStart(c: Chain, r: G.Activation)
    requires r.status == G.Scheduled && InEpoch(c.number, c.Epoch(), c.epochs.length)
    ensures OnSchedule(c, r, c, r)
  {
    if r.activationEpoch > c.Epoch() {
      BeforeGrows(c.Epoch() + 1, r.activationEpoch, c.epochs.length);
    }
  }

  lemma ScheduledIsTimed(c: Chain, r: G.Activation, v: Chain, rv: G.Activation)
    requires r.status == G.Scheduled && OnSchedule(c, r, v, rv)
    ensures Timed(rv)
  {
  }

  lemma ScheduleHolds(c: Chain, r: G.Activation, v: Chain, rv: G.Activation, v': Chain, rv': G.Activation)
    requires OnSchedule(c, r, v, rv) && v'.number == v.number && StampOf(rv') == StampOf(rv)
    ensures OnSchedule(c, r, v', rv')
  {
  }

  lemma ChainsNumbered(w: World, d: DomainId)
    requires WorldInv(w)
    ensures InEpoch(w.At(d).number, w.At(d).Epoch(), w.At(d).epochs.length)
  {
    hide Inv, SettlementInv, AgreementInv, PalletFacts, LogInv;
    NumberInEpoch(w.At(d));
  }

  /** In every run an active proposal keeps the epoch and the block of its activation. */
  lemma {:induction false} ActivatedForever(w: World, actions: seq<Action>, d: DomainId, id: ItemId)
    requires WorldInv(w) && Legal(w, actions)
    requires id in Council(w, d).activations && Council(w, d).activations[id].status == G.Activated
    ensures var g' := Council(Exec(w, actions), d);
            id in g'.activations && StampOf(g'.activations[id]) == StampOf(Council(w, d).activations[id])
    decreases |actions|
  {
    hide WorldInv, Admissible, Apply, World.At;
    if actions != [] {
      var n := |actions| - 1;
      ActivatedForever(w, actions[..n], d, id);
      RunKeeps(w, actions[..n]);
      StepStamp(Exec(w, actions[..n]), actions[n], d, id);
    }
  }
}
