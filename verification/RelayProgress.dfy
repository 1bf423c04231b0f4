/** Whether a package can still reach its importer: always, unless its time has run out of range. */
module RelayProgress {
  import opened Types
  import opened Blackout
  import opened RelayQueue

  /** No attempt will ever be made: the planned time cannot be turned into a date.  An interrupted
      attempt is planned again at the next restart. */
  predicate OutOfRange(link: Link, item: Item) {
    match item.record.state
    case Queued =>
      var at := NextDelivery(link.windows, Arrival(link, item.record));
      at.None? || at.value > LAST_MILLISECOND
    case Scheduled => item.record.nextDelivery.Some? && item.record.nextDelivery.value > LAST_MILLISECOND
    case BlockedByBlackout => item.record.nextDelivery.Some? && item.record.nextDelivery.value > LAST_MILLISECOND
    case Retrying => item.record.nextDelivery.Some? && item.record.nextDelivery.value > LAST_MILLISECOND
    case InDelivery => item.flight.None? && item.clock > LAST_MILLISECOND
    case _ => false
  }

  // ---------- out of range: stuck ----------

  lemma StuckStep(link: Link, pollMillis: nat, item: Item, a: Action)
    requires ItemInv(link, item) && OutOfRange(link, item) && item.clock <= a.now
    ensures OutOfRange(link, Step(link, pollMillis, item, a))
  {
    hide NextFree, RetryDelay;
  }

  lemma {:induction false} StuckForever(link: Link, pollMillis: nat, item: Item, actions: seq<Action>)
    requires ItemInv(link, item) && OutOfRange(link, item) && Ordered(link, pollMillis, item, actions)
    ensures OutOfRange(link, Run(link, pollMillis, item, actions))
    ensures ItemInv(link, Run(link, pollMillis, item, actions))
    decreases |actions|
  {
    hide Step, OutOfRange, ItemInv;
    if actions != [] {
      var n := |actions| - 1;
      StuckForever(link, pollMillis, item, actions[..n]);
      StuckStep(link, pollMillis, Run(link, pollMillis, item, actions[..n]), actions[n]);
      StepKeeps(link, pollMillis, Run(link, pollMillis, item, actions[..n]), actions[n]);
    }
  }

  // ---------- otherwise: deliverable ----------

  ghost predicate Leads(link: Link, pollMillis: nat, item: Item, actions: seq<Action>) {
    Ordered(link, pollMillis, item, actions) && Run(link, pollMillis, item, actions).record.state == ImporterAcked
  }

  lemma {:induction false} Prepend(link: Link, pollMillis: nat, item: Item, a: Action, actions: seq<Action>)
    requires item.clock <= a.now && Ordered(link, pollMillis, Step(link, pollMillis, item, a), actions)
    ensures Ordered(link, pollMillis, item, [a] + actions)
    ensures Run(link, pollMillis, item, [a] + actions)
         == Run(link, pollMillis, Step(link, pollMillis, item, a), actions)
    decreases |actions|
  {
    hide Step;
    var all := [a] + actions;
    if actions == [] {
      assert all[..0] == [] && all == [a];
      assert Run(link, pollMillis, item, all[..0]) == item;
    } else {
      var n := |actions| - 1;
      Prepend(link, pollMillis, item, a, actions[..n]);
      assert all[..|all| - 1] == [a] + actions[..n];
    }
  }

  lemma Answering(link: Link, pollMillis: nat, item: Item) returns (actions: seq<Action>)
    requires item.record.state == InDelivery && item.flight.Some?
    ensures Leads(link, pollMillis, item, actions)
  {
    var a := Answer(item.clock, Receipt(true));
    assert Ordered(link, pollMillis, Step(link, pollMillis, item, a), []);
    Prepend(link, pollMillis, item, a, []);
    actions := [a] + [];
  }

  lemma Polling(link: Link, pollMillis: nat, item: Item) returns (actions: seq<Action>)
    requires item.record.state == Delivered && item.record.nextPoll.Some?
    ensures Leads(link, pollMillis, item, actions)
  {
    var now := item.clock + item.record.nextPoll.value;
    var a := PollTick(now, now, Receipt(true));
    assert Ordered(link, pollMillis, Step(link, pollMillis, item, a), []);
    Prepend(link, pollMillis, item, a, []);
    actions := [a] + [];
  }

  /** A due attempt late enough to be past the blackout is sent. */
  lemma Sending(link: Link, pollMillis: nat, item: Item) returns (actions: seq<Action>)
    requires Waiting(item.record.state) && item.record.nextDelivery.Some?
    requires item.record.nextDelivery.value <= LAST_MILLISECOND
    ensures Leads(link, pollMillis, item, actions)
  {
    hide NextFree, RetryDelay, Ordered, Run;
    var until := NextDelivery(link.windows, item.record.nextDelivery.value).value;
    var now := item.clock + until;
    var a := Tick(now, now);
    var rest := Answering(link, pollMillis, Step(link, pollMillis, item, a));
    Prepend(link, pollMillis, item, a, rest);
    actions := [a] + rest;
  }

  lemma Scheduling(link: Link, pollMillis: nat, item: Item) returns (actions: seq<Action>)
    requires item.record.state == Queued && !OutOfRange(link, item)
    ensures Leads(link, pollMillis, item, actions)
  {
    hide NextFree, RetryDelay, Ordered, Run;
    var a := Tick(item.clock, item.clock);
    var rest := Sending(link, pollMillis, Step(link, pollMillis, item, a));
    Prepend(link, pollMillis, item, a, rest);
    actions := [a] + rest;
  }

  lemma Restarting(link: Link, pollMillis: nat, item: Item) returns (actions: seq<Action>)
    requires item.record.state == InDelivery && item.clock <= LAST_MILLISECOND
    ensures Leads(link, pollMillis, item, actions)
  {
    hide NextFree, RetryDelay, Ordered, Run;
    var a := Restart(item.clock);
    var rest := Sending(link, pollMillis, Step(link, pollMillis, item, a));
    Prepend(link, pollMillis, item, a, rest);
    actions := [a] + rest;
  }

  lemma Reaching(link: Link, pollMillis: nat, item: Item) returns (actions: seq<Action>)
    requires ItemInv(link, item) && !Final(item.record.state) && !OutOfRange(link, item)
    ensures Leads(link, pollMillis, item, actions)
  {
    hide NextDelivery, RetryDelay, Leads, FlightOk, AttemptsOk;
    match item.record.state
    case Queued => actions := Scheduling(link, pollMillis, item);
    case InDelivery =>
      if item.flight.Some? {
        actions := Answering(link, pollMillis, item);
      } else {
        actions := Restarting(link, pollMillis, item);
      }
    case Delivered => actions := Polling(link, pollMillis, item);
    case _ => actions := Sending(link, pollMillis, item);
  }

  /** From every state a run can reach, a package that is not final can still be acknowledged, except
      exactly when its time is out of range. */
  lemma DeliverableIff(link: Link, pollMillis: nat, item: Item)
    requires ItemInv(link, item) && !Final(item.record.state)
    ensures (exists actions :: Leads(link, pollMillis, item, actions)) <==> !OutOfRange(link, item)
  {
    hide OutOfRange, ItemInv, Ordered, Run;
    if OutOfRange(link, item) {
      forall actions | Ordered(link, pollMillis, item, actions) ensures !Leads(link, pollMillis, item, actions) {
        StuckForever(link, pollMillis, item, actions);
        NotAcked(link, Run(link, pollMillis, item, actions));
      }
    } else {
      var actions := Reaching(link, pollMillis, item);
    }
  }

  lemma NotAcked(link: Link, item: Item)
    requires OutOfRange(link, item)
    ensures item.record.state != ImporterAcked
  {
  }

  /** After a receipt that cannot be read, nothing but a restart moves the package on. */
  lemma {:induction false} UnreadableReceiptWaits(link: Link, pollMillis: nat, item: Item, now: nat,
                                                  actions: seq<Action>)
    requires item.record.state == InDelivery && forall i :: 0 <= i < |actions| ==> !actions[i].Restart?
    ensures var item' := Step(link, pollMillis, item, Answer(now, BadReceipt));
            var item'' := Run(link, pollMillis, item', actions);
            item''.record == item.record && item''.flight.None?
    decreases |actions|
  {
    if actions != [] {
      UnreadableReceiptWaits(link, pollMillis, item, now, actions[..|actions| - 1]);
    }
  }
}
