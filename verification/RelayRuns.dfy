/** The whole relay: submissions, scheduler steps on any package and restarts, in any order.  Each
    package lives the life that RelayQueue describes, so its theorems hold of the whole store. */
module RelayRuns {
  import opened Types
  import opened Packages
  import opened RelayStore
  import Q = RelayQueue

  /** The store's records together with what is in flight, and a clock. */
  datatype Relay = Relay(items: seq<Q.Item>, payloads: map<Q.Key, Envelope>, clock: nat)

  datatype Config = Config(links: map<(DomainId, DomainId), Q.Link>, pollMillis: nat)

  datatype Action =
    | Submit(now: nat, envelope: Envelope)
    | OnPackage(now: nat, key: Q.Key, step: Q.Action)
    | RestartAll(now: nat)

  function Records(items: seq<Q.Item>): seq<Q.Record> { seq(|items|, i requires 0 <= i < |items| => items[i].record) }

  /** What is on disk. */
  function StoreOf(r: Relay): State { State(Records(r.items), r.payloads) }

  predicate Linked(config: Config, key: Q.Key) { (key.sourceDomain, key.targetDomain) in config.links }

  function LinkOf(config: Config, key: Q.Key): Q.Link
    requires Linked(config, key)
  {
    config.links[(key.sourceDomain, key.targetDomain)]
  }

  /** A step on one item; without a link profile a package stays queued. */
  function StepItem(config: Config, item: Q.Item, a: Q.Action): Q.Item {
    if Linked(config, item.record.key) then Q.Step(LinkOf(config, item.record.key), config.pollMillis, item, a)
    else item
  }

  function Apply(config: Config, r: Relay, a: Action): Relay {
    match a
    case Submit(now, e) =>
      var accepted := Accept(StoreOf(r), e, now);
      if accepted.None? || accepted.value.2 then r.(clock := now)
      else Relay(r.items + [Q.Item(NewRecord(e, now), None, now, 0)], r.payloads[KeyOf(e) := e], now)
    case OnPackage(now, key, step) =>
      var i := IndexOf(Records(r.items), key);
      if i < |r.items| && step.now == now && !step.Restart? then
        r.(items := r.items[i := StepItem(config, r.items[i], step)], clock := now)
      else r.(clock := now)
    case RestartAll(now) =>
      var items := seq(|r.items|, i requires 0 <= i < |r.items| => StepItem(config, r.items[i], Q.Restart(now)));
      r.(items := items, clock := now)
  }

  function Exec(config: Config, r: Relay, actions: seq<Action>): Relay {
    if actions == [] then r else Apply(config, Exec(config, r, actions[..|actions| - 1]), actions[|actions| - 1])
  }

  ghost predicate Ordered(config: Config, r: Relay, actions: seq<Action>) {
    actions == [] ||
      var n := |actions| - 1;
      Ordered(config, r, actions[..n]) && Exec(config, r, actions[..n]).clock <= actions[n].now
  }

  // ---------- every package has a history ----------

  /** The item is the end of an ordered run from its acceptance. */
  ghost predicate Reached(config: Config, item: Q.Item, start: Q.Item, actions: seq<Q.Action>) {
    && Linked(config, item.record.key) && Q.Accepted(start) && start.record.key == item.record.key
    && Q.Ordered(LinkOf(config, item.record.key), config.pollMillis, start, actions)
    && Q.Run(LinkOf(config, item.record.key), config.pollMillis, start, actions) == item
  }

  ghost predicate HasHistory(config: Config, item: Q.Item) {
    Linked(config, item.record.key) ==> exists start, actions :: Reached(config, item, start, actions)
  }

  lemma HistoryStep(config: Config, item: Q.Item, a: Q.Action)
    requires HasHistory(config, item) && item.clock <= a.now
    ensures HasHistory(config, StepItem(config, item, a)) && StepItem(config, item, a).record.key == item.record.key
  {
    hide Q.Step;
    if Linked(config, item.record.key) {
      var link := LinkOf(config, item.record.key);
      var start, actions :| Reached(config, item, start, actions);
      Q.StepIdentity(link, config.pollMillis, item, a);
      var more := actions + [a];
      assert more[..|more| - 1] == actions;
      assert Reached(config, StepItem(config, item, a), start, more);
    }
  }

  lemma HistoryStart(config: Config, e: Envelope, now: nat)
    ensures HasHistory(config, Q.Item(NewRecord(e, now), None, now, 0))
  {
    var item := Q.Item(NewRecord(e, now), None, now, 0);
    if Linked(config, item.record.key) {
      assert Reached(config, item, item, []);
    }
  }

  ghost predicate RelayInv(config: Config, r: Relay) {
    && Inv(StoreOf(r))
    && forall i :: 0 <= i < |r.items| ==> HasHistory(config, r.items[i]) && r.items[i].clock <= r.clock
  }

  lemma StepClock(config: Config, item: Q.Item, a: Q.Action)
    requires item.clock <= a.now
    ensures StepItem(config, item, a).clock <= a.now
  {
  }

  lemma SameKeys(s: State, s': State)
    requires Inv(s) && s'.payloads == s.payloads && |s'.packages| == |s.packages|
    requires forall i :: 0 <= i < |s.packages| ==> s'.packages[i].key == s.packages[i].key
    ensures Inv(s')
  {
  }

  lemma SubmitKeeps(config: Config, r: Relay, now: nat, e: Envelope)
    requires RelayInv(config, r) && r.clock <= now
    ensures RelayInv(config, Apply(config, r, Submit(now, e)))
    ensures var accepted := Accept(StoreOf(r), e, now);
            StoreOf(Apply(config, r, Submit(now, e))) == if accepted.None? then StoreOf(r) else accepted.value.0
  {
    hide HasHistory, Inv, IndexOf;
    var r' := Apply(config, r, Submit(now, e));
    var accepted := Accept(StoreOf(r), e, now);
    if accepted.Some? && !accepted.value.2 {
      AcceptKeeps(StoreOf(r), e, now);
      HistoryStart(config, e, now);
      assert Records(r'.items) == Records(r.items) + [NewRecord(e, now)];
    }
  }

  lemma PackageKeeps(config: Config, r: Relay, now: nat, key: Q.Key, step: Q.Action)
    requires RelayInv(config, r) && r.clock <= now
    ensures RelayInv(config, Apply(config, r, OnPackage(now, key, step)))
  {
    hide HasHistory, Inv, StepItem;
    var r' := Apply(config, r, OnPackage(now, key, step));
    var i := IndexOf(Records(r.items), key);
    if i < |r.items| && step.now == now && !step.Restart? {
      HistoryStep(config, r.items[i], step);
      StepClock(config, r.items[i], step);
      SameKeys(StoreOf(r), StoreOf(r'));
    }
  }

  lemma RestartKeeps(config: Config, r: Relay, now: nat)
    requires RelayInv(config, r) && r.clock <= now
    ensures RelayInv(config, Apply(config, r, RestartAll(now)))
  {
    hide HasHistory, Inv, StepItem;
    var r' := Apply(config, r, RestartAll(now));
    forall i | 0 <= i < |r.items|
      ensures HasHistory(config, r'.items[i]) && r'.items[i].clock <= now
      ensures r'.items[i].record.key == r.items[i].record.key
    {
      HistoryStep(config, r.items[i], Q.Restart(now));
      StepClock(config, r.items[i], Q.Restart(now));
    }
    SameKeys(StoreOf(r), StoreOf(r'));
  }

  /** In every ordered run from the empty store, identities are unique, payloads are kept, and
      every record is the end of an ordered run of its own. */
  lemma {:induction false} EveryRun(config: Config, clock: nat, actions: seq<Action>)
    requires Ordered(config, Relay([], map[], clock), actions)
    ensures RelayInv(config, Exec(config, Relay([], map[], clock), actions))
    decreases |actions|
  {
    hide Apply, RelayInv;
    var empty := Relay([], map[], clock);
    if actions == [] {
      EmptyOk(config, clock);
    } else {
      var n := |actions| - 1;
      EveryRun(config, clock, actions[..n]);
      var r := Exec(config, empty, actions[..n]);
      match actions[n]
      case Submit(now, e) => SubmitKeeps(config, r, now, e);
      case OnPackage(now, key, step) => PackageKeeps(config, r, now, key, step);
      case RestartAll(now) => RestartKeeps(config, r, now);
    }
  }

  lemma EmptyOk(config: Config, clock: nat)
    ensures RelayInv(config, Relay([], map[], clock))
  {
  }

  // ---------- the theorems, for the whole store ----------

  /** No package of the store is sent before its acceptance plus the delay of its link. */
  lemma NeverEarly(config: Config, r: Relay, i: nat, looked: nat, now: nat)
    requires RelayInv(config, r) && i < |r.items| && r.clock <= now && Linked(config, r.items[i].record.key)
    requires r.items[i].record.state != Q.InDelivery
    requires StepItem(config, r.items[i], Q.Tick(looked, now)).record.state == Q.InDelivery
    ensures Q.Arrival(LinkOf(config, r.items[i].record.key), r.items[i].record) <= now
  {
    hide Q.Step, Q.Run, Q.Ordered, Inv;
    var item := r.items[i];
    assert HasHistory(config, item);
    var start, actions :| Reached(config, item, start, actions);
    var link := LinkOf(config, item.record.key);
    Q.NeverEarly(link, config.pollMillis, start, actions, looked, now);
    Q.RunIdentity(link, config.pollMillis, start, actions);
  }

  /** Attempts of every package of the store stay bounded, and waiting ones have a due time. */
  lemma AttemptsBounded(config: Config, r: Relay, i: nat)
    requires RelayInv(config, r) && i < |r.items| && Linked(config, r.items[i].record.key)
    ensures var link := LinkOf(config, r.items[i].record.key);
            && Q.ItemInv(link, r.items[i])
            && (link.maxAttempts != 0 ==> r.items[i].record.attempts <= link.maxAttempts + 1 + r.items[i].restarts)
  {
    hide Q.Run, Q.Ordered, Inv;
    assert HasHistory(config, r.items[i]);
    var start, actions :| Reached(config, r.items[i], start, actions);
    Q.EveryRun(LinkOf(config, r.items[i].record.key), config.pollMillis, start, actions);
  }

  /** Every acknowledged package of the store has had a terminal receipt, every failed one a
      refusal, somewhere in its history. */
  lemma FinalHasCause(config: Config, r: Relay, i: nat)
    requires RelayInv(config, r) && i < |r.items| && Linked(config, r.items[i].record.key)
    ensures exists start, actions ::
              Reached(config, r.items[i], start, actions) && Caused(config, r.items[i], start, actions)
  {
    hide Q.Run, Q.Ordered, Inv;
    assert HasHistory(config, r.items[i]);
    var start, actions :| Reached(config, r.items[i], start, actions);
    Q.FinalHasCause(LinkOf(config, r.items[i].record.key), config.pollMillis, start, actions);
    assert Caused(config, r.items[i], start, actions);
  }

  ghost predicate Caused(config: Config, item: Q.Item, start: Q.Item, actions: seq<Q.Action>)
    requires Linked(config, item.record.key)
  {
    var link := LinkOf(config, item.record.key);
    && (item.record.state == Q.ImporterAcked ==>
          exists i :: 0 <= i < |actions|
                      && Q.TerminalReceipt(Q.Run(link, config.pollMillis, start, actions[..i]), actions[i]))
    && (item.record.state == Q.Failed ==>
          exists i :: 0 <= i < |actions|
                      && Q.Refusal(link, Q.Run(link, config.pollMillis, start, actions[..i]), actions[i]))
  }

  lemma FinalStep(config: Config, r: Relay, i: nat, a: Action)
    requires RelayInv(config, r) && i < |r.items| && Q.Final(r.items[i].record.state) && r.clock <= a.now
    ensures var r' := Apply(config, r, a);
            i < |r'.items| && r'.items[i].record == r.items[i].record
  {
    hide Q.Step, Inv, HasHistory, IndexOf;
    var item := r.items[i];
    if Linked(config, item.record.key) {
      AttemptsBounded(config, r, i);
      var link := LinkOf(config, item.record.key);
      if a.OnPackage? {
        Q.FinalStays(link, config.pollMillis, item, a.step);
      }
      if a.RestartAll? {
        Q.FinalStays(link, config.pollMillis, item, Q.Restart(a.now));
      }
    }
  }

  /** An acknowledged or failed package keeps its record in every continuation. */
  lemma {:induction false} FinalForever(config: Config, clock: nat, before: seq<Action>, after: seq<Action>, i: nat)
    requires Ordered(config, Relay([], map[], clock), before + after)
    requires var r := Exec(config, Relay([], map[], clock), before);
             i < |r.items| && Q.Final(r.items[i].record.state)
    ensures var r := Exec(config, Relay([], map[], clock), before);
            var r' := Exec(config, Relay([], map[], clock), before + after);
            i < |r'.items| && r'.items[i].record == r.items[i].record
    decreases |after|
  {
    hide Apply, RelayInv, Q.Final;
    if after == [] {
      assert before + after == before;
    } else {
      var n := |after| - 1;
      assert (before + after)[..|before + after| - 1] == before + after[..n];
      FinalForever(config, clock, before, after[..n], i);
      EveryRun(config, clock, before + after[..n]);
      FinalStep(config, Exec(config, Relay([], map[], clock), before + after[..n]), i, after[n]);
    }
  }
}
