/** The relay's queue: what happens to one package from acceptance to a final state, over every
    sequence of scheduler ticks, importer responses and restarts. */
module RelayQueue {
  import opened Types
  import opened Blackout

  datatype Link = Link(delaySeconds: nat, initialRetrySeconds: nat, maxRetrySeconds: nat, maxAttempts: nat,
      windows: seq<Window>)

  datatype QueueState =
    | Queued | Scheduled | BlockedByBlackout | InDelivery | Delivered | ImporterAcked | Retrying | Failed

  datatype Key = Key(sourceDomain: DomainId, targetDomain: DomainId, epoch: EpochId, packageHash: Digest)

  datatype Record = Record(
    key: Key, summaryHash: Digest, exportCount: nat, state: QueueState, submittedAt: nat, acceptedAt: nat,
    everBlocked: bool, nextDelivery: Option<nat>, nextPoll: Option<nat>, attempts: nat,
    deliveredAt: Option<nat>, completedAt: Option<nat>)

  // ---------- transitions of one record ----------

  /** The earliest arrival: acceptance plus the one-way delay of the link. */
  function Arrival(link: Link, r: Record): nat {
    SatAdd(r.acceptedAt, SatMul(link.delaySeconds, 1_000, U64_MAX), U64_MAX)
  }

  /** `schedule_record`: times are worked out on the caller's copy and written into the current
      record; none when the time is out of range. */
  function ScheduleOnto(link: Link, before: Record, r: Record): Option<Record> {
    var due := Arrival(link, before);
    match NextDelivery(link.windows, due)
    case None => None
    case Some(at) =>
      Some(r.(state := if at == due then Scheduled else BlockedByBlackout, everBlocked := r.everBlocked || at != due,
              nextDelivery := Some(at)))
  }

  /** Counted as an attempt. */
  function Sent(r: Record): Record { r.(state := InDelivery, attempts := SatAdd(r.attempts, 1, U32_MAX)) }

  /** The first half of `attempt_delivery`: put off, or sent. */
  function BeginOnto(link: Link, before: Record, r: Record, now: nat): Option<Record> {
    var blockedUntil := if before.nextDelivery.None? then Some(0)
        else NextDelivery(link.windows, before.nextDelivery.value);
    if blockedUntil.None? then None
    else if before.nextDelivery.Some? && blockedUntil.value > now then
      Some(r.(state := BlockedByBlackout, everBlocked := true, nextDelivery := blockedUntil))
    else Some(Sent(r))
  }

  /** The scheduler works on a current copy. */
  function Schedule(link: Link, r: Record): Option<Record> { ScheduleOnto(link, r, r) }
  function Begin(link: Link, r: Record, now: nat): Option<Record> { BeginOnto(link, r, r, now) }

  datatype Response = Receipt(terminal: bool) | BadReceipt | ClientError | Transient

  function Power(n: nat): nat { if n == 0 then 1 else 2 * Power(n - 1) }

  /** Doubling from the second failure on, at most sixteen times, never above the link's limit. */
  function RetryDelay(link: Link, attempts: nat): nat {
    var failures := if attempts <= 1 then 0 else attempts - 1;
    Min(SatMul(link.initialRetrySeconds, Power(Min(failures, 16)), U64_MAX), link.maxRetrySeconds)
  }

  function Fail(r: Record, now: nat): Record {
    r.(state := Failed, completedAt := Some(now), nextDelivery := None, nextPoll := None)
  }

  /** `schedule_retry`: `before` is the copy taken before this attempt was counted. */
  function Retry(link: Link, before: Record, r: Record, now: nat): Option<Record> {
    if link.maxAttempts != 0 && before.attempts >= link.maxAttempts then Some(Fail(r, now))
    else
      var due := SatAdd(now, SatMul(RetryDelay(link, before.attempts), 1_000, U64_MAX), U64_MAX);
      match NextDelivery(link.windows, due)
      case None => None
      case Some(at) =>
        Some(r.(state := if at == due then Retrying else BlockedByBlackout, nextDelivery := Some(at), nextPoll := None))
  }

  /** The second half of `attempt_delivery`. */
  function Respond(link: Link, before: Record, r: Record, now: nat, pollMillis: nat,
                   response: Response): Option<Record> {
    var deliveredAt := if r.deliveredAt.None? then Some(now) else r.deliveredAt;
    match response
    case Receipt(true) => Some(r.(state := ImporterAcked, deliveredAt := deliveredAt, completedAt := Some(now),
        nextPoll := None))
    case Receipt(false) =>
      Some(r.(state := Delivered, deliveredAt := deliveredAt, nextPoll := Some(SatAdd(now, pollMillis, U64_MAX)),
          nextDelivery := None))
    case BadReceipt => None
    case ClientError => Some(Fail(r, now))
    case Transient => Retry(link, before, r, now)
  }

  /** `poll_importer_status`. */
  function Poll(r: Record, now: nat, pollMillis: nat, response: Response): Option<Record> {
    match response
    case Receipt(true) => Some(r.(state := ImporterAcked, completedAt := Some(now), nextPoll := None))
    case BadReceipt => None
    case ClientError => Some(r.(state := Failed, completedAt := Some(now), nextPoll := None))
    case _ => Some(r.(nextPoll := Some(SatAdd(now, pollMillis, U64_MAX))))
  }

  /** `normalize_restart_state`, for one record. */
  function Restarted(r: Record, now: nat, pollMillis: nat): Record {
    if r.state == InDelivery then r.(state := Retrying, nextDelivery := Some(now))
    else if r.state == Delivered && r.nextPoll.None? then r.(nextPoll := Some(SatAdd(now, pollMillis, U64_MAX)))
    else r
  }

  predicate Waiting(state: QueueState) { state == Scheduled || state == BlockedByBlackout || state == Retrying }
  predicate Final(state: QueueState) { state == ImporterAcked || state == Failed }
  predicate DueNow(at: Option<nat>, now: nat) { at.Some? && now >= at.value }

  // ---------- the life of one record ----------

  /** A request that has been sent and not yet answered. */
  datatype Flight = Flight(before: Record, startedAt: nat)

  datatype Item = Item(record: Record, flight: Option<Flight>, clock: nat, restarts: nat)

  datatype Action =
    | Tick(looked: nat, now: nat)
    | Answer(now: nat, response: Response)
    | PollTick(looked: nat, now: nat, response: Response)
    | Restart(now: nat)

  function Or(r: Option<Record>, default: Record): Record { if r.Some? then r.value else default }

  function BeginItem(link: Link, item: Item, now: nat): Item {
    var r := Or(Begin(link, item.record, now), item.record);
    item.(record := r, flight := if r.state == InDelivery then Some(Flight(item.record, now)) else None, clock := now)
  }

  /** One step; an error leaves the record as it is. */
  function Step(link: Link, pollMillis: nat, item: Item, a: Action): Item {
    match a
    case Tick(looked, now) =>
      if item.record.state == Queued then item.(record := Or(Schedule(link, item.record), item.record), clock := now)
      else if Waiting(item.record.state) && DueNow(item.record.nextDelivery, looked) then BeginItem(link, item, now)
      else item.(clock := now)
    case Answer(now, response) =>
      if item.flight.None? then item.(clock := now)
      else
        var f := item.flight.value;
        item.(record := Or(Respond(link, f.before, item.record, f.startedAt, pollMillis, response), item.record),
            flight := None, clock := now)
    case PollTick(looked, now, response) =>
      if item.record.state == Delivered && DueNow(item.record.nextPoll, looked) then
        item.(record := Or(Poll(item.record, now, pollMillis, response), item.record), clock := now)
      else item.(clock := now)
    case Restart(now) =>
      item.(record := Restarted(item.record, now, pollMillis), flight := None, clock := now,
            restarts := item.restarts + if item.record.state == InDelivery then 1 else 0)
  }

  function Run(link: Link, pollMillis: nat, item: Item, actions: seq<Action>): Item {
    if actions == [] then item
    else Step(link, pollMillis, Run(link, pollMillis, item, actions[..|actions| - 1]), actions[|actions| - 1])
  }

  /** The clock does not go backwards. */
  ghost predicate Ordered(link: Link, pollMillis: nat, item: Item, actions: seq<Action>) {
    actions == [] ||
      var n := |actions| - 1;
      Ordered(link, pollMillis, item, actions[..n]) && Run(link, pollMillis, item, actions[..n]).clock <= actions[n].now
  }

  predicate Accepted(item: Item) {
    && item.record.state == Queued && item.record.attempts == 0 && item.flight.None? && item.restarts == 0
    && item.record.nextDelivery.None? && item.record.nextPoll.None?
  }

  // ---------- what every step keeps ----------

  ghost predicate TimesOk(link: Link, item: Item) {
    && (Waiting(item.record.state) ==>
          item.record.nextDelivery.Some? && Arrival(link, item.record) <= item.record.nextDelivery.value)
    && (item.record.state == Delivered ==> item.record.nextPoll.Some?)
    && (item.record.state == InDelivery ==> Arrival(link, item.record) <= item.clock)
  }

  ghost predicate FlightOk(link: Link, item: Item) {
    item.flight.Some? ==>
      var f := item.flight.value;
      && item.record.state == InDelivery
      && item.record == f.before.(state := InDelivery, attempts := SatAdd(f.before.attempts, 1, U32_MAX))
      && Arrival(link, item.record) <= f.startedAt <= item.clock
      && (link.maxAttempts != 0 ==> f.before.attempts <= link.maxAttempts + item.restarts)
  }

  ghost predicate AttemptsOk(link: Link, item: Item) {
    && (item.record.state == Queued ==> item.record.attempts == 0)
    && (link.maxAttempts != 0 ==>
          && item.record.attempts <= link.maxAttempts + item.restarts + 1
          && (Waiting(item.record.state) ==> item.record.attempts <= link.maxAttempts + item.restarts))
  }

  ghost predicate ItemInv(link: Link, item: Item) {
    TimesOk(link, item) && FlightOk(link, item) && AttemptsOk(link, item)
  }

  lemma ScheduleStep(link: Link, item: Item, now: nat)
    requires ItemInv(link, item) && item.record.state == Queued && item.clock <= now
    ensures ItemInv(link, item.(record := Or(Schedule(link, item.record), item.record), clock := now))
  {
    hide NextFree, NextDelivery;
    NextDeliveryLater(link.windows, Arrival(link, item.record));
  }

  lemma NextDeliveryLater(windows: seq<Window>, ms: nat)
    ensures NextDelivery(windows, ms).Some? ==> ms <= LAST_MILLISECOND && ms <= NextDelivery(windows, ms).value
  {
  }

  lemma BeginStep(link: Link, item: Item, now: nat)
    requires ItemInv(link, item) && Waiting(item.record.state) && item.clock <= now
    ensures ItemInv(link, BeginItem(link, item, now))
    ensures BeginItem(link, item, now).record.state == InDelivery ==> Arrival(link, item.record) <= now
  {
    hide NextFree, NextDelivery;
    NextDeliveryLater(link.windows, item.record.nextDelivery.value);
  }

  lemma RetryTimes(link: Link, before: Record, r: Record, now: nat)
    requires Arrival(link, r) <= now
    ensures var r' := Retry(link, before, r, now);
            r'.Some? && Waiting(r'.value.state) ==>
                r'.value.nextDelivery.Some? && Arrival(link, r) <= r'.value.nextDelivery.value
  {
    hide NextFree, NextDelivery, RetryDelay, Arrival;
    var due := SatAdd(now, SatMul(RetryDelay(link, before.attempts), 1_000, U64_MAX), U64_MAX);
    NextDeliveryLater(link.windows, due);
    assert due <= LAST_MILLISECOND ==> now <= due;
  }

  lemma AnswerStep(link: Link, pollMillis: nat, item: Item, now: nat, response: Response)
    requires ItemInv(link, item) && item.flight.Some? && item.clock <= now
    ensures ItemInv(link, Step(link, pollMillis, item, Answer(now, response)))
  {
    hide NextFree, NextDelivery, RetryDelay;
    var f := item.flight.value;
    RetryTimes(link, f.before, item.record, f.startedAt);
  }

  lemma PollStep(link: Link, pollMillis: nat, item: Item, looked: nat, now: nat, response: Response)
    requires ItemInv(link, item) && item.clock <= now
    ensures ItemInv(link, Step(link, pollMillis, item, PollTick(looked, now, response)))
  {
  }

  lemma RestartStep(link: Link, pollMillis: nat, item: Item, now: nat)
    requires ItemInv(link, item) && item.clock <= now
    ensures ItemInv(link, Step(link, pollMillis, item, Restart(now)))
  {
  }

  lemma StepKeeps(link: Link, pollMillis: nat, item: Item, a: Action)
    requires ItemInv(link, item) && item.clock <= a.now
    ensures ItemInv(link, Step(link, pollMillis, item, a))
  {
    hide NextDelivery, Schedule, BeginItem, Respond, Poll;
    match a
    case Tick(looked, now) =>
      if item.record.state == Queued {
        ScheduleStep(link, item, now);
      } else if Waiting(item.record.state) {
        BeginStep(link, item, now);
      }
    case Answer(now, response) =>
      if item.flight.Some? {
        AnswerStep(link, pollMillis, item, now, response);
      }
    case PollTick(looked, now, response) => PollStep(link, pollMillis, item, looked, now, response);
    case Restart(now) => RestartStep(link, pollMillis, item, now);
  }

  lemma {:induction false} EveryRun(link: Link, pollMillis: nat, item: Item, actions: seq<Action>)
    requires Accepted(item) && Ordered(link, pollMillis, item, actions)
    ensures ItemInv(link, Run(link, pollMillis, item, actions))
    decreases |actions|
  {
    hide Step;
    if actions != [] {
      var n := |actions| - 1;
      EveryRun(link, pollMillis, item, actions[..n]);
      StepKeeps(link, pollMillis, Run(link, pollMillis, item, actions[..n]), actions[n]);
    }
  }

  // ---------- consequences ----------

  lemma StepIdentity(link: Link, pollMillis: nat, item: Item, a: Action)
    ensures var r, r' := item.record, Step(link, pollMillis, item, a).record;
            r'.key == r.key && r'.acceptedAt == r.acceptedAt && r'.submittedAt == r.submittedAt
  {
    hide NextDelivery, RetryDelay;
  }

  lemma {:induction false} RunIdentity(link: Link, pollMillis: nat, item: Item, actions: seq<Action>)
    ensures var r, r' := item.record, Run(link, pollMillis, item, actions).record;
            r'.key == r.key && r'.acceptedAt == r.acceptedAt && r'.submittedAt == r.submittedAt
    decreases |actions|
  {
    hide Step;
    if actions != [] {
      var n := |actions| - 1;
      RunIdentity(link, pollMillis, item, actions[..n]);
      StepIdentity(link, pollMillis, Run(link, pollMillis, item, actions[..n]), actions[n]);
    }
  }

  /** No package is sent before its acceptance plus the delay of the link. */
  lemma NeverEarly(link: Link, pollMillis: nat, item: Item, actions: seq<Action>, looked: nat, now: nat)
    requires Accepted(item) && Ordered(link, pollMillis, item, actions)
    requires Run(link, pollMillis, item, actions).clock <= now
    requires Run(link, pollMillis, item, actions).record.state != InDelivery
    requires Step(link, pollMillis, Run(link, pollMillis, item, actions), Tick(looked, now)).record.state == InDelivery
    ensures Arrival(link, item.record) <= now
  {
    hide Run, Ordered, ItemInv, NextDelivery;
    EveryRun(link, pollMillis, item, actions);
    RunIdentity(link, pollMillis, item, actions);
    var current := Run(link, pollMillis, item, actions);
    if Waiting(current.record.state) {
      BeginStep(link, current, now);
    }
  }

  lemma FinalStays(link: Link, pollMillis: nat, item: Item, a: Action)
    requires FlightOk(link, item) && Final(item.record.state)
    ensures Step(link, pollMillis, item, a).record == item.record && Step(link, pollMillis, item, a).flight.None?
  {
  }

  /** Acknowledged and failed packages stay so. */
  lemma {:induction false} FinalForever(link: Link, pollMillis: nat, item: Item, actions: seq<Action>)
    requires FlightOk(link, item) && Final(item.record.state)
    ensures Run(link, pollMillis, item, actions).record == item.record
    ensures FlightOk(link, Run(link, pollMillis, item, actions))
    decreases |actions|
  {
    hide Step;
    if actions != [] {
      var n := |actions| - 1;
      FinalForever(link, pollMillis, item, actions[..n]);
      FinalStays(link, pollMillis, Run(link, pollMillis, item, actions[..n]), actions[n]);
    }
  }

  /** At most one attempt more than configured, plus one for each restart that interrupted one. */
  lemma AttemptsBounded(link: Link, pollMillis: nat, item: Item, actions: seq<Action>)
    requires Accepted(item) && Ordered(link, pollMillis, item, actions) && link.maxAttempts != 0
    ensures var current := Run(link, pollMillis, item, actions);
            current.record.attempts <= link.maxAttempts + 1 + current.restarts
  {
    hide Run, Ordered;
    EveryRun(link, pollMillis, item, actions);
  }

  /** The limit is checked against the count before the attempt: a transient answer is final
      exactly when the copy taken before the attempt had already reached the limit. */
  lemma ExhaustedExactly(link: Link, pollMillis: nat, item: Item, now: nat)
    requires FlightOk(link, item) && item.flight.Some?
    ensures Step(link, pollMillis, item, Answer(now, Transient)).record.state == Failed <==>
              link.maxAttempts != 0 && item.flight.value.before.attempts >= link.maxAttempts
  {
    hide NextDelivery, RetryDelay, Arrival;
  }

  /** In terms of the attempts made, for every item: one more than configured; without restarts
      in between, at exactly that number. */
  lemma ExhaustedAfter(link: Link, pollMillis: nat, item: Item, now: nat)
    requires ItemInv(link, item) && item.flight.Some? && 0 < link.maxAttempts < U32_MAX
    ensures Step(link, pollMillis, item, Answer(now, Transient)).record.state == Failed <==>
              item.record.attempts >= link.maxAttempts + 1
    ensures item.restarts == 0 ==> item.record.attempts <= link.maxAttempts + 1
  {
    ExhaustedExactly(link, pollMillis, item, now);
  }

  lemma NoWindows(ms: nat)
    requires ms <= LAST_MILLISECOND
    ensures NextDelivery([], ms) == Some(ms)
  {
    FirstFreeUnique([], Nanos(ms), Nanos(ms), NextFree([], Nanos(ms)));
  }

  /** Two attempts under a limit of one. */
  lemma OneMoreThanConfigured(item: Item)
    requires Accepted(item) && item.record.acceptedAt == 0 && item.clock == 0
    ensures var link := Link(0, 1, 1, 1, []);
            var i1 := Step(link, 1, item, Tick(0, 0));
            var i2 := Step(link, 1, i1, Tick(0, 0));
            var i3 := Step(link, 1, i2, Answer(0, Transient));
            var i4 := Step(link, 1, i3, Tick(1_000, 1_000));
            i4.record.attempts == 2 && i4.record.state == InDelivery && i4.restarts == 0
  {
    hide NextDelivery;
    NoWindows(0);
    NoWindows(1_000);
    var link := Link(0, 1, 1, 1, []);
    assert Arrival(link, item.record) == 0;
    var i1 := Step(link, 1, item, Tick(0, 0));
    assert i1.record.state == Scheduled && i1.record.nextDelivery == Some(0) && i1.record.attempts == 0;
    var i2 := Step(link, 1, i1, Tick(0, 0));
    assert i2.record.state == InDelivery && i2.flight == Some(Flight(i1.record, 0)) && i2.record.attempts == 1;
    assert Power(0) == 1 && RetryDelay(link, 0) == 1;
    var i3 := Step(link, 1, i2, Answer(0, Transient));
    assert i3.record.state == Retrying && i3.record.nextDelivery == Some(1_000) && i3.record.attempts == 1;
  }

  /** When a tick sends a package, the moment lies in a blackout exactly when the first free
      instant is still ahead within the millisecond, or a window opened after that instant. */
  lemma SentInBlackout(link: Link, r: Record, now: nat)
    requires r.nextDelivery.Some? && Begin(link, r, now).Some? && Begin(link, r, now).value.state == InDelivery
    requires r.state != InDelivery
    ensures var first := NextFree(link.windows, Nanos(r.nextDelivery.value));
            !Free(link.windows, Nanos(now)) <==>
              || Nanos(now) < first
              || exists i :: 0 <= i < |link.windows|
                   && first < link.windows[i].start && Covers(link.windows[i], Nanos(now))
  {
    var first := NextFree(link.windows, Nanos(r.nextDelivery.value));
    assert FirstFree(link.windows, Nanos(r.nextDelivery.value), first);
    assert Millis(first) <= now && Nanos(r.nextDelivery.value) <= Nanos(now);
    if !Free(link.windows, Nanos(now)) && first <= Nanos(now) {
      var i :| 0 <= i < |link.windows| && Covers(link.windows[i], Nanos(now));
      assert !Covers(link.windows[i], first);
    }
  }

  /** With windows that end on whole milliseconds, a package sent on its planned millisecond is
      sent outside every window, and one sent later is unless a window opened in between. */
  lemma SentOutsideBlackout(link: Link, r: Record, now: nat)
    requires r.nextDelivery.Some? && Begin(link, r, now).Some? && Begin(link, r, now).value.state == InDelivery
    requires r.state != InDelivery
    requires WholeEnds(link.windows)
    ensures var planned := NextDelivery(link.windows, r.nextDelivery.value).value;
            && planned <= now
            && (now == planned ==> Free(link.windows, Nanos(now)))
            && ((forall i :: 0 <= i < |link.windows| ==> !(Nanos(planned) < link.windows[i].start <= Nanos(now))) ==>
                  Free(link.windows, Nanos(now)))
  {
    WholeEndsSuffice(link.windows, r.nextDelivery.value);
    var planned := NextDelivery(link.windows, r.nextDelivery.value).value;
    forall i | 0 <= i < |link.windows| && Covers(link.windows[i], Nanos(now))
      ensures Nanos(planned) < link.windows[i].start <= Nanos(now)
    {
      assert !Covers(link.windows[i], Nanos(planned));
    }
  }

  /** A late tick sends a package in the middle of a window. */
  lemma LateTickIgnoresWindow(r: Record)
    requires r.state == Scheduled && r.nextDelivery == Some(0)
    ensures var link := Link(0, 1, 1, 1, [Window(1_000_000_000, 2_000_000_000)]);
            Begin(link, r, 1_500).Some? && Begin(link, r, 1_500).value.state == InDelivery
                && !Free(link.windows, Nanos(1_500))
  {
    var windows := [Window(1_000_000_000, 2_000_000_000)];
    assert Free(windows, 0);
    FirstFreeUnique(windows, 0, 0, NextFree(windows, 0));
    assert NextDelivery(windows, 0) == Some(0);
    assert Covers(windows[0], Nanos(1_500));
  }

  // ---------- backoff ----------

  lemma {:induction false} PowerGrows(a: nat, b: nat)
    requires a <= b
    ensures 1 <= Power(a) <= Power(b)
    decreases b
  {
    if b > 0 {
      if a < b {
        PowerGrows(a, b - 1);
      } else {
        PowerGrows(b - 1, b - 1);
      }
    }
  }

  /** Retry delays never shrink and never exceed the link's limit. */
  lemma BackoffGrows(link: Link, a: nat, b: nat)
    requires a <= b
    ensures RetryDelay(link, a) <= RetryDelay(link, b) <= link.maxRetrySeconds
  {
    var x, y := Power(Min(if a <= 1 then 0 else a - 1, 16)), Power(Min(if b <= 1 then 0 else b - 1, 16));
    PowerGrows(Min(if a <= 1 then 0 else a - 1, 16), Min(if b <= 1 then 0 else b - 1, 16));
    Product(link.initialRetrySeconds, x, y);
  }

  lemma Product(n: nat, x: nat, y: nat)
    requires x <= y
    ensures n * x <= n * y
  {
  }

  /** The law of the delays: the initial delay first, doubled from one attempt to the next sixteen
      times, capped throughout. */
  lemma BackoffDoubles(link: Link, n: nat)
    requires n > 0 && link.initialRetrySeconds <= U64_MAX && link.maxRetrySeconds <= U64_MAX
    ensures RetryDelay(link, 0) == RetryDelay(link, 1) == Min(link.initialRetrySeconds, link.maxRetrySeconds)
    ensures RetryDelay(link, n + 1) ==
              if n <= 16 then Min(2 * RetryDelay(link, n), link.maxRetrySeconds) else RetryDelay(link, n)
  {
    assert Power(0) == 1;
    if n <= 16 {
      assert Power(n) == 2 * Power(n - 1);
      Doubled(link.initialRetrySeconds, Power(n - 1), U64_MAX, link.maxRetrySeconds);
    }
  }

  lemma Doubled(initial: nat, power: nat, limit: nat, cap: nat)
    requires cap <= limit
    ensures Min(Min(initial * (2 * power), limit), cap) == Min(2 * Min(Min(initial * power, limit), cap), cap)
  {
    assert initial * (2 * power) == 2 * (initial * power);
  }

  // ---------- what the importer's answers do ----------

  /** This step brings the answer to a request in flight. */
  predicate Answered(item: Item, a: Action, response: Response) {
    a.Answer? && item.flight.Some? && a.response == response
  }

  /** This step brings the answer to a due status request. */
  predicate Polled(item: Item, a: Action, response: Response) {
    a.PollTick? && item.record.state == Delivered && DueNow(item.record.nextPoll, a.looked) && a.response == response
  }

  /** The copy taken before the attempt had used up a non-zero limit. */
  predicate Exhausted(link: Link, item: Item) {
    item.flight.Some? && link.maxAttempts != 0 && item.flight.value.before.attempts >= link.maxAttempts
  }

  predicate TerminalReceipt(item: Item, a: Action) {
    Answered(item, a, Receipt(true)) || Polled(item, a, Receipt(true))
  }

  predicate Refusal(link: Link, item: Item, a: Action) {
    || Answered(item, a, ClientError) || Polled(item, a, ClientError)
    || (Answered(item, a, Transient) && Exhausted(link, item))
  }

  /** A record becomes acknowledged exactly on a terminal receipt, failed exactly on a refusal, and
      is delivered exactly from a non-terminal receipt until one of the two. */
  lemma Answers(link: Link, pollMillis: nat, item: Item, a: Action)
    requires FlightOk(link, item)
    ensures var state, state' := item.record.state, Step(link, pollMillis, item, a).record.state;
            && (state' == ImporterAcked <==> state == ImporterAcked || TerminalReceipt(item, a))
            && (state' == Failed <==> state == Failed || Refusal(link, item, a))
            && (state' == Delivered <==>
                  || Answered(item, a, Receipt(false))
                  || (state == Delivered && !Polled(item, a, Receipt(true)) && !Polled(item, a, ClientError)))
  {
    hide NextDelivery, RetryDelay, Arrival;
  }

  /** The times that go with it: a delivered record is polled again after the interval, a finished
      one is neither sent nor polled. */
  lemma AnswerTimes(link: Link, pollMillis: nat, item: Item, a: Action)
    requires FlightOk(link, item)
    ensures var r, r' := item.record, Step(link, pollMillis, item, a).record;
            && (Answered(item, a, Receipt(false)) ==>
                  var start := item.flight.value.startedAt;
                  && r'.nextPoll == Some(Min(start + pollMillis, U64_MAX)) && r'.nextDelivery.None?
                  && r'.deliveredAt == if r.deliveredAt.Some? then r.deliveredAt else Some(start))
            && (Polled(item, a, Receipt(false)) || Polled(item, a, Transient) ==>
                  r'.nextPoll == Some(Min(a.now + pollMillis, U64_MAX)))
            && (TerminalReceipt(item, a) || Refusal(link, item, a) ==>
                  && r'.nextPoll.None?
                  && r'.completedAt == Some(if a.Answer? then item.flight.value.startedAt else a.now))
            && (Answered(item, a, ClientError) || (Answered(item, a, Transient) && Exhausted(link, item)) ==>
                  r'.nextDelivery.None?)
            && (Answered(item, a, Receipt(true)) ==> r'.deliveredAt.Some?)
  {
    hide NextDelivery, RetryDelay, Arrival;
  }

  /** A transient failure below the limit plans the next attempt after the backoff, past every
      blackout; the record says whether a blackout moved it. */
  lemma RetryPlanned(link: Link, pollMillis: nat, item: Item, a: Action)
    requires FlightOk(link, item) && Answered(item, a, Transient) && !Exhausted(link, item)
    ensures var f := item.flight.value;
            var due := Min(f.startedAt + Min(1_000 * RetryDelay(link, f.before.attempts), U64_MAX), U64_MAX);
            var r' := Step(link, pollMillis, item, a).record;
            match NextDelivery(link.windows, due)
            case None => r' == item.record
            case Some(at) =>
              r'.nextDelivery == Some(at) && r'.state == if at == due then Retrying else BlockedByBlackout
  {
    hide NextDelivery, RetryDelay, Arrival;
  }

  /** The same at acceptance: the first attempt is planned for the arrival, past every blackout. */
  lemma FirstPlanned(link: Link, pollMillis: nat, item: Item, looked: nat, now: nat)
    requires item.record.state == Queued
    ensures var due := Min(item.record.acceptedAt + Min(1_000 * link.delaySeconds, U64_MAX), U64_MAX);
            var r' := Step(link, pollMillis, item, Tick(looked, now)).record;
            match NextDelivery(link.windows, due)
            case None => r' == item.record
            case Some(at) =>
              && r'.nextDelivery == Some(at) && r'.state == (if at == due then Scheduled else BlockedByBlackout)
              && r'.everBlocked == (item.record.everBlocked || at != due)
  {
    hide NextDelivery;
  }

  /** Only a waiting record that is due and no longer blocked is sent, and each send counts. */
  lemma SentExactly(link: Link, pollMillis: nat, item: Item, a: Action)
    requires TimesOk(link, item) && FlightOk(link, item)
    ensures var item' := Step(link, pollMillis, item, a);
            var due := item.record.nextDelivery;
            item'.flight.Some? && item'.flight != item.flight ==>
              && a.Tick? && Waiting(item.record.state) && due.Some? && due.value <= a.looked
              && NextDelivery(link.windows, due.value).Some? && NextDelivery(link.windows, due.value).value <= a.now
              && item'.record.state == InDelivery && item'.record.attempts == Min(item.record.attempts + 1, U32_MAX)
  {
    hide NextFree;
  }

  /** In every run an acknowledged record has had a terminal receipt, and a failed one a refusal. */
  lemma {:induction false} FinalHasCause(link: Link, pollMillis: nat, item: Item, actions: seq<Action>)
    requires Accepted(item) && Ordered(link, pollMillis, item, actions)
    ensures var state := Run(link, pollMillis, item, actions).record.state;
            && (state == ImporterAcked ==>
                  exists i ::
                    0 <= i < |actions| && TerminalReceipt(Run(link, pollMillis, item, actions[..i]), actions[i]))
            && (state == Failed ==>
                  exists i ::
                    0 <= i < |actions| && Refusal(link, Run(link, pollMillis, item, actions[..i]), actions[i]))
    decreases |actions|
  {
    hide Step, TerminalReceipt, Refusal, Answered, Polled;
    if actions != [] {
      var n := |actions| - 1;
      var before := Run(link, pollMillis, item, actions[..n]);
      FinalHasCause(link, pollMillis, item, actions[..n]);
      EveryRun(link, pollMillis, item, actions[..n]);
      Answers(link, pollMillis, before, actions[n]);
      assert forall i :: 0 <= i < n ==> actions[..n][..i] == actions[..i] && actions[..n][i] == actions[i];
    }
  }
}
