/** The relay's store: one record and one payload per package identity, updated record by record. */
module RelayStore {
  import opened Types
  import opened Blackout
  import opened Packages
  import opened RelayQueue

  datatype State = State(packages: seq<Record>, payloads: map<Key, Envelope>)

  function KeyOf(e: Envelope): Key { Key(e.sourceDomain, e.targetDomain, e.epoch, e.packageHash) }

  /** The first record with this identity, or the number of records. */
  function IndexOf(packages: seq<Record>, key: Key): (i: nat)
    ensures i <= |packages| && (i < |packages| ==> packages[i].key == key)
    ensures forall k :: 0 <= k < i ==> packages[k].key != key
  {
    if packages == [] then 0
    else
      var n := |packages| - 1;
      var before := IndexOf(packages[..n], key);
      if before < n then before
      else if packages[n].key == key then n
      else |packages|
  }

  function NewRecord(e: Envelope, now: nat): Record {
    Record(KeyOf(e), e.summaryHash, e.exportCount, Queued, e.submittedAt, now, false, None, None, 0, None, None)
  }

  /** `accept_envelope`: new, known with the same bytes, or in conflict. */
  function Accept(s: State, e: Envelope, now: nat): Option<(State, Record, bool)> {
    var i := IndexOf(s.packages, KeyOf(e));
    if i < |s.packages| then
      if KeyOf(e) in s.payloads && s.payloads[KeyOf(e)] == e then Some((s, s.packages[i], true)) else None
    else
      var r := NewRecord(e, now);
      Some((State(s.packages + [r], s.payloads[KeyOf(e) := e]), r, false))
  }

  ghost predicate Inv(s: State) {
    && (forall i, j :: 0 <= i < j < |s.packages| ==> s.packages[i].key != s.packages[j].key)
    && (forall i :: 0 <= i < |s.packages| ==>
          s.packages[i].key in s.payloads && KeyOf(s.payloads[s.packages[i].key]) == s.packages[i].key)
  }

  /** Replacing a record by a later version of itself. */
  function Put(s: State, i: nat, r: Record): State
    requires i < |s.packages|
  {
    s.(packages := s.packages[i := r])
  }

  lemma AcceptKeeps(s: State, e: Envelope, now: nat)
    requires Inv(s) && Accept(s, e, now).Some?
    ensures Inv(Accept(s, e, now).value.0)
  {
    var s' := Accept(s, e, now).value.0;
    forall i | 0 <= i < |s'.packages|
      ensures s'.packages[i].key in s'.payloads && KeyOf(s'.payloads[s'.packages[i].key]) == s'.packages[i].key
    {
      if i < |s.packages| {
        assert s'.packages[i] == s.packages[i];
      }
    }
  }

  lemma PutKeeps(s: State, i: nat, r: Record)
    requires Inv(s) && i < |s.packages| && r.key == s.packages[i].key
    ensures Inv(Put(s, i, r))
  {
  }

  /** An accepted envelope stays accepted, whatever became of its record meanwhile. */
  lemma AcceptIsIdempotent(s: State, e: Envelope, now: nat, later: State, now': nat)
    requires Inv(s) && Accept(s, e, now).Some? && |later.packages| >= |Accept(s, e, now).value.0.packages|
    requires var s' := Accept(s, e, now).value.0;
             && (forall i :: 0 <= i < |s'.packages| ==> later.packages[i].key == s'.packages[i].key)
             && (forall k :: k in s'.payloads ==> k in later.payloads && later.payloads[k] == s'.payloads[k])
    ensures Accept(later, e, now').Some? && Accept(later, e, now').value.0 == later && Accept(later, e, now').value.2
  {
    var s' := Accept(s, e, now).value.0;
    var i :| 0 <= i < |s'.packages| && s'.packages[i].key == KeyOf(e) by {
      var k := IndexOf(s.packages, KeyOf(e));
      assert s'.packages[k].key == KeyOf(e);
    }
    assert later.packages[i].key == KeyOf(e);
  }

  lemma AcceptedIsStored(s: State, e: Envelope, now: nat)
    requires Accept(s, e, now).Some?
    ensures var s' := Accept(s, e, now).value.0;
            IndexOf(s'.packages, KeyOf(e)) < |s'.packages| && KeyOf(e) in s'.payloads && s'.payloads[KeyOf(e)] == e
  {
    var s' := Accept(s, e, now).value.0;
    var k := IndexOf(s.packages, KeyOf(e));
    assert s'.packages[k].key == KeyOf(e);
  }

  /** The submission time is part of the compared bytes: the same package submitted again is
      accepted exactly when it carries the time of the first submission. */
  lemma ResubmissionNeedsSameTime(s: State, e: Envelope, now: nat, again: nat, now': nat)
    requires Accept(s, e, now).Some?
    ensures Accept(Accept(s, e, now).value.0, e.(submittedAt := again), now').Some? <==> again == e.submittedAt
  {
    hide IndexOf, NewRecord;
    AcceptedIsStored(s, e, now);
    ResubmittedTo(Accept(s, e, now).value.0, e, again, now');
  }

  lemma ResubmittedTo(s: State, e: Envelope, again: nat, now: nat)
    requires IndexOf(s.packages, KeyOf(e)) < |s.packages| && KeyOf(e) in s.payloads && s.payloads[KeyOf(e)] == e
    ensures Accept(s, e.(submittedAt := again), now).Some? <==> again == e.submittedAt
  {
    hide IndexOf, NewRecord;
    assert KeyOf(e.(submittedAt := again)) == KeyOf(e);
  }

  class Store {
    var packages: seq<Record>
    var payloads: map<Key, Envelope>

    function Contents(): State
      reads this
    {
      State(packages, payloads)
    }

    constructor ()
      ensures Contents() == State([], map[]) && Inv(Contents())
    {
      packages, payloads := [], map[];
    }

    /** `record`: linear search. */
    method Find(key: Key) returns (i: nat)
      ensures i == IndexOf(packages, key)
    {
      i := 0;
      while i < |packages|
        invariant 0 <= i <= |packages| && forall k :: 0 <= k < i ==> packages[k].key != key
      {
        if packages[i].key == key {
          return;
        }
        i := i + 1;
      }
    }

    method AcceptEnvelope(e: Envelope, now: nat) returns (r: Option<(Record, bool)>)
      requires Inv(Contents())
      modifies this
      ensures Inv(Contents())
      ensures var spec := Accept(old(Contents()), e, now);
              if spec.None? then r.None? && Contents() == old(Contents())
              else r == Some((spec.value.1, spec.value.2)) && Contents() == spec.value.0
    {
      var i := Find(KeyOf(e));
      if i < |packages| {
        if payloads[packages[i].key] != e {
          return None;
        }
        return Some((packages[i], true));
      }
      AcceptKeeps(Contents(), e, now);
      payloads := payloads[KeyOf(e) := e];
      r := Some((NewRecord(e, now), false));
      packages := packages + [NewRecord(e, now)];
    }

    /** `update_record`: the current version is changed, not the caller's copy. */
    method UpdateRecord(key: Key, mutator: Record -> Record)
      requires Inv(Contents()) && forall r :: mutator(r).key == r.key
      modifies this
      ensures Inv(Contents())
      ensures var i := IndexOf(old(packages), key);
              Contents() == if i < |old(packages)| then Put(old(Contents()), i, mutator(old(packages)[i]))
                  else old(Contents())
    {
      var i := Find(key);
      if i < |packages| {
        PutKeeps(Contents(), i, mutator(packages[i]));
        packages := packages[i := mutator(packages[i])];
      }
    }

    /** What the update of one record leaves behind. */
    twostate predicate OnlyChanged(key: Key, changed: Record -> Option<Record>)
      reads this
    {
      var i := IndexOf(old(packages), key);
      && payloads == old(payloads)
      && packages == if i < |old(packages)| then old(packages)[i := Or(changed(old(packages)[i]), old(packages)[i])]
           else old(packages)
    }

    method ScheduleRecord(link: Link, record: Record) returns (ok: bool)
      requires Inv(Contents())
      modifies this
      ensures Inv(Contents()) && OnlyChanged(record.key, r => ScheduleOnto(link, record, r))
      ensures ok <==> ScheduleOnto(link, record, record).Some?
    {
      var due := Arrival(link, record);
      var scheduledAt := NextDeliveryAfter(link.windows, due);
      if scheduledAt.None? {
        return false;
      }
      var blocked := scheduledAt.value != due;
      var state := if blocked then BlockedByBlackout else Scheduled;
      UpdateRecord(record.key, (r: Record) =>
          r.(state := state, everBlocked := r.everBlocked || blocked, nextDelivery := scheduledAt));
      ok := true;
    }

    /** Counted as an attempt before the request goes out. */
    method BeginAttempt(link: Link, record: Record, now: nat) returns (sent: bool)
      requires Inv(Contents())
      modifies this
      ensures Inv(Contents()) && OnlyChanged(record.key, r => BeginOnto(link, record, r, now))
      ensures sent <==> Begin(link, record, now) == Some(Sent(record))
    {
      if record.nextDelivery.Some? {
        var blockedUntil := NextDeliveryAfter(link.windows, record.nextDelivery.value);
        if blockedUntil.None? {
          return false;
        }
        if blockedUntil.value > now {
          UpdateRecord(record.key, (r: Record) =>
              r.(state := BlockedByBlackout, everBlocked := true, nextDelivery := blockedUntil));
          return false;
        }
      }
      UpdateRecord(record.key, (r: Record) => r.(state := InDelivery, attempts := SatAdd(r.attempts, 1, U32_MAX)));
      sent := true;
    }

    /** `schedule_retry`: limit and backoff go by the copy taken before the attempt. */
    method ScheduleRetry(link: Link, before: Record, now: nat) returns (ok: bool)
      requires Inv(Contents())
      modifies this
      ensures Inv(Contents()) && OnlyChanged(before.key, r => Retry(link, before, r, now))
      ensures ok <==> Retry(link, before, before, now).Some?
    {
      if link.maxAttempts != 0 && before.attempts >= link.maxAttempts {
        UpdateRecord(before.key, (r: Record) =>
          r.(state := Failed, completedAt := Some(now), nextDelivery := None, nextPoll := None));
        return true;
      }
      var failures := (if before.attempts >= 1 then before.attempts else 1) - 1;
      var multiplier := Power(Min(failures, 16));
      var delaySeconds := Min(SatMul(link.initialRetrySeconds, multiplier, U64_MAX), link.maxRetrySeconds);
      var due := SatAdd(now, SatMul(delaySeconds, 1_000, U64_MAX), U64_MAX);
      var nextDelivery := NextDeliveryAfter(link.windows, due);
      if nextDelivery.None? {
        return false;
      }
      var state := if nextDelivery.value == due then Retrying else BlockedByBlackout;
      UpdateRecord(before.key, (r: Record) => r.(state := state, nextDelivery := nextDelivery, nextPoll := None));
      ok := true;
    }

    /** The answer to a request: accepted for good, accepted for now, refused, or to be retried. */
    method FinishAttempt(link: Link, before: Record, now: nat, pollMillis: nat, response: Response) returns (ok: bool)
      requires Inv(Contents())
      modifies this
      ensures Inv(Contents()) && OnlyChanged(before.key, r => Respond(link, before, r, now, pollMillis, response))
      ensures ok <==> Respond(link, before, before, now, pollMillis, response).Some?
    {
      match response {
        case BadReceipt =>
          return false;
        case ClientError =>
          UpdateRecord(before.key, (r: Record) =>
            r.(state := Failed, completedAt := Some(now), nextDelivery := None, nextPoll := None));
          return true;
        case Transient =>
          ok := ScheduleRetry(link, before, now);
        case Receipt(terminal) =>
          if terminal {
            UpdateRecord(before.key, (r: Record) =>
              r.(state := ImporterAcked, deliveredAt := if r.deliveredAt.Some? then r.deliveredAt else Some(now),
                 completedAt := Some(now), nextPoll := None));
            return true;
          }
          var pollAt := SatAdd(now, pollMillis, U64_MAX);
          UpdateRecord(before.key, (r: Record) =>
            r.(state := Delivered, deliveredAt := if r.deliveredAt.Some? then r.deliveredAt else Some(now),
               nextPoll := Some(pollAt), nextDelivery := None));
          return true;
      }
    }

    /** The answer to a status request: done, refused, or asked again later. */
    method PollImporterStatus(record: Record, now: nat, pollMillis: nat, response: Response) returns (ok: bool)
      requires Inv(Contents())
      modifies this
      ensures Inv(Contents()) && OnlyChanged(record.key, r => Poll(r, now, pollMillis, response))
      ensures ok <==> Poll(record, now, pollMillis, response).Some?
    {
      var pollAt := SatAdd(now, pollMillis, U64_MAX);
      match response {
        case BadReceipt =>
          return false;
        case ClientError =>
          UpdateRecord(record.key, (r: Record) => r.(state := Failed, completedAt := Some(now), nextPoll := None));
        case Transient =>
          UpdateRecord(record.key, (r: Record) => r.(nextPoll := Some(pollAt)));
        case Receipt(terminal) =>
          if terminal {
            UpdateRecord(record.key,
                         (r: Record) => r.(state := ImporterAcked, completedAt := Some(now), nextPoll := None));
          } else {
            UpdateRecord(record.key, (r: Record) => r.(nextPoll := Some(pollAt)));
          }
      }
      ok := true;
    }

    method NormalizeRestartState(now: nat, pollMillis: nat)
      requires Inv(Contents())
      modifies this
      ensures Inv(Contents()) && payloads == old(payloads) && |packages| == |old(packages)|
      ensures forall i :: 0 <= i < |packages| ==> packages[i] == Restarted(old(packages)[i], now, pollMillis)
    {
      var i := 0;
      while i < |packages|
        invariant 0 <= i <= |packages| == |old(packages)| && payloads == old(payloads)
        invariant forall k :: 0 <= k < i ==> packages[k] == Restarted(old(packages)[k], now, pollMillis)
        invariant forall k :: i <= k < |packages| ==> packages[k] == old(packages)[k]
      {
        var record := packages[i];
        match record.state {
          case InDelivery =>
            packages := packages[i := record.(state := Retrying, nextDelivery := Some(now))];
          case Delivered =>
            if record.nextPoll.None? {
              packages := packages[i := record.(nextPoll := Some(SatAdd(now, pollMillis, U64_MAX)))];
            }
          case _ =>
        }
        i := i + 1;
      }
      assert forall k :: 0 <= k < |packages| ==> packages[k].key == old(packages)[k].key;
    }
  }
}
