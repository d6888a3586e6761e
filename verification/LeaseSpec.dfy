/** The transactions of the queue and of the lease protocol, as functions on the log and the tasks table:
    scripts/core/lease.ts, scripts/core/queue.ts, and appendEvent of scripts/core/db.ts. */
module LeaseSpec {
  import opened Options
  import opened Tasks

  datatype Bus = Bus(log: seq<Event>, tasks: Table)

  /** What a worker is handed with a grant. */
  datatype Lease = Lease(key: string, subject: Subject, gen: nat, actor: string)

  datatype Failure = Failure(reason: string, withdraw: bool)

  /** What failed reads in other tables within its transaction: whether a queued update waits for the head, the
      end of the silence after a fresh heartbeat, and the retry time found in the context. */
  datatype Readings = Readings(updateWaits: bool, beatingUntil: Option<nat>, retryAt: Option<nat>)

  const POLICY := "policy"
  const STALE_HEAD := "stale_head"
  const NOT_MERGEABLE := "not_mergeable"

  predicate Has(log: seq<Event>, dedupe: Dedupe) {
    exists i :: 0 <= i < |log| && log[i].dedupe == dedupe
  }

  function Append(log: seq<Event>, e: Event): seq<Event> {
    if Has(log, e.dedupe) then log else log + [e]
  }

  function Record(e: Event): Event {
    Event(Other, e.key, e.subject, 0, e.ts, "reducer", true, RejectionOf(e.dedupe))
  }

  /** appendedAndReduced on a log the table has been folded through: a swallowed event changes nothing. */
  function Wrote(b: Bus, e: Event): Bus {
    if Has(b.log, e.dedupe) then b
    else
      match Outcomes(b.tasks, e, |b.log| + 1)
      case Rejected => Bus(Append(b.log + [e], Record(e)), b.tasks)
      case Kept => Bus(b.log + [e], b.tasks)
      case Written(row) => Bus(b.log + [e], b.tasks[e.key := row])
  }

  function AppendAll(log: seq<Event>, events: seq<Event>): seq<Event> {
    if events == [] then log else Append(AppendAll(log, events[..|events| - 1]), events[|events| - 1])
  }

  /** Events no task fold knows: context on the card, alarms, the records other nodes append. */
  predicate Foreign(e: Event) {
    e.kind.Other? && e.dedupe.Text?
  }

  predicate AllForeign(events: seq<Event>) {
    forall i :: 0 <= i < |events| ==> Foreign(events[i])
  }

  function WithContext(b: Bus, context: seq<Event>): Bus {
    b.(log := AppendAll(b.log, context))
  }

  // ---------- the writers ----------

  /** An event of a task with a row, which the folds accept. */
  function TaskEvent(kind: Kind, key: string, subject: Subject, gen: nat, ts: nat, actor: string, dedupe: Dedupe): Event {
    Event(kind, key, subject, gen, ts, actor, true, dedupe)
  }

  /** taskEvent of queue.ts, which the folds may reject. */
  function QueueEvent(kind: Kind, ts: nat, key: string, subject: Subject, accepted: bool, dedupe: Dedupe): Event {
    Event(kind, key, subject, 0, ts, POLICY, accepted, dedupe)
  }

  /** queueTask */
  function EnqueueEvent(ts: nat, key: string, subject: Subject, accepted: bool): Event {
    QueueEvent(Enqueue, ts, key, subject, accepted, EnqueuedOnce(key))
  }

  /** stateEventOf: the event the row of a task stands at. */
  function StateEventOf(tasks: Table, key: string): Option<nat> {
    if key in tasks then Some(tasks[key].eventId) else None
  }

  /** supersedeTask: after is what stateEventOf read before the transaction. */
  function SupersedeTaskEvent(ts: nat, key: string, subject: Subject, after: Option<nat>, accepted: bool): Event {
    QueueEvent(Supersede, ts, key, subject, accepted, if after.Some? then SupersededAfter(key, after.value) else SupersededUnknown(key))
  }

  /** withdrawTask, which reads stateEventOf before its transaction too. */
  function WithdrawTaskEvent(ts: nat, key: string, subject: Subject, after: Option<nat>, accepted: bool): Event {
    QueueEvent(Withdraw, ts, key, subject, accepted, if after.Some? then WithdrawnAfter(key, after.value) else WithdrawnUnknown(key))
  }

  /** requeueTask: failure is the event the caller read as the reason. */
  function RequeueEvent(ts: nat, key: string, subject: Subject, failure: nat, accepted: bool): Event {
    QueueEvent(Requeue(false), ts, key, subject, accepted, RequeuedAfter(key, failure))
  }

  function RequestEvent(ts: nat, key: string, subject: Subject, request: nat, accepted: bool): Event {
    QueueEvent(Requeue(false), ts, key, subject, accepted, RequeuedOnRequest(key, request))
  }

  function Alarm(key: string, subject: Subject, ts: nat): Event {
    TaskEvent(Other, key, subject, 0, ts, POLICY, Text("board.alarm:" + key))
  }

  /** setAgainAfterItsStop on an answer stopped by a fault: the failures are those the caller read before. */
  function SetAgain(b: Bus, ts: nat, key: string, subject: Subject, failure: nat, readFailures: nat, accepted: bool): Bus {
    if readFailures + 1 >= FAILURES_TO_STOP then WithContext(b, [Alarm(key, subject, ts)])
    else Wrote(b, FaultEvent(ts, key, subject, failure, accepted))
  }

  function FaultEvent(ts: nat, key: string, subject: Subject, failure: nat, accepted: bool): Event {
    QueueEvent(Requeue(true), ts, key, subject, accepted, RequeuedAfter(key, failure))
  }

  function GrantEvent(b: Bus, ts: nat, key: string, actor: string): Event
    requires key in b.tasks
  {
    var row := b.tasks[key];
    TaskEvent(Kind.Lease, key, row.subject, row.gen + 1, ts, actor, LeasedOnce(key, row.gen + 1))
  }

  /** leased, after leaseNext, leaseQueued or leaseWhileFree chose a queued row. */
  function Granted(b: Bus, ts: nat, key: string, actor: string): Bus {
    if key in b.tasks && b.tasks[key].state == Queued then Wrote(b, GrantEvent(b, ts, key, actor)) else b
  }

  /** held does not throw. */
  predicate Holding(b: Bus, key: string, gen: nat) {
    HeldUnder(RowOf(b.tasks, key), gen)
  }

  function RenewEvent(b: Bus, ts: nat, lease: Lease): Event
    requires lease.key in b.tasks
  {
    TaskEvent(Renew, lease.key, b.tasks[lease.key].subject, lease.gen, ts, lease.actor, RenewedAt(lease.key, lease.gen, ts))
  }

  function CompleteEvent(b: Bus, ts: nat, lease: Lease): Event
    requires lease.key in b.tasks
  {
    TaskEvent(Complete, lease.key, b.tasks[lease.key].subject, lease.gen, ts, lease.actor, CompletedOnce(lease.key, lease.gen))
  }

  function ReleaseEvent(b: Bus, ts: nat, actor: string, key: string, gen: nat): Event
    requires key in b.tasks
  {
    TaskEvent(Release, key, b.tasks[key].subject, gen, ts, actor, ReleasedOnce(key, gen))
  }

  function SupersedeEvent(b: Bus, ts: nat, lease: Lease): Event
    requires lease.key in b.tasks
  {
    var row := b.tasks[lease.key];
    TaskEvent(Supersede, lease.key, row.subject, lease.gen, ts, lease.actor, SupersededAfter(lease.key, row.eventId))
  }

  function FailEvent(b: Bus, ts: nat, actor: string, expired: bool, key: string, gen: nat, next: TaskState, uncounted: bool): Event
    requires key in b.tasks
  {
    TaskEvent(if expired then Expire(next, uncounted) else Fail(next, uncounted), key, b.tasks[key].subject, gen, ts, actor,
              if expired then ExpiredOnce(key, gen) else FailedOnce(key, gen))
  }

  /** card.stopped and the alarm, when a task stops. */
  function StopRecords(b: Bus, ts: nat, actor: string, key: string): (records: seq<Event>)
    requires key in b.tasks
    ensures AllForeign(records)
  {
    var subject := b.tasks[key].subject;
    [TaskEvent(Other, key, subject, 0, ts, actor, Text("card.stopped:" + key)), Alarm(key, subject, ts)]
  }

  function Renewed(b: Bus, ts: nat, lease: Lease): Bus {
    if !Holding(b, lease.key, lease.gen) then b else Wrote(b, RenewEvent(b, ts, lease))
  }

  function CompletedLease(b: Bus, ts: nat, lease: Lease, outcome: seq<Event>): Bus {
    if !Holding(b, lease.key, lease.gen) then b
    else Wrote(WithContext(b, outcome), CompleteEvent(b, ts, lease))
  }

  /** waitTask and releaseTask */
  function ReleasedLease(b: Bus, ts: nat, actor: string, key: string, gen: nat, context: seq<Event>): Bus {
    if !Holding(b, key, gen) then b
    else Wrote(WithContext(b, context), ReleaseEvent(b, ts, actor, key, gen))
  }

  function SupersededLease(b: Bus, ts: nat, lease: Lease, context: seq<Event>): Bus {
    if !Holding(b, lease.key, lease.gen) then b
    else Wrote(WithContext(b, context), SupersedeEvent(b, ts, lease))
  }

  function Uncounted(row: Row, failure: Failure, readings: Readings): bool {
    failure.reason == NOT_MERGEABLE && row.subject.pr.Some? && readings.updateWaits
  }

  /** afterFailure */
  function StateAfterFailure(row: Row, failure: Failure, uncounted: bool): TaskState {
    if failure.withdraw then Withdrawn
    else if !uncounted && row.failures + 1 >= FAILURES_TO_STOP then Stopped
    else Queued
  }

  /** failed: task.failed by the holder, task.expired by the policy. */
  function FailedLease(b: Bus, ts: nat, actor: string, expired: bool, key: string, gen: nat, failure: Failure, readings: Readings, context: seq<Event>): Bus {
    if !Holding(b, key, gen) then b
    else
      var row := b.tasks[key];
      var uncounted := Uncounted(row, failure, readings);
      var next := StateAfterFailure(row, failure, uncounted);
      if next == Stopped && readings.beatingUntil.Some? then ReleasedLease(b, ts, actor, key, gen, context)
      else
        var c := Wrote(WithContext(b, context), FailEvent(b, ts, actor, expired, key, gen, next, uncounted));
        if next == Stopped then WithContext(c, StopRecords(b, ts, actor, key)) else c
  }

  /** failTask: a stale head supersedes, a rate limit waits, anything else fails. */
  function FailedTask(b: Bus, ts: nat, lease: Lease, failure: Failure, readings: Readings, context: seq<Event>): Bus {
    if failure.reason == STALE_HEAD && !failure.withdraw then SupersededLease(b, ts, lease, context)
    else if !failure.withdraw && readings.retryAt.Some? then ReleasedLease(b, ts, lease.actor, lease.key, lease.gen, context)
    else FailedLease(b, ts, lease.actor, false, lease.key, lease.gen, failure, readings, context)
  }

  /** A heartbeat of a session, which names its lease or none. */
  function Beaten(b: Bus, e: Event): Bus
    requires e.kind.Beat? && e.dedupe.Text?
  {
    Wrote(b, e)
  }

  // ---------- what every state keeps ----------

  /** A completed, failed, expired or released event of the generation is in the log. */
  predicate Ended(log: seq<Event>, key: string, gen: nat) {
    Has(log, CompletedOnce(key, gen)) || Has(log, FailedOnce(key, gen)) || Has(log, ExpiredOnce(key, gen)) || Has(log, ReleasedOnce(key, gen))
  }

  /** The log holds the grants 1 to lease_gen of each row and no others. */
  ghost predicate GrantsMatch(b: Bus) {
    forall key: string, gen: nat :: Has(b.log, LeasedOnce(key, gen)) <==> key in b.tasks && 1 <= gen <= b.tasks[key].gen
  }

  /** No lease has ended that was not granted, and none that is held. */
  ghost predicate EndsMatch(b: Bus) {
    forall key: string, gen: nat :: Ended(b.log, key, gen) ==>
      key in b.tasks && gen <= b.tasks[key].gen && (b.tasks[key].state == Leased ==> gen < b.tasks[key].gen)
  }

  /** Every task was enqueued; an enqueued event that the fold rejects leaves no task. */
  ghost predicate EnqueuedMatch(b: Bus) {
    forall key :: key in b.tasks ==> Has(b.log, EnqueuedOnce(key))
  }

  /** A task superseded after its present state event is superseded. */
  ghost predicate SupersededMatch(b: Bus) {
    forall key: string, after: nat :: Has(b.log, SupersededAfter(key, after)) ==>
      key in b.tasks && after <= b.tasks[key].eventId && (after == b.tasks[key].eventId ==> b.tasks[key].state == Superseded)
  }

  ghost predicate RowsMatch(b: Bus) {
    forall key :: key in b.tasks ==>
      && 0 < b.tasks[key].eventId <= |b.log|
      && (b.tasks[key].state == Leased ==> b.tasks[key].gen > 0)
  }

  ghost predicate Inv(b: Bus) {
    GrantsMatch(b) && EndsMatch(b) && EnqueuedMatch(b) && SupersededMatch(b) && RowsMatch(b)
  }

  /** The table is the in-order fold of the log. */
  ghost predicate Projected(b: Bus) {
    b.tasks == Replay(b.log, |b.log|)
  }

  /** An event a writer appends in the present state: its dedupe key belongs to its type, and its guard holds. */
  ghost predicate Genuine(b: Bus, e: Event) {
    match e.dedupe
    case EnqueuedOnce(key) => e.kind.Enqueue? && e.key == key
    case SupersededAfter(key, after) => e.kind.Supersede? && e.key == key && e.accepted && key in b.tasks && after <= b.tasks[key].eventId
    case SupersededUnknown(key) => e.kind.Supersede? && e.key == key
    case RequeuedAfter(key, _) => e.kind.Requeue? && e.key == key
    case RequeuedOnRequest(key, _) => e.kind.Requeue? && e.key == key
    case RequeuedLegacy(key, _) => e.kind.Requeue? && e.key == key
    case WithdrawnAfter(key, _) => e.kind.Withdraw? && e.key == key
    case WithdrawnUnknown(key) => e.kind.Withdraw? && e.key == key
    case LeasedOnce(key, gen) => e.kind.Lease? && e.key == key && e.gen == gen && e.accepted
        && key in b.tasks && b.tasks[key].state == Queued && gen == b.tasks[key].gen + 1
    case RenewedAt(key, gen, _) => e.kind.Renew? && e.key == key
    case CompletedOnce(key, gen) => e.kind.Complete? && EndsHeld(b, e, key, gen)
    case FailedOnce(key, gen) => e.kind.Fail? && AfterALease(e.kind.next) && EndsHeld(b, e, key, gen)
    case ExpiredOnce(key, gen) => e.kind.Expire? && AfterALease(e.kind.next) && EndsHeld(b, e, key, gen)
    case ReleasedOnce(key, gen) => e.kind.Release? && EndsHeld(b, e, key, gen)
    case RejectionOf(_) => e.kind.Other?
    case Text(_) => e.kind.Other? || e.kind.Beat?
  }

  ghost predicate EndsHeld(b: Bus, e: Event, key: string, gen: nat) {
    e.key == key && e.gen == gen && e.accepted && Holding(b, key, gen)
  }

  lemma HasAppended(log: seq<Event>, e: Event)
    ensures forall d :: Has(log + [e], d) <==> Has(log, d) || d == e.dedupe
  {
    forall d
      ensures Has(log + [e], d) <==> Has(log, d) || d == e.dedupe
    {
      if Has(log, d) {
        var i :| 0 <= i < |log| && log[i].dedupe == d;
        assert (log + [e])[i].dedupe == d;
      }
      assert (log + [e])[|log|] == e;
    }
  }

  /** The transactions that fold what they append keep the table projected from the log. */
  lemma WroteProjected(b: Bus, e: Event)
    requires Projected(b)
    ensures Projected(Wrote(b, e))
  {
    if !Has(b.log, e.dedupe) {
      var c := Bus(b.log + [e], Folded(b.tasks, e, |b.log| + 1));
      FreshProjected(b, e);
      if Outcomes(b.tasks, e, |b.log| + 1) == Rejected {
        ForeignProjected(c, Record(e));
      } else {
        assert Wrote(b, e) == c;
      }
    }
  }

  lemma FreshProjected(b: Bus, e: Event)
    requires Projected(b)
    ensures Projected(Bus(b.log + [e], Folded(b.tasks, e, |b.log| + 1)))
  {
    ReplayAppended(b.log, e);
  }

  lemma ForeignProjected(b: Bus, e: Event)
    requires Projected(b) && e.kind.Other?
    ensures Projected(b.(log := Append(b.log, e)))
  {
    if !Has(b.log, e.dedupe) {
      ReplayAppended(b.log, e);
    }
  }

  lemma {:induction false} ContextProjected(b: Bus, context: seq<Event>)
    requires Projected(b) && AllForeign(context)
    ensures Projected(WithContext(b, context))
  {
    if context != [] {
      ContextProjected(b, context[..|context| - 1]);
      ForeignProjected(WithContext(b, context[..|context| - 1]), context[|context| - 1]);
    }
  }

  lemma {:induction false} ReplayAppended(log: seq<Event>, e: Event)
    ensures Replay(log + [e], |log| + 1) == Folded(Replay(log, |log|), e, |log| + 1)
  {
    assert (log + [e])[..|log|] == log[..|log|];
    ReplayPrefix(log + [e], log, |log|);
  }

  ghost predicate Gains(log: seq<Event>, later: seq<Event>, dedupe: Dedupe) {
    |log| <= |later| && forall d :: Has(later, d) <==> Has(log, d) || d == dedupe
  }

  /** c is b after a genuine event that was not in the log. */
  ghost predicate Moves(b: Bus, e: Event, c: Bus) {
    && Genuine(b, e) && RowsMatch(b) && Gains(b.log, c.log, e.dedupe) && |c.log| == |b.log| + 1
    && c.tasks == Folded(b.tasks, e, |c.log|)
  }

  lemma FreshGrants(b: Bus, e: Event, c: Bus)
    requires Moves(b, e, c) && GrantsMatch(b)
    ensures GrantsMatch(c)
  {
  }

  lemma FreshEnds(b: Bus, e: Event, c: Bus)
    requires Moves(b, e, c) && EndsMatch(b)
    ensures EndsMatch(c)
  {
    forall key: string, gen: nat | Ended(c.log, key, gen)
      ensures key in c.tasks && gen <= c.tasks[key].gen && (c.tasks[key].state == Leased ==> gen < c.tasks[key].gen)
    {
      EndedBefore(b, e, c, key, gen);
      RowKeepsItsEnds(b, e, |c.log|, key, gen);
    }
  }

  lemma EndedBefore(b: Bus, e: Event, c: Bus, key: string, gen: nat)
    requires Genuine(b, e) && Gains(b.log, c.log, e.dedupe) && Ended(c.log, key, gen)
    ensures Ended(b.log, key, gen) || (EndsHeld(b, e, key, gen) && (e.kind.Complete? || e.kind.Release? || e.kind.Fail? || e.kind.Expire?))
    ensures !Ended(b.log, key, gen) && (e.kind.Fail? || e.kind.Expire?) ==> AfterALease(e.kind.next)
  {
  }

  /** One event leaves a row at most at the generation it ends, and leased only under a later one. */
  lemma RowKeepsItsEnds(b: Bus, e: Event, id: nat, key: string, gen: nat)
    requires key in b.tasks && gen <= b.tasks[key].gen
    requires (b.tasks[key].state == Leased ==> gen < b.tasks[key].gen)
      || (EndsHeld(b, e, key, gen) && (e.kind.Complete? || e.kind.Release? || ((e.kind.Fail? || e.kind.Expire?) && AfterALease(e.kind.next))))
    ensures
      var tasks := Folded(b.tasks, e, id);
      key in tasks && gen <= tasks[key].gen && (tasks[key].state == Leased ==> gen < tasks[key].gen)
  {
  }

  lemma FreshEnqueued(b: Bus, e: Event, c: Bus)
    requires Moves(b, e, c) && EnqueuedMatch(b)
    ensures EnqueuedMatch(c)
  {
    NewRowIsEnqueued(b, e, |c.log|);
    forall key: string | key in c.tasks
      ensures Has(c.log, EnqueuedOnce(key))
    {
      assert Has(c.log, EnqueuedOnce(key)) <==> Has(b.log, EnqueuedOnce(key)) || EnqueuedOnce(key) == e.dedupe;
    }
  }

  /** A row comes into being by its enqueued event, and by nothing else. */
  lemma NewRowIsEnqueued(b: Bus, e: Event, id: nat)
    requires Genuine(b, e)
    ensures Folded(b.tasks, e, id).Keys == b.tasks.Keys + (if e.dedupe.EnqueuedOnce? && e.accepted then {e.key} else {})
  {
    var outcome := Outcomes(b.tasks, e, id);
    if e.key !in b.tasks && !e.kind.Enqueue? {
      assert !outcome.Written?;
    }
  }

  lemma FreshSuperseded(b: Bus, e: Event, c: Bus)
    requires Moves(b, e, c) && SupersededMatch(b)
    ensures SupersededMatch(c)
  {
  }

  lemma FreshRows(b: Bus, e: Event, c: Bus)
    requires Moves(b, e, c) && RowsMatch(b)
    ensures RowsMatch(c)
  {
  }

  lemma ForeignMoves(b: Bus, e: Event)
    requires RowsMatch(b) && e.kind.Other? && (e.dedupe.Text? || e.dedupe.RejectionOf?)
    ensures Moves(b, e, b.(log := b.log + [e]))
  {
    hide RowsMatch, Has;
    HasAppended(b.log, e);
  }

  /** Appending an event no task fold knows keeps everything. */
  lemma ForeignKeeps(b: Bus, e: Event)
    requires Inv(b) && e.kind.Other? && (e.dedupe.Text? || e.dedupe.RejectionOf?)
    ensures Inv(b.(log := Append(b.log, e)))
  {
    hide GrantsMatch, EndsMatch, EnqueuedMatch, SupersededMatch, RowsMatch, Moves, Has;
    if !Has(b.log, e.dedupe) {
      var c := b.(log := b.log + [e]);
      ForeignMoves(b, e);
      FreshGrants(b, e, c);
      FreshEnds(b, e, c);
      FreshEnqueued(b, e, c);
      FreshSuperseded(b, e, c);
      FreshRows(b, e, c);
    }
  }

  lemma {:induction false} ContextKeeps(b: Bus, context: seq<Event>)
    requires Inv(b) && AllForeign(context)
    ensures Inv(WithContext(b, context))
    ensures |b.log| <= |AppendAll(b.log, context)| && AppendAll(b.log, context)[..|b.log|] == b.log
  {
    if context == [] {
      assert b.log[..|b.log|] == b.log;
    } else {
      ContextKeeps(b, context[..|context| - 1]);
      ForeignKeeps(WithContext(b, context[..|context| - 1]), context[|context| - 1]);
    }
  }

  /** Appending and folding a genuine event that the unique key does not swallow. */
  lemma FreshKeeps(b: Bus, e: Event)
    requires Inv(b) && Genuine(b, e) && !Has(b.log, e.dedupe)
    ensures Inv(Bus(b.log + [e], Folded(b.tasks, e, |b.log| + 1)))
  {
    hide GrantsMatch, EndsMatch, EnqueuedMatch, SupersededMatch, RowsMatch, Genuine, Folded;
    var c := Bus(b.log + [e], Folded(b.tasks, e, |b.log| + 1));
    HasAppended(b.log, e);
    assert Gains(b.log, c.log, e.dedupe);
    FreshGrants(b, e, c);
    FreshEnds(b, e, c);
    FreshEnqueued(b, e, c);
    FreshSuperseded(b, e, c);
    FreshRows(b, e, c);
  }

  lemma WroteKeeps(b: Bus, e: Event)
    requires Inv(b) && Genuine(b, e)
    ensures Inv(Wrote(b, e))
  {
    if !Has(b.log, e.dedupe) {
      FreshKeeps(b, e);
      if Outcomes(b.tasks, e, |b.log| + 1) == Rejected {
        ForeignKeeps(Bus(b.log + [e], b.tasks), Record(e));
      }
    }
  }

  /** A genuine event that is new to the log and that the fold applies. */
  lemma FreshWrote(b: Bus, e: Event, row: Row)
    requires Inv(b) && Genuine(b, e) && !Has(b.log, e.dedupe) && Outcomes(b.tasks, e, |b.log| + 1) == Written(row)
    ensures Wrote(b, e) == Bus(b.log + [e], b.tasks[e.key := row]) && Inv(Wrote(b, e))
  {
    FreshKeeps(b, e);
  }

  lemma NextGrantIsFresh(b: Bus, key: string)
    requires Inv(b) && key in b.tasks
    ensures !Has(b.log, LeasedOnce(key, b.tasks[key].gen + 1))
  {
  }

  lemma HeldIsNotEnded(b: Bus, key: string, gen: nat)
    requires Inv(b) && Holding(b, key, gen)
    ensures !Ended(b.log, key, gen) && !Has(b.log, SupersededAfter(key, b.tasks[key].eventId))
  {
  }

  lemma KnownIsEnqueued(b: Bus, key: string)
    requires Inv(b) && key in b.tasks
    ensures Has(b.log, EnqueuedOnce(key))
  {
  }
}
