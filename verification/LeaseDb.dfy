/** The writers of the lease protocol over the log and the tasks table: scripts/core/lease.ts, scripts/core/queue.ts. */
module LeaseDb {
  import opened Options
  import opened Tasks
  import opened LeaseSpec
  import opened LeaseProtocol
  import opened FailureBudget

  /** StaleLease is thrown, and the transaction rolled back, when the lease has moved on. */
  datatype Result<+T> = Ok(value: T) | StaleLease

  datatype AfterFailure = ToQueued | ToWithdrawn | ToStopped | LeaseSuperseded

  class Db {
    var log: seq<Event>
    var tasks: Table

    function View(): Bus
      reads this
    {
      Bus(log, tasks)
    }

    constructor ()
      ensures View() == EMPTY_BUS
    {
      log, tasks := [], map[];
    }

    method AppendEvent(e: Event) returns (appended: bool)
      modifies this`log
      ensures log == Append(old(log), e) && (appended <==> !Has(old(log), e.dedupe))
    {
      appended := !Has(log, e.dedupe);
      if appended {
        log := log + [e];
      }
    }

    method AppendContext(events: seq<Event>)
      modifies this`log
      ensures log == AppendAll(old(log), events)
    {
      for i := 0 to |events|
        invariant log == AppendAll(old(log), events[..i])
      {
        assert events[..i + 1][..i] == events[..i];
        var appended := AppendEvent(events[i]);
      }
      assert events[..|events|] == events;
    }

    /** appendedAndReduced: append, then fold the event just appended or record its rejection. */
    method AppendAndReduce(e: Event) returns (appended: bool)
      modifies this
      ensures View() == Wrote(old(View()), e) && (appended <==> !Has(old(log), e.dedupe))
    {
      appended := AppendEvent(e);
      if appended {
        match Outcomes(tasks, e, |log|)
        case Rejected => var recorded := AppendEvent(Record(e));
        case Kept =>
        case Written(row) => tasks := tasks[e.key := row];
      }
    }

    /** queueTask */
    method QueueTask(ts: nat, key: string, subject: Subject, accepted: bool) returns (queued: bool)
      modifies this
      ensures View() == Next(old(View()), Enqueueing(ts, key, subject, accepted))
      ensures queued <==> !Has(old(log), EnqueuedOnce(key))
    {
      queued := AppendAndReduce(EnqueueEvent(ts, key, subject, accepted));
    }

    /** The transaction of supersedeTask, after stateEventOf. */
    method SupersedeTask(ts: nat, key: string, subject: Subject, after: Option<nat>, accepted: bool) returns (superseded: bool)
      modifies this
      ensures View() == Next(old(View()), Superseding(ts, key, subject, after, accepted))
      ensures !superseded ==> View() == old(View())
      ensures superseded && accepted ==> key in old(tasks) ==> tasks[key].state == Superseded
    {
      superseded := AppendAndReduce(SupersedeTaskEvent(ts, key, subject, after, accepted));
    }

    /** setAgainAfterItsStop, on a row the caller read before the transaction. */
    method SetAgainAfterItsStop(ts: nat, key: string, subject: Subject, cause: nat, readFailures: nat, accepted: bool) returns (again: bool)
      modifies this
      ensures View() == Next(old(View()), SettingAgain(ts, key, subject, cause, readFailures, accepted))
      ensures again <==> readFailures + 1 < FAILURES_TO_STOP && !Has(old(log), RequeuedAfter(key, cause))
    {
      if readFailures + 1 >= FAILURES_TO_STOP {
        AppendContext([Alarm(key, subject, ts)]);
        return false;
      }
      again := AppendAndReduce(FaultEvent(ts, key, subject, cause, accepted));
    }

    /** leaseQueued, and leaseNext once it has chosen the row; waits says that the task waits until later. */
    method LeaseQueued(ts: nat, key: string, actor: string, waits: bool) returns (r: Option<Lease>)
      modifies this
      ensures r.Some? <==> key in old(tasks) && old(tasks)[key].state == Queued && !waits
      ensures r.None? ==> View() == old(View())
      ensures r.Some? ==> View() == Next(old(View()), Granting(ts, key, actor)) && r == Some(LeaseOf(View(), key, actor))
    {
      if key !in tasks || tasks[key].state != Queued || waits {
        return None;
      }
      var appended := AppendAndReduce(GrantEvent(View(), ts, key, actor));
      r := Some(LeaseOf(View(), key, actor));
    }

    /** leaseWhileFree: count, enqueue, lease, in one transaction. */
    method LeaseWhileFree(ts: nat, key: string, subject: Subject, accepted: bool, actor: string, slots: nat) returns (r: Option<Lease>)
      modifies this
      ensures
        var leased := set k | k in old(tasks) && old(tasks)[k].subject.queue == subject.queue && old(tasks)[k].state == Leased;
        |leased| >= slots ==> r.None? && View() == old(View())
      ensures
        var leased := set k | k in old(tasks) && old(tasks)[k].subject.queue == subject.queue && old(tasks)[k].state == Leased;
        |leased| < slots ==>
        var b := Next(old(View()), Enqueueing(ts, key, subject, accepted));
        if key in b.tasks && b.tasks[key].state == Queued then
          View() == Next(b, Granting(ts, key, actor)) && r == Some(LeaseOf(View(), key, actor))
        else
          View() == b && r.None?
    {
      if LeasedIn(tasks, subject.queue) >= slots {
        return None;
      }
      var queued := QueueTask(ts, key, subject, accepted);
      r := LeaseQueued(ts, key, actor, false);
    }

    /** renewLease */
    method RenewLease(ts: nat, lease: Lease) returns (r: Result<()>)
      modifies this
      ensures View() == Next(old(View()), Renewing(ts, lease))
      ensures r.StaleLease? <==> !Holding(old(View()), lease.key, lease.gen)
    {
      if !Holding(View(), lease.key, lease.gen) {
        return StaleLease;
      }
      var appended := AppendAndReduce(RenewEvent(View(), ts, lease));
      r := Ok(());
    }

    /** completeTask; what stillDue checks is left to the caller. */
    method CompleteTask(ts: nat, lease: Lease, outcome: seq<Event>) returns (r: Result<()>)
      requires AllForeign(outcome)
      modifies this
      ensures View() == Next(old(View()), Completing(ts, lease, outcome))
      ensures r.StaleLease? <==> !Holding(old(View()), lease.key, lease.gen)
    {
      if !Holding(View(), lease.key, lease.gen) {
        return StaleLease;
      }
      var e := CompleteEvent(View(), ts, lease);
      AppendContext(outcome);
      var appended := AppendAndReduce(e);
      r := Ok(());
    }

    /** waitTask and releaseTask */
    method ReleaseTask(ts: nat, lease: Lease, context: seq<Event>) returns (r: Result<()>)
      requires AllForeign(context)
      modifies this
      ensures View() == Next(old(View()), Waiting(ts, lease, context))
      ensures r.StaleLease? <==> !Holding(old(View()), lease.key, lease.gen)
    {
      if !Holding(View(), lease.key, lease.gen) {
        return StaleLease;
      }
      Released(ts, lease.actor, lease.key, lease.gen, context);
      r := Ok(());
    }

    method Released(ts: nat, actor: string, key: string, gen: nat, context: seq<Event>)
      requires Holding(View(), key, gen)
      modifies this
      ensures View() == ReleasedLease(old(View()), ts, actor, key, gen, context)
    {
      var e := ReleaseEvent(View(), ts, actor, key, gen);
      AppendContext(context);
      var appended := AppendAndReduce(e);
    }

    /** supersedeLease */
    method SupersedeLease(ts: nat, lease: Lease, context: seq<Event>) returns (r: Result<AfterFailure>)
      requires AllForeign(context)
      modifies this
      ensures View() == Next(old(View()), Outdating(ts, lease, context))
      ensures r == if Holding(old(View()), lease.key, lease.gen) then Ok(LeaseSuperseded) else StaleLease
    {
      if !Holding(View(), lease.key, lease.gen) {
        return StaleLease;
      }
      var e := SupersedeEvent(View(), ts, lease);
      AppendContext(context);
      var appended := AppendAndReduce(e);
      r := Ok(LeaseSuperseded);
    }

    /** failed, for a row the caller found held. */
    method Failed(ts: nat, actor: string, expired: bool, key: string, gen: nat, failure: Failure, readings: Readings, context: seq<Event>)
      returns (next: AfterFailure)
      requires Holding(View(), key, gen)
      modifies this
      ensures View() == FailedLease(old(View()), ts, actor, expired, key, gen, failure, readings, context)
      ensures next == AnswerOf(old(tasks)[key], failure, readings)
    {
      var row := tasks[key];
      var uncounted := Uncounted(row, failure, readings);
      var after := StateAfterFailure(row, failure, uncounted);
      if after == Stopped && readings.beatingUntil.Some? {
        Released(ts, actor, key, gen, context);
        return ToQueued;
      }
      var e := FailEvent(View(), ts, actor, expired, key, gen, after, uncounted);
      var records := StopRecords(View(), ts, actor, key);
      AppendContext(context);
      var appended := AppendAndReduce(e);
      if after == Stopped {
        AppendContext(records);
        return ToStopped;
      }
      next := if after == Withdrawn then ToWithdrawn else ToQueued;
    }

    /** failTask */
    method FailTask(ts: nat, lease: Lease, failure: Failure, readings: Readings, context: seq<Event>) returns (r: Result<AfterFailure>)
      requires AllForeign(context)
      modifies this
      ensures View() == Next(old(View()), Failing(ts, lease, failure, readings, context))
      ensures r.StaleLease? <==> !Holding(old(View()), lease.key, lease.gen)
      ensures r.Ok? ==> StateNamed(r.value) == RowUnder(old(View()), Failing(ts, lease, failure, readings, context)).state
      ensures r == Ok(ToStopped) ==> RowUnder(old(View()), Failing(ts, lease, failure, readings, context)).state == Stopped
      ensures r == Ok(ToWithdrawn) ==> RowUnder(old(View()), Failing(ts, lease, failure, readings, context)).state == Withdrawn
      ensures r == Ok(ToQueued) ==> RowUnder(old(View()), Failing(ts, lease, failure, readings, context)).state == Queued
      ensures r == Ok(LeaseSuperseded) ==> RowUnder(old(View()), Failing(ts, lease, failure, readings, context)).state == Superseded
    {
      if failure.reason == STALE_HEAD && !failure.withdraw {
        r := SupersedeLease(ts, lease, context);
        return;
      }
      if !failure.withdraw && readings.retryAt.Some? {
        var released := ReleaseTask(ts, lease, context);
        return if released.Ok? then Ok(ToQueued) else StaleLease;
      }
      if !Holding(View(), lease.key, lease.gen) {
        return StaleLease;
      }
      var next := Failed(ts, lease.actor, false, lease.key, lease.gen, failure, readings, context);
      r := Ok(next);
    }

    /** expired: the rows read at the start of the transaction, each failed by the policy. */
    method Expired(ts: nat, rows: seq<string>, failure: Failure, readings: seq<Readings>) returns (keys: seq<string>)
      requires Inv(View()) && |readings| == |rows| && DistinctLeased(tasks, rows)
      modifies this
      ensures View() == ExpiredAll(old(View()), ts, rows, failure, readings, |rows|) && keys == rows
    {
      hide FailedLease, Inv, DistinctLeased, Holding;
      ghost var before := View();
      for i := 0 to |rows|
        invariant View() == ExpiredAll(before, ts, rows, failure, readings, i)
      {
        NextExpires(before, ts, rows, failure, readings, i);
        var next := Failed(ts, POLICY, true, rows[i], tasks[rows[i]].gen, failure, readings[i], []);
      }
      keys := rows;
    }
  }

  function LeaseOf(b: Bus, key: string, actor: string): Lease {
    if key in b.tasks then Lease.Lease(key, b.tasks[key].subject, b.tasks[key].gen, actor)
    else Lease.Lease(key, Subject("", 0, None, None), 0, actor)
  }

  /** leasedCount */
  function LeasedIn(tasks: Table, queue: string): nat {
    |set key | key in tasks && tasks[key].subject.queue == queue && tasks[key].state == Leased|
  }

  /** A granted lease is the row it names: held, under the generation the holder was told. */
  lemma GrantIsTheRow(b: Bus, ts: nat, key: string, actor: string)
    requires Inv(b) && key in b.tasks && b.tasks[key].state == Queued
    ensures
      var c := Granted(b, ts, key, actor);
      var lease := LeaseOf(c, key, actor);
      && Holding(c, key, lease.gen) && lease.gen == b.tasks[key].gen + 1 && lease.subject == b.tasks[key].subject
      && lease.key == key && lease.actor == actor
      && Has(c.log, LeasedOnce(key, lease.gen))
  {
    GrantTakes(b, ts, key, actor);
    HasAppended(b.log, GrantEvent(b, ts, key, actor));
  }

  ghost predicate DistinctLeased(tasks: Table, rows: seq<string>) {
    && (forall i :: 0 <= i < |rows| ==> rows[i] in tasks && tasks[rows[i]].state == Leased)
    && (forall i, j :: 0 <= i < j < |rows| ==> rows[i] != rows[j])
  }

  /** The first n rows failed by the policy, one after the other. */
  ghost function ExpiredAll(b: Bus, ts: nat, rows: seq<string>, failure: Failure, readings: seq<Readings>, n: nat): Bus
    requires |readings| == |rows| && n <= |rows|
  {
    if n == 0 then b
    else
      var c := ExpiredAll(b, ts, rows, failure, readings, n - 1);
      var key := rows[n - 1];
      FailedLease(c, ts, POLICY, true, key, if key in c.tasks then c.tasks[key].gen else 0, failure, readings[n - 1], [])
  }

  /** Expiring one row: it is failed by the policy, and no other row moves. */
  lemma OneExpires(c: Bus, ts: nat, key: string, failure: Failure, readings: Readings)
    requires Inv(c) && key in c.tasks && c.tasks[key].state == Leased
    ensures FailedLease(c, ts, POLICY, true, key, c.tasks[key].gen, failure, readings, []).tasks ==
            c.tasks[key := FailedRow(c.tasks[key], failure, readings, |c.log| + 1)]
  {
    LeasedIsHeld(c, key);
    FreshAfterContext(c, [], FailingEvent(c, ts, POLICY, true, key, c.tasks[key].gen, failure, readings));
    ExpiryFolds(c, ts, key, failure, readings);
  }

  lemma ExpiryFolds(c: Bus, ts: nat, key: string, failure: Failure, readings: Readings)
    requires key in c.tasks && Holding(c, key, c.tasks[key].gen)
    requires !Has(AppendAll(c.log, []), FailingEvent(c, ts, POLICY, true, key, c.tasks[key].gen, failure, readings).dedupe)
    ensures FailedLease(c, ts, POLICY, true, key, c.tasks[key].gen, failure, readings, []).tasks ==
            c.tasks[key := FailedRow(c.tasks[key], failure, readings, |c.log| + 1)]
  {
    FailedLeaseWrites(c, ts, POLICY, true, key, c.tasks[key].gen, failure, readings, []);
    EndFolds(WithContext(c, []), FailingEvent(c, ts, POLICY, true, key, c.tasks[key].gen, failure, readings));
  }

  lemma LeasedIsHeld(b: Bus, key: string)
    requires Inv(b) && key in b.tasks && b.tasks[key].state == Leased
    ensures Holding(b, key, b.tasks[key].gen)
  {
  }

  lemma {:induction false} ExpiredKeeps(b: Bus, ts: nat, rows: seq<string>, failure: Failure, readings: seq<Readings>, n: nat)
    requires Inv(b) && |readings| == |rows| && n <= |rows|
    ensures Inv(ExpiredAll(b, ts, rows, failure, readings, n))
  {
    hide FailedLease, Inv;
    if n > 0 {
      ExpiredKeeps(b, ts, rows, failure, readings, n - 1);
      var c := ExpiredAll(b, ts, rows, failure, readings, n - 1);
      var gen := if rows[n - 1] in c.tasks then c.tasks[rows[n - 1]].gen else 0;
      NextKeeps(c, Expiring(ts, rows[n - 1], gen, failure, readings[n - 1]));
    }
  }

  predicate Among(rows: seq<string>, n: nat, key: string)
    requires n <= |rows|
  {
    exists k :: 0 <= k < n && rows[k] == key
  }

  /** The first n rows have each been failed once, every other row is as it was. */
  ghost predicate ExpiredSoFar(before: Table, now: Table, rows: seq<string>, failure: Failure, readings: seq<Readings>, n: nat)
    requires |readings| == |rows| && n <= |rows| && forall k :: 0 <= k < |rows| ==> rows[k] in before
  {
    && (forall key :: key in before && !Among(rows, n, key) ==> key in now && now[key] == before[key])
    && (forall k :: 0 <= k < n ==> rows[k] in now && now[rows[k]].(eventId := 0) == FailedRow(before[rows[k]], failure, readings[k], 0))
  }

  lemma OneMoreExpired(before: Table, now: Table, rows: seq<string>, failure: Failure, readings: seq<Readings>, i: nat, id: nat)
    requires |readings| == |rows| && i < |rows| && DistinctLeased(before, rows)
    requires ExpiredSoFar(before, now, rows, failure, readings, i)
    ensures rows[i] in now && now[rows[i]] == before[rows[i]]
    ensures ExpiredSoFar(before, now[rows[i] := FailedRow(now[rows[i]], failure, readings[i], id)], rows, failure, readings, i + 1)
  {
    assert !Among(rows, i, rows[i]);
    hide FailedRow;
    assert Among(rows, i + 1, rows[i]);
    assert forall key :: Among(rows, i, key) ==> Among(rows, i + 1, key);
    FailedRowId(before[rows[i]], failure, readings[i], id);
  }

  lemma NoneExpired(b: Bus, ts: nat, rows: seq<string>, failure: Failure, readings: seq<Readings>)
    requires |readings| == |rows| && DistinctLeased(b.tasks, rows)
    ensures ExpiredSoFar(b.tasks, ExpiredAll(b, ts, rows, failure, readings, 0).tasks, rows, failure, readings, 0)
  {
  }

  lemma ExpiredOneMore(b: Bus, ts: nat, rows: seq<string>, failure: Failure, readings: seq<Readings>, n: nat)
    requires |readings| == |rows| && DistinctLeased(b.tasks, rows) && n < |rows|
    requires
      var c := ExpiredAll(b, ts, rows, failure, readings, n);
      Inv(c) && ExpiredSoFar(b.tasks, c.tasks, rows, failure, readings, n)
    ensures ExpiredSoFar(b.tasks, ExpiredAll(b, ts, rows, failure, readings, n + 1).tasks, rows, failure, readings, n + 1)
  {
    hide FailedLease, Inv, ExpiredSoFar, FailedRow;
    var c := ExpiredAll(b, ts, rows, failure, readings, n);
    OneMoreExpired(b.tasks, c.tasks, rows, failure, readings, n, |c.log| + 1);
    OneExpires(c, ts, rows[n], failure, readings[n]);
  }

  /** Each row is failed exactly once, and no other row is touched. */
  lemma {:induction false} ExpiredOneByOne(b: Bus, ts: nat, rows: seq<string>, failure: Failure, readings: seq<Readings>, n: nat)
    requires Inv(b) && |readings| == |rows| && DistinctLeased(b.tasks, rows) && n <= |rows|
    ensures ExpiredSoFar(b.tasks, ExpiredAll(b, ts, rows, failure, readings, n).tasks, rows, failure, readings, n)
  {
    hide FailedLease, Inv, ExpiredSoFar, DistinctLeased;
    if n == 0 {
      NoneExpired(b, ts, rows, failure, readings);
    } else {
      ExpiredOneByOne(b, ts, rows, failure, readings, n - 1);
      ExpiredKeeps(b, ts, rows, failure, readings, n - 1);
      ExpiredOneMore(b, ts, rows, failure, readings, n - 1);
    }
  }

  /** The next row is leased still, and expiring it comes after the ones before. */
  lemma NextExpires(b: Bus, ts: nat, rows: seq<string>, failure: Failure, readings: seq<Readings>, i: nat)
    requires Inv(b) && |readings| == |rows| && DistinctLeased(b.tasks, rows) && i < |rows|
    ensures
      var c := ExpiredAll(b, ts, rows, failure, readings, i);
      Inv(c) && rows[i] in c.tasks && Holding(c, rows[i], c.tasks[rows[i]].gen)
  {
    var c := ExpiredAll(b, ts, rows, failure, readings, i);
    ExpiredOneByOne(b, ts, rows, failure, readings, i);
    ExpiredKeeps(b, ts, rows, failure, readings, i);
    OneMoreExpired(b.tasks, c.tasks, rows, failure, readings, i, 0);
    LeasedIsHeld(c, rows[i]);
  }

  lemma FailedRowId(row: Row, failure: Failure, readings: Readings, id: nat)
    ensures FailedRow(row, failure, readings, id).(eventId := 0) == FailedRow(row, failure, readings, 0)
  {
  }

  /** The state failTask tells the holder the task is in. */
  function StateNamed(after: AfterFailure): TaskState {
    match after
    case ToQueued => Queued
    case ToWithdrawn => Withdrawn
    case ToStopped => Stopped
    case LeaseSuperseded => Superseded
  }

  function AnswerOf(row: Row, failure: Failure, readings: Readings): AfterFailure {
    match FailedRow(row, failure, readings, 0).state
    case Withdrawn => ToWithdrawn
    case Stopped => ToStopped
    case _ => ToQueued
  }
}
