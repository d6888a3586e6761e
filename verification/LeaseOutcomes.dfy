/** What the transactions of the queue and of the lease protocol do to a row and to the log, in plain terms:
    scripts/core/lease.ts, scripts/core/queue.ts. */
module LeaseOutcomes {
  import opened Options
  import opened Tasks
  import opened LeaseSpec
  import opened LeaseProtocol

  /** Only the row of the task is written. */
  ghost predicate OnlyRow(before: Table, after: Table, key: string) {
    && key in before && after.Keys == before.Keys
    && (forall k :: k in before && k != key ==> after[k] == before[k])
    && after[key].id == before[key].id && after[key].subject == before[key].subject
  }

  // ---------- failures ----------

  /** A failure is excused only when the pull request cannot be merged and an update of its head is on the way. A third
      failure that is not excused stops the task, unless it is withdrawn, or waits for a session that still beats. */
  ghost predicate FailsAs(row: Row, reason: string, withdraw: bool, readings: Readings, after: Row) {
    var excused := reason == "not_mergeable" && row.subject.pr.Some? && readings.updateWaits;
    var third := !excused && !withdraw && row.failures + 1 >= 3;
    && after.gen == row.gen && after.until == None
    && after.failures == (if excused || (third && readings.beatingUntil.Some?) then row.failures else row.failures + 1)
    && after.state == (if withdraw then Withdrawn else if third && readings.beatingUntil.None? then Stopped else Queued)
  }

  /** The stop of a card and the alarm on the board. */
  predicate StopIsRecorded(log: seq<Event>, key: string) {
    Has(log, Text("card.stopped:" + key)) && Has(log, Text("board.alarm:" + key))
  }

  lemma FailedRowFails(row: Row, failure: Failure, readings: Readings, id: nat)
    ensures FailsAs(row, failure.reason, failure.withdraw, readings, FailedRow(row, failure, readings, id))
  {
  }

  lemma HasStays(log: seq<Event>, e: Event, dedupe: Dedupe)
    ensures Has(log, dedupe) || dedupe == e.dedupe ==> Has(Append(log, e), dedupe)
  {
    HasAppended(log, e);
  }

  lemma RecordsAreThere(b: Bus, c: Bus, ts: nat, actor: string, key: string)
    requires key in b.tasks
    ensures StopIsRecorded(WithContext(c, StopRecords(b, ts, actor, key)).log, key)
  {
    var records := StopRecords(b, ts, actor, key);
    var one := AppendAll(c.log, records[..1]);
    assert records[..1][..0] == [] && AppendAll(c.log, []) == c.log;
    HasStays(c.log, records[0], records[0].dedupe);
    HasStays(one, records[1], records[0].dedupe);
    HasStays(one, records[1], records[1].dedupe);
    assert records[..|records| - 1] == records[..1];
  }

  /** A stop writes both records. */
  lemma StopWrites(b: Bus, ts: nat, actor: string, expired: bool, key: string, gen: nat, failure: Failure, readings: Readings, context: seq<Event>)
    requires Holding(b, key, gen) && readings.beatingUntil.None?
    requires FailedRow(b.tasks[key], failure, readings, 0).state == Stopped
    ensures StopIsRecorded(FailedLease(b, ts, actor, expired, key, gen, failure, readings, context).log, key)
  {
    var row := b.tasks[key];
    var uncounted := Uncounted(row, failure, readings);
    var c := Wrote(WithContext(b, context), FailEvent(b, ts, actor, expired, key, gen, StateAfterFailure(row, failure, uncounted), uncounted));
    RecordsAreThere(b, c, ts, actor, key);
  }

  /** What failing a held lease does: a stale head supersedes the task, a named retry time puts it back, and anything
      else fails it. */
  lemma FailingSays(b: Bus, a: Action)
    requires Inv(b) && Proper(a) && a.Failing? && Holding(b, a.lease.key, a.lease.gen)
    ensures
      var key, row, c := a.lease.key, b.tasks[a.lease.key], Next(b, a);
      && OnlyRow(b.tasks, c.tasks, key)
      && var after := c.tasks[key];
         if a.failure.reason == "stale_head" && !a.failure.withdraw then
           after.state == Superseded && after.failures == row.failures && after.gen == row.gen
         else if !a.failure.withdraw && a.readings.retryAt.Some? then
           after.state == Queued && after.failures == row.failures && after.gen == row.gen && after.until == None
         else
           && FailsAs(row, a.failure.reason, a.failure.withdraw, a.readings, after)
           && (after.state == Stopped ==> StopIsRecorded(c.log, key))
  {
    hide Inv, Next, FailedLease, AppendAll;
    var row := b.tasks[a.lease.key];
    LeaseActionTakes(b, a);
    if !(a.failure.reason == "stale_head" && !a.failure.withdraw) && !(!a.failure.withdraw && a.readings.retryAt.Some?) {
      FailedRowFails(row, a.failure, a.readings, |AppendAll(b.log, a.context)| + 1);
      FailingFails(b, a);
      if Next(b, a).tasks[a.lease.key].state == Stopped {
        FailedRowStops(row, a.failure, a.readings, |AppendAll(b.log, a.context)| + 1);
        StopWrites(b, a.ts, a.lease.actor, false, a.lease.key, a.lease.gen, a.failure, a.readings, a.context);
      }
    }
  }

  lemma FailingFails(b: Bus, a: Action)
    requires Proper(a) && a.Failing? && !(a.failure.reason == "stale_head" && !a.failure.withdraw)
    requires !(!a.failure.withdraw && a.readings.retryAt.Some?)
    ensures Next(b, a) == FailedLease(b, a.ts, a.lease.actor, false, a.lease.key, a.lease.gen, a.failure, a.readings, a.context)
  {
  }

  /** Only a row whose session does not beat is stopped, whatever its event. */
  lemma FailedRowStops(row: Row, failure: Failure, readings: Readings, id: nat)
    requires FailedRow(row, failure, readings, id).state == Stopped
    ensures readings.beatingUntil.None? && FailedRow(row, failure, readings, 0).state == Stopped
  {
  }

  /** What a lease failed by the policy loses: one that lapsed, or whose holder is gone. */
  lemma ExpiringSays(b: Bus, a: Action)
    requires Inv(b) && Proper(a) && a.Expiring? && Holding(b, a.key, a.gen)
    ensures
      var row, c := b.tasks[a.key], Next(b, a);
      && OnlyRow(b.tasks, c.tasks, a.key)
      && FailsAs(row, a.failure.reason, a.failure.withdraw, a.readings, c.tasks[a.key])
      && (c.tasks[a.key].state == Stopped ==> StopIsRecorded(c.log, a.key))
  {
    hide Inv, FailedLease;
    LeaseActionTakes(b, a);
    FailedRowFails(b.tasks[a.key], a.failure, a.readings, |b.log| + 1);
    if Next(b, a).tasks[a.key].state == Stopped {
      FailedRowStops(b.tasks[a.key], a.failure, a.readings, |b.log| + 1);
      StopWrites(b, a.ts, POLICY, true, a.key, a.gen, a.failure, a.readings, []);
    }
  }

  /** The action fails a lease that is held, and the failure neither supersedes the task nor makes it wait. */
  ghost predicate Fails(b: Bus, a: Action) {
    && Proper(a) && (a.Failing? || a.Expiring?) && Holding(b, LeaseKey(a), LeaseGen(a))
    && (a.Failing? && !a.failure.withdraw ==> a.failure.reason != "stale_head" && a.readings.retryAt.None?)
    && (a.readings.beatingUntil.Some? ==> b.tasks[LeaseKey(a)].failures + 1 < 3)
  }

  /** Such a failure goes uncounted if and only if it is the one excused; every other counts one. */
  lemma FailureCountsIff(b: Bus, a: Action)
    requires Inv(b) && Fails(b, a)
    ensures
      var key, row := LeaseKey(a), b.tasks[LeaseKey(a)];
      && key in Next(b, a).tasks
      && (Next(b, a).tasks[key].failures == row.failures <==>
            a.failure.reason == "not_mergeable" && row.subject.pr.Some? && a.readings.updateWaits)
      && row.failures <= Next(b, a).tasks[key].failures <= row.failures + 1
  {
    hide Inv, Next;
    if a.Failing? {
      FailingSays(b, a);
    } else {
      ExpiringSays(b, a);
    }
  }

  /** Over a run: the third failure that counts since the task was last set on a clean start, and that neither
      withdraws it nor finds its session beating, stops it, with the stop of the card and the alarm in the log. */
  lemma ThirdFailureStops(states: seq<Bus>, actions: seq<Action>, i: nat)
    requires IsRun(states, actions) && i < |actions| && Fails(states[i], actions[i])
    requires Strikes(states[i].log, LeaseKey(actions[i]), |states[i].log|) == 2
    requires !actions[i].failure.withdraw && actions[i].readings.beatingUntil.None?
    requires !(actions[i].failure.reason == "not_mergeable" && actions[i].readings.updateWaits)
    ensures
      var key := LeaseKey(actions[i]);
      && key in states[i + 1].tasks && states[i + 1].tasks[key].state == Stopped && states[i + 1].tasks[key].failures == 3
      && Strikes(states[i + 1].log, key, |states[i + 1].log|) == 3
      && StopIsRecorded(states[i + 1].log, key)
  {
    hide Inv, Next;
    var key := LeaseKey(actions[i]);
    EveryRunKeeps(states, actions, i);
    FailuresAreStrikes(states, actions, i, key);
    if actions[i].Failing? {
      FailingSays(states[i], actions[i]);
    } else {
      ExpiringSays(states[i], actions[i]);
    }
    FailuresAreStrikes(states, actions, i + 1, key);
  }

  lemma FailuresAreStrikes(states: seq<Bus>, actions: seq<Action>, i: nat, key: string)
    requires IsRun(states, actions) && i < |states| && key in states[i].tasks
    ensures states[i].tasks[key].failures == Strikes(states[i].log, key, |states[i].log|)
  {
    EveryRunProjected(states, actions, i);
    RowIsItsHistory(states[i].log, key, |states[i].log|);
  }

  // ---------- the other ends of a lease ----------

  /** A renewal moves the end of the lease thirty minutes past its time, once for each instant. */
  lemma RenewingSays(b: Bus, ts: nat, lease: Lease)
    requires Inv(b) && Holding(b, lease.key, lease.gen)
    ensures
      var row, c := b.tasks[lease.key], Next(b, Renewing(ts, lease));
      c.tasks == if Has(b.log, RenewedAt(lease.key, lease.gen, ts)) then b.tasks
                 else b.tasks[lease.key := row.(until := Some(ts + 1_800_000), eventId := |b.log| + 1)]
  {
    hide Inv, Next, Has;
    var a := Renewing(ts, lease);
    LeaseActionTakes(b, a);
    assert b.tasks[lease.key := b.tasks[lease.key]] == b.tasks;
  }

  /** The context, and then the one event that ends the lease. */
  ghost predicate LogEnds(before: seq<Event>, context: seq<Event>, after: seq<Event>, dedupe: Dedupe) {
    |after| == |AppendAll(before, context)| + 1 && after[..|after| - 1] == AppendAll(before, context) && after[|after| - 1].dedupe == dedupe
  }

  lemma CompletingSays(b: Bus, ts: nat, lease: Lease, outcome: seq<Event>)
    requires Inv(b) && AllForeign(outcome) && Holding(b, lease.key, lease.gen)
    ensures
      var row, c := b.tasks[lease.key], Next(b, Completing(ts, lease, outcome));
      && LogEnds(b.log, outcome, c.log, CompletedOnce(lease.key, lease.gen))
      && c.tasks == b.tasks[lease.key := row.(state := Completed, until := None, eventId := |c.log|)]
  {
    hide Inv, AppendAll, Wrote, Has;
    EndTakes(b, outcome, CompleteEvent(b, ts, lease));
  }

  /** Waiting and releasing count nothing. */
  lemma WaitingSays(b: Bus, ts: nat, lease: Lease, context: seq<Event>)
    requires Inv(b) && AllForeign(context) && Holding(b, lease.key, lease.gen)
    ensures
      var row, c := b.tasks[lease.key], Next(b, Waiting(ts, lease, context));
      && LogEnds(b.log, context, c.log, ReleasedOnce(lease.key, lease.gen))
      && c.tasks == b.tasks[lease.key := row.(state := Queued, until := None, eventId := |c.log|)]
  {
    hide Inv, AppendAll, Wrote, Has;
    EndTakes(b, context, ReleaseEvent(b, ts, lease.actor, lease.key, lease.gen));
  }

  lemma OutdatingSays(b: Bus, ts: nat, lease: Lease, context: seq<Event>)
    requires Inv(b) && AllForeign(context) && Holding(b, lease.key, lease.gen)
    ensures
      var row, c := b.tasks[lease.key], Next(b, Outdating(ts, lease, context));
      c.tasks == b.tasks[lease.key := row.(state := Superseded, eventId := |AppendAll(b.log, context)| + 1)]
  {
    hide Inv, AppendAll, Next, Has;
    LeaseActionTakes(b, Outdating(ts, lease, context));
  }

  // ---------- grants and heartbeats ----------

  /** A grant leases the row for thirty minutes under the next generation, in the name of the worker. */
  lemma GrantSays(b: Bus, ts: nat, key: string, actor: string)
    requires Inv(b) && key in b.tasks && b.tasks[key].state == Queued
    ensures
      var row, c := b.tasks[key], Granted(b, ts, key, actor);
      && OnlyRow(b.tasks, c.tasks, key)
      && c.tasks[key].state == Leased && c.tasks[key].gen == row.gen + 1 && c.tasks[key].until == Some(ts + 1_800_000)
      && c.tasks[key].failures == row.failures
      && |c.log| == |b.log| + 1 && c.log[..|b.log|] == b.log
      && c.log[|b.log|].dedupe == LeasedOnce(key, row.gen + 1) && c.log[|b.log|].actor == actor && c.log[|b.log|].ts == ts
  {
    GrantTakes(b, ts, key, actor);
  }

  /** A heartbeat that names a held lease and the card of its task moves its end, and nothing else of the row. */
  lemma BeatSays(b: Bus, e: Event)
    requires e.kind.Beat? && e.dedupe.Text? && !Has(b.log, e.dedupe)
    ensures
      var c := Beaten(b, e);
      if e.kind.named && e.gen > 0 && e.key in b.tasks && b.tasks[e.key].state == Leased && b.tasks[e.key].gen == e.gen
         && e.kind.card == Some(b.tasks[e.key].subject.card) then
        c.tasks == b.tasks[e.key := b.tasks[e.key].(until := Some(e.ts + 1_800_000))]
      else c.tasks == b.tasks
  {
  }

  // ---------- the queue ----------

  /** Superseding a task, once for each event its row stands at. */
  lemma SupersedingSays(b: Bus, ts: nat, key: string, subject: Subject, after: Option<nat>)
    requires key in b.tasks && !Has(b.log, if after.Some? then SupersededAfter(key, after.value) else SupersededUnknown(key))
    ensures
      var row, c := b.tasks[key], Next(b, Superseding(ts, key, subject, after, true));
      c.tasks == if row.state == Superseded then b.tasks else b.tasks[key := row.(state := Superseded, eventId := |b.log| + 1)]
  {
  }

  /** Withdrawing a task: only one that is queued, leased or stopped. */
  lemma WithdrawingSays(b: Bus, ts: nat, key: string, subject: Subject, after: Option<nat>)
    requires key in b.tasks && !Has(b.log, if after.Some? then WithdrawnAfter(key, after.value) else WithdrawnUnknown(key))
    ensures
      var row, c := b.tasks[key], Next(b, Withdrawing(ts, key, subject, after, true));
      c.tasks == if row.state in {Queued, Leased, Stopped} then b.tasks[key := row.(state := Withdrawn, eventId := |b.log| + 1)] else b.tasks
  {
  }

  /** The row can be queued again: it was stopped, withdrawn or superseded, or is an answer that was completed. */
  predicate CanGoAgain(row: Row, queue: string) {
    row.state in {Stopped, Withdrawn, Superseded} || (queue == "answer" && row.state == Completed)
  }

  /** Queueing a task again gives it a clean start. */
  lemma RequeuingSays(b: Bus, ts: nat, key: string, subject: Subject, cause: nat)
    requires key in b.tasks && !Has(b.log, RequeuedAfter(key, cause))
    ensures
      var row, c := b.tasks[key], Next(b, Requeuing(ts, key, subject, cause, true));
      c.tasks == if CanGoAgain(row, subject.queue) then b.tasks[key := row.(state := Queued, failures := 0, eventId := |b.log| + 1)] else b.tasks
  {
  }

  lemma RequestingSays(b: Bus, ts: nat, key: string, subject: Subject, request: nat)
    requires key in b.tasks && !Has(b.log, RequeuedOnRequest(key, request))
    ensures
      var row, c := b.tasks[key], Next(b, Requesting(ts, key, subject, request, true));
      c.tasks == if CanGoAgain(row, subject.queue) then b.tasks[key := row.(state := Queued, failures := 0, eventId := |b.log| + 1)] else b.tasks
  {
  }

  /** Setting an answer again after a fault: an alarm once two failures were read, and one more failure before. */
  lemma SettingAgainSays(b: Bus, a: Action)
    requires a.SettingAgain? && a.accepted && a.key in b.tasks && !Has(b.log, RequeuedAfter(a.key, a.cause))
    ensures
      var row, c := b.tasks[a.key], Next(b, a);
      if a.readFailures >= 2 then c.tasks == b.tasks && Has(c.log, Text("board.alarm:" + a.key))
      else if CanGoAgain(row, a.subject.queue) then
        c.tasks == b.tasks[a.key := row.(state := Queued, failures := row.failures + 1, eventId := |b.log| + 1)]
      else c.tasks == b.tasks
  {
    if a.readFailures >= 2 {
      var alarm := Alarm(a.key, a.subject, a.ts);
      assert [alarm][..0] == [] && AppendAll(b.log, []) == b.log;
      HasStays(b.log, alarm, alarm.dedupe);
    }
  }

  /** An event that its fold rejects leaves the rows as they are, and after it in the log a record that nobody folds. */
  lemma RejectedIsRecorded(b: Bus, e: Event)
    requires !Has(b.log, e.dedupe) && Outcomes(b.tasks, e, |b.log| + 1) == Rejected
    ensures
      var c := Wrote(b, e);
      && c.tasks == b.tasks && |b.log| < |c.log| && c.log[..|b.log|] == b.log && c.log[|b.log|] == e
      && Has(c.log, RejectionOf(e.dedupe))
      && forall k :: |b.log| < k < |c.log| ==> c.log[k].kind == Other && c.log[k].dedupe == RejectionOf(e.dedupe)
  {
    HasStays(b.log + [e], Record(e), RejectionOf(e.dedupe));
  }
}
