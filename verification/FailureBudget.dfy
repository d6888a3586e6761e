/** The failure budget of a task: scripts/core/lease.ts, scripts/core/queue.ts. */
module FailureBudget {
  import opened Options
  import opened Tasks
  import opened LeaseSpec
  import opened LeaseProtocol

  ghost predicate RowInBudget(row: Row) {
    && (row.state in {Queued, Leased, Completed} ==> row.failures < FAILURES_TO_STOP)
    && (row.state == Stopped ==> row.failures == FAILURES_TO_STOP)
  }

  /** A task at work or done has fewer than three failures, a stopped one exactly three. */
  ghost predicate Budget(b: Bus) {
    forall key :: key in b.tasks ==> RowInBudget(b.tasks[key])
  }

  /** The requeue after a fault goes through: the failures the caller read let it, its key is new, and the fold
      takes it. */
  ghost predicate SetsAgain(b: Bus, a: Action) {
    && a.SettingAgain? && a.accepted && a.readFailures + 1 < FAILURES_TO_STOP && !Has(b.log, RequeuedAfter(a.key, a.cause))
    && a.key in b.tasks && Requeuable(b.tasks[a.key].state, a.subject.queue)
  }

  /** The guard of setAgainAfterItsStop holds again in the transaction of a requeue that goes through. */
  ghost predicate StillInBudget(b: Bus, a: Action) {
    SetsAgain(b, a) ==> b.tasks[a.key].failures + 1 < FAILURES_TO_STOP
  }

  lemma WroteInBudget(b: Bus, e: Event)
    requires Budget(b)
    requires Outcomes(b.tasks, e, |b.log| + 1).Written? ==> RowInBudget(Outcomes(b.tasks, e, |b.log| + 1).row)
    ensures Budget(Wrote(b, e))
  {
  }

  lemma ChangedInBudget(b: Bus, c: Bus, key: string, row: Row)
    requires Budget(b) && c.tasks == b.tasks[key := row] && RowInBudget(row)
    ensures Budget(c)
  {
  }

  /** Every transaction keeps the budget, and a requeue after a fault keeps it exactly if its guard still holds:
      the row is read before the transaction, and the code does not read it again. */
  lemma NextInBudget(b: Bus, a: Action)
    requires Inv(b) && Budget(b) && Proper(a)
    ensures Budget(Next(b, a)) <==> StillInBudget(b, a)
  {
    if UnderALease(a) {
      LeaseInBudget(b, a);
    } else if a.Granting? {
      if a.key in b.tasks && b.tasks[a.key].state == Queued {
        GrantTakes(b, a.ts, a.key, a.actor);
        ChangedInBudget(b, Next(b, a), a.key, GrantedRow(b.tasks[a.key], a.ts, |b.log| + 1));
      }
    } else if a.Beating? {
      WroteInBudget(b, a.e);
    } else if SetsAgain(b, a) {
      SetAgainInBudgetIff(b, a);
    } else if a.SettingAgain? {
      NotSetAgain(b, a);
    } else if Queueing(a) {
      QueueInBudget(b, a);
    }
  }

  /** A requeue after a fault that does not go through leaves the rows alone. */
  lemma NotSetAgain(b: Bus, a: Action)
    requires a.SettingAgain? && !SetsAgain(b, a)
    ensures Next(b, a).tasks == b.tasks
  {
  }

  lemma QueueInBudget(b: Bus, a: Action)
    requires Budget(b) && Queueing(a)
    ensures Budget(Next(b, a))
  {
    WroteInBudget(b, QueueingEvent(a));
  }

  lemma LeaseInBudget(b: Bus, a: Action)
    requires Inv(b) && Budget(b) && Proper(a) && UnderALease(a)
    ensures Budget(Next(b, a))
  {
    if Holding(b, LeaseKey(a), LeaseGen(a)) {
      assert RowInBudget(b.tasks[LeaseKey(a)]);
      LeaseActionTakes(b, a);
      ChangedInBudget(b, Next(b, a), LeaseKey(a), RowUnder(b, a));
    } else {
      StaleHolderChangesNothing(b, a);
    }
  }

  /** A requeue after a fault that goes through counts one failure more, whatever the caller read. */
  lemma SetAgainInBudgetIff(b: Bus, a: Action)
    requires Budget(b) && SetsAgain(b, a)
    ensures Next(b, a).tasks[a.key].failures == b.tasks[a.key].failures + 1 && Next(b, a).tasks[a.key].state == Queued
    ensures Budget(Next(b, a)) <==> b.tasks[a.key].failures + 1 < FAILURES_TO_STOP
  {
    var e := FaultEvent(a.ts, a.key, a.subject, a.cause, a.accepted);
    var row := b.tasks[a.key].(state := Queued, failures := b.tasks[a.key].failures + 1, eventId := |b.log| + 1);
    assert Outcomes(b.tasks, e, |b.log| + 1) == Written(row);
    if row.failures < FAILURES_TO_STOP {
      ChangedInBudget(b, Next(b, a), a.key, row);
    } else {
      assert !RowInBudget(Next(b, a).tasks[a.key]);
    }
  }

  ghost predicate AlwaysInBudget(states: seq<Bus>) {
    forall i :: 0 <= i < |states| ==> Budget(states[i])
  }

  ghost predicate AlwaysStillInBudget(states: seq<Bus>, actions: seq<Action>)
    requires |actions| <= |states|
  {
    forall k :: 0 <= k < |actions| ==> StillInBudget(states[k], actions[k])
  }

  /** The budget holds in every state of a run exactly when every requeue after a fault that goes through still
      finds fewer than two failures. */
  lemma InBudgetIff(states: seq<Bus>, actions: seq<Action>)
    requires IsRun(states, actions)
    ensures AlwaysInBudget(states) <==> AlwaysStillInBudget(states, actions)
  {
    hide Next, Budget, StillInBudget, Inv;
    if AlwaysInBudget(states) {
      forall k | 0 <= k < |actions| ensures StillInBudget(states[k], actions[k]) {
        EveryRunKeeps(states, actions, k);
        NextInBudget(states[k], actions[k]);
        assert Budget(states[k + 1]);
      }
    }
    if AlwaysStillInBudget(states, actions) {
      forall i | 0 <= i < |states| ensures Budget(states[i]) {
        InBudgetThrough(states, actions, i);
      }
    }
  }

  lemma StartInBudget()
    ensures Budget(EMPTY_BUS)
  {
  }

  lemma {:induction false} InBudgetThrough(states: seq<Bus>, actions: seq<Action>, i: nat)
    requires IsRun(states, actions) && i < |states| && AlwaysStillInBudget(states, actions)
    ensures Budget(states[i])
  {
    hide Next, Budget, StillInBudget, Inv;
    if i == 0 {
      StartInBudget();
    } else {
      InBudgetThrough(states, actions, i - 1);
      EveryRunKeeps(states, actions, i - 1);
      NextInBudget(states[i - 1], actions[i - 1]);
    }
  }

  // ---------- one process requeues ----------

  /** The action queues the task again; only bus:run does, and it is one process with one thread of control. */
  predicate Requeues(a: Action, key: string) {
    (a.Requeuing? || a.Requesting? || a.SettingAgain?) && a.key == key
  }

  /** What deriveQueues reads of an answer it sets again: it is completed, and has failed so often. */
  predicate ReadCompleted(b: Bus, a: Action)
    requires a.SettingAgain?
  {
    a.key in b.tasks && b.tasks[a.key].state == Completed && b.tasks[a.key].failures == a.readFailures
  }

  predicate NotRequeued(actions: seq<Action>, key: string, from: nat, end: nat)
    requires from <= end <= |actions|
  {
    forall m :: from <= m < end ==> !Requeues(actions[m], key)
  }

  /** The row an action sets again was read earlier, and whoever requeues has requeued no such task since. */
  ghost predicate ReadInTurn(states: seq<Bus>, actions: seq<Action>, k: nat)
    requires k < |actions| < |states|
  {
    actions[k].SettingAgain? ==> exists j :: 0 <= j <= k && ReadCompleted(states[j], actions[k]) && NotRequeued(actions, actions[k].key, j, k)
  }

  ghost predicate OneRequeuer(states: seq<Bus>, actions: seq<Action>)
    requires |actions| < |states|
  {
    forall k :: 0 <= k < |actions| ==> ReadInTurn(states, actions, k)
  }

  /** A task that is done: completed or superseded, with so many failures. */
  ghost predicate Done(b: Bus, key: string, failures: nat) {
    key in b.tasks && b.tasks[key].state in {Completed, Superseded} && b.tasks[key].failures == failures
  }

  lemma WroteLeavesDone(b: Bus, e: Event, key: string, failures: nat)
    requires Done(b, key, failures) && !(e.kind.Requeue? && e.key == key)
    ensures Done(Wrote(b, e), key, failures)
  {
  }

  /** Nothing but a requeue moves a completed task on, except that it may be superseded. */
  lemma NextLeavesDone(b: Bus, a: Action, key: string, failures: nat)
    requires Inv(b) && Proper(a) && Done(b, key, failures) && !Requeues(a, key)
    ensures Done(Next(b, a), key, failures)
  {
    hide Inv, Wrote;
    if UnderALease(a) {
      StaleHolderChangesNothing(b, a);
    } else if Queueing(a) {
      WroteLeavesDone(b, QueueingEvent(a), key, failures);
    } else if a.SettingAgain? {
      WroteLeavesDone(b, FaultEvent(a.ts, a.key, a.subject, a.cause, a.accepted), key, failures);
    } else if a.Granting? {
      if a.key in b.tasks {
        WroteLeavesDone(b, GrantEvent(b, a.ts, a.key, a.actor), key, failures);
      }
    } else if a.Beating? {
      WroteLeavesDone(b, a.e, key, failures);
    }
  }

  lemma {:induction false} DoneUntilRequeued(states: seq<Bus>, actions: seq<Action>, j: nat, k: nat, key: string, failures: nat)
    requires IsRun(states, actions) && j <= k <= |actions| && Done(states[j], key, failures) && NotRequeued(actions, key, j, k)
    ensures Done(states[k], key, failures)
    decreases k
  {
    hide Next, Inv, Done, Proper;
    if j < k {
      DoneUntilRequeued(states, actions, j, k - 1, key, failures);
      EveryRunKeeps(states, actions, k - 1);
      NextLeavesDone(states[k - 1], actions[k - 1], key, failures);
    }
  }

  /** What was read of an answer still holds when it is set again. */
  lemma ReadStillHolds(states: seq<Bus>, actions: seq<Action>, k: nat)
    requires IsRun(states, actions) && k < |actions| && ReadInTurn(states, actions, k)
    ensures StillInBudget(states[k], actions[k])
  {
    hide Next, Inv;
    if actions[k].SettingAgain? {
      var j :| 0 <= j <= k && ReadCompleted(states[j], actions[k]) && NotRequeued(actions, actions[k].key, j, k);
      DoneUntilRequeued(states, actions, j, k, actions[k].key, actions[k].readFailures);
    }
  }

  /** One process requeues, so the budget holds in every state of every run: whatever the workers do between the
      reading of an answer and its requeue, its failures are those that were read. */
  lemma EveryRunInBudget(states: seq<Bus>, actions: seq<Action>)
    requires IsRun(states, actions) && OneRequeuer(states, actions)
    ensures AlwaysInBudget(states)
  {
    hide Next, Budget, StillInBudget, Inv;
    forall k | 0 <= k < |actions| ensures StillInBudget(states[k], actions[k]) {
      ReadStillHolds(states, actions, k);
    }
    InBudgetIff(states, actions);
  }
}
