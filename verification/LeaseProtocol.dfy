/** What every run of the lease protocol keeps: scripts/core/lease.ts, scripts/core/queue.ts. */
module LeaseProtocol {
  import opened Options
  import opened Tasks
  import opened LeaseSpec

  // ---------- no transition is swallowed ----------

  /** A grant is never swallowed by the unique key nor rejected: the queued row becomes leased under the next generation. */
  lemma GrantTakes(b: Bus, ts: nat, key: string, actor: string)
    requires Inv(b) && key in b.tasks && b.tasks[key].state == Queued
    ensures Granted(b, ts, key, actor).log == b.log + [GrantEvent(b, ts, key, actor)]
    ensures Granted(b, ts, key, actor).tasks == b.tasks[key := GrantedRow(b.tasks[key], ts, |b.log| + 1)]
  {
    NextGrantIsFresh(b, key);
    FreshWrote(b, GrantEvent(b, ts, key, actor), GrantedRow(b.tasks[key], ts, |b.log| + 1));
  }

  function GrantedRow(row: Row, ts: nat, id: nat): Row {
    row.(state := Leased, gen := row.gen + 1, until := Some(ts + LEASE_MS), eventId := id)
  }

  /** The four types that end a lease under its own dedupe key. */
  ghost predicate Ending(e: Event) {
    match e.dedupe
    case CompletedOnce(key, gen) => e.kind.Complete? && e.accepted && e.key == key && e.gen == gen
    case FailedOnce(key, gen) => e.kind.Fail? && AfterALease(e.kind.next) && e.accepted && e.key == key && e.gen == gen
    case ExpiredOnce(key, gen) => e.kind.Expire? && AfterALease(e.kind.next) && e.accepted && e.key == key && e.gen == gen
    case ReleasedOnce(key, gen) => e.kind.Release? && e.accepted && e.key == key && e.gen == gen
    case _ => false
  }

  /** The row an ending event leaves. */
  function EndedRow(row: Row, kind: Kind, id: nat): Row {
    match kind
    case Complete => row.(state := Completed, until := None, eventId := id)
    case Release => row.(state := Queued, until := None, eventId := id)
    case Fail(next, uncounted) => row.(state := next, until := None, failures := row.failures + (if uncounted then 0 else 1), eventId := id)
    case Expire(next, uncounted) => row.(state := next, until := None, failures := row.failures + (if uncounted then 0 else 1), eventId := id)
    case _ => row
  }

  lemma EndIsFresh(b: Bus, e: Event)
    requires Inv(b) && Ending(e) && Holding(b, e.key, e.gen)
    ensures !Has(b.log, e.dedupe) && Genuine(b, e)
  {
    HeldIsNotEnded(b, e.key, e.gen);
  }

  lemma FreshAfterContext(b: Bus, context: seq<Event>, e: Event)
    requires Inv(b) && AllForeign(context) && Holding(b, e.key, e.gen)
    requires Ending(e) || e.dedupe == SupersededAfter(e.key, b.tasks[e.key].eventId)
    ensures !Has(AppendAll(b.log, context), e.dedupe)
  {
    ContextKeeps(b, context);
    HeldIsNotEnded(WithContext(b, context), e.key, e.gen);
  }

  lemma EndFolds(d: Bus, e: Event)
    requires Ending(e) && Holding(d, e.key, e.gen) && !Has(d.log, e.dedupe)
    ensures Wrote(d, e) == Bus(d.log + [e], d.tasks[e.key := EndedRow(d.tasks[e.key], e.kind, |d.log| + 1)])
  {
  }

  /** The end of a held lease is never swallowed nor rejected, after any context. */
  lemma EndTakes(b: Bus, context: seq<Event>, e: Event)
    requires Inv(b) && AllForeign(context) && Ending(e) && Holding(b, e.key, e.gen)
    ensures Wrote(WithContext(b, context), e) ==
            Bus(AppendAll(b.log, context) + [e],
                b.tasks[e.key := EndedRow(b.tasks[e.key], e.kind, |AppendAll(b.log, context)| + 1)])
  {
    FreshAfterContext(b, context, e);
    EndFolds(WithContext(b, context), e);
  }

  lemma EndKeeps(b: Bus, context: seq<Event>, e: Event)
    requires Inv(b) && AllForeign(context) && Ending(e) && Holding(b, e.key, e.gen)
    ensures Inv(Wrote(WithContext(b, context), e))
  {
    ContextKeeps(b, context);
    EndIsFresh(WithContext(b, context), e);
    WroteKeeps(WithContext(b, context), e);
  }

  /** Enqueuing twice is once: a key queued before changes nothing at all; a new one gives a queued row exactly if
      the fold accepts it, and no other row moves. */
  lemma EnqueueTakes(b: Bus, ts: nat, key: string, subject: Subject, accepted: bool)
    requires Inv(b)
    ensures
      var c := Wrote(b, EnqueueEvent(ts, key, subject, accepted));
      && (key in b.tasks || Has(b.log, EnqueuedOnce(key)) ==> c == b)
      && (!Has(b.log, EnqueuedOnce(key)) ==>
            c.tasks == if accepted then b.tasks[key := Row(|b.tasks| + 1, subject, Queued, 0, None, 0, |b.log| + 1)] else b.tasks)
  {
    if key in b.tasks {
      KnownIsEnqueued(b, key);
    } else if !Has(b.log, EnqueuedOnce(key)) {
      NewTaskFolds(b, ts, key, subject, accepted);
    }
  }

  lemma NewTaskFolds(b: Bus, ts: nat, key: string, subject: Subject, accepted: bool)
    requires key !in b.tasks && !Has(b.log, EnqueuedOnce(key))
    ensures Wrote(b, EnqueueEvent(ts, key, subject, accepted)).tasks ==
            if accepted then b.tasks[key := Row(|b.tasks| + 1, subject, Queued, 0, None, 0, |b.log| + 1)] else b.tasks
  {
  }

  /** The row failing a held lease leaves: the third counted failure in a row stops the task unless a fresh
      heartbeat makes it wait instead; a withdrawal withdraws; everything else queues the task again. */
  function FailedRow(row: Row, failure: Failure, readings: Readings, id: nat): Row {
    var uncounted := Uncounted(row, failure, readings);
    var failures := row.failures + (if uncounted then 0 else 1);
    if failure.withdraw then row.(state := Withdrawn, until := None, failures := failures, eventId := id)
    else if failures < FAILURES_TO_STOP || uncounted then row.(state := Queued, until := None, failures := failures, eventId := id)
    else if readings.beatingUntil.Some? then row.(state := Queued, until := None, eventId := id)
    else row.(state := Stopped, until := None, failures := failures, eventId := id)
  }

  /** The event failed appends: a release where a fresh heartbeat puts off the stop. */
  ghost function FailingEvent(b: Bus, ts: nat, actor: string, expired: bool, key: string, gen: nat, failure: Failure, readings: Readings): (e: Event)
    requires Holding(b, key, gen)
    ensures Ending(e) && e.key == key && e.gen == gen
    ensures forall id :: EndedRow(b.tasks[key], e.kind, id) == FailedRow(b.tasks[key], failure, readings, id)
  {
    var uncounted := Uncounted(b.tasks[key], failure, readings);
    var next := StateAfterFailure(b.tasks[key], failure, uncounted);
    if next == Stopped && readings.beatingUntil.Some? then ReleaseEvent(b, ts, actor, key, gen)
    else FailEvent(b, ts, actor, expired, key, gen, next, uncounted)
  }

  lemma FailedLeaseWrites(b: Bus, ts: nat, actor: string, expired: bool, key: string, gen: nat, failure: Failure, readings: Readings, context: seq<Event>)
    requires Holding(b, key, gen)
    ensures FailedLease(b, ts, actor, expired, key, gen, failure, readings, context).tasks ==
            Wrote(WithContext(b, context), FailingEvent(b, ts, actor, expired, key, gen, failure, readings)).tasks
  {
  }

  // ---------- every run ----------

  /** accepted says that the folds take the event for one of the task it names. */
  datatype Action =
    | Enqueueing(ts: nat, key: string, subject: Subject, accepted: bool)
    | Superseding(ts: nat, key: string, subject: Subject, after: Option<nat>, accepted: bool)
    | Withdrawing(ts: nat, key: string, subject: Subject, after: Option<nat>, accepted: bool)
    | Requeuing(ts: nat, key: string, subject: Subject, cause: nat, accepted: bool)
    | Requesting(ts: nat, key: string, subject: Subject, request: nat, accepted: bool)
    | SettingAgain(ts: nat, key: string, subject: Subject, cause: nat, readFailures: nat, accepted: bool)
    | Granting(ts: nat, key: string, actor: string)
    | Renewing(ts: nat, lease: Lease)
    | Completing(ts: nat, lease: Lease, outcome: seq<Event>)
    | Waiting(ts: nat, lease: Lease, context: seq<Event>)
    | Failing(ts: nat, lease: Lease, failure: Failure, readings: Readings, context: seq<Event>)
    | Outdating(ts: nat, lease: Lease, context: seq<Event>)
    | Expiring(ts: nat, key: string, gen: nat, failure: Failure, readings: Readings)
    | Beating(e: Event)
    | Appending(events: seq<Event>)

  /** What other parts of the program may append: context and heartbeats, nothing with a task's own key. */
  ghost predicate Proper(a: Action) {
    match a
    case Completing(_, _, outcome) => AllForeign(outcome)
    case Waiting(_, _, context) => AllForeign(context)
    case Failing(_, _, _, _, context) => AllForeign(context)
    case Outdating(_, _, context) => AllForeign(context)
    case Beating(e) => e.kind.Beat? && e.dedupe.Text?
    case Appending(events) => AllForeign(events)
    case _ => true
  }

  /** The transactions of the queue that append one event and fold it. */
  predicate Queueing(a: Action) {
    a.Enqueueing? || a.Superseding? || a.Withdrawing? || a.Requeuing? || a.Requesting?
  }

  function QueueingEvent(a: Action): Event
    requires Queueing(a)
  {
    match a
    case Enqueueing(ts, key, subject, accepted) => EnqueueEvent(ts, key, subject, accepted)
    case Superseding(ts, key, subject, after, accepted) => SupersedeTaskEvent(ts, key, subject, after, accepted)
    case Withdrawing(ts, key, subject, after, accepted) => WithdrawTaskEvent(ts, key, subject, after, accepted)
    case Requeuing(ts, key, subject, cause, accepted) => RequeueEvent(ts, key, subject, cause, accepted)
    case Requesting(ts, key, subject, request, accepted) => RequestEvent(ts, key, subject, request, accepted)
  }

  /** What a supersede names is not above the event its row stands at, and the folds accept an event of a task that
      has a row. */
  ghost predicate Fits(b: Bus, a: Action) {
    a.Superseding? && a.after.Some? ==> a.accepted && a.key in b.tasks && a.after.value <= b.tasks[a.key].eventId
  }

  ghost function Next(b: Bus, a: Action): Bus
    requires Proper(a)
  {
    match a
    case SettingAgain(ts, key, subject, cause, readFailures, accepted) => SetAgain(b, ts, key, subject, cause, readFailures, accepted)
    case Granting(ts, key, actor) => Granted(b, ts, key, actor)
    case Renewing(ts, lease) => Renewed(b, ts, lease)
    case Completing(ts, lease, outcome) => CompletedLease(b, ts, lease, outcome)
    case Waiting(ts, lease, context) => ReleasedLease(b, ts, lease.actor, lease.key, lease.gen, context)
    case Failing(ts, lease, failure, readings, context) => FailedTask(b, ts, lease, failure, readings, context)
    case Outdating(ts, lease, context) => SupersededLease(b, ts, lease, context)
    case Expiring(ts, key, gen, failure, readings) => FailedLease(b, ts, POLICY, true, key, gen, failure, readings, [])
    case Beating(e) => Beaten(b, e)
    case Appending(events) => WithContext(b, events)
    case _ => Wrote(b, QueueingEvent(a))
  }

  /** Each transaction keeps: the log holds the grants 1 to lease_gen of every
      task and no others; no end of a lease that is held; no task superseded after the event it stands at unless
      it is superseded. */
  lemma NextKeeps(b: Bus, a: Action)
    requires Inv(b) && Proper(a) && Fits(b, a)
    ensures Inv(Next(b, a))
  {
    hide Inv, Wrote;
    if Queueing(a) {
      QueueingKeeps(b, a);
    } else if a.Renewing? {
      if Holding(b, a.lease.key, a.lease.gen) {
        WroteKeeps(b, RenewEvent(b, a.ts, a.lease));
      }
    } else if UnderALease(a) {
      LeaseEndKeeps(b, a);
    } else {
      OtherKeeps(b, a);
    }
  }

  lemma QueueingKeeps(b: Bus, a: Action)
    requires Inv(b) && Queueing(a) && Fits(b, a)
    ensures Inv(Wrote(b, QueueingEvent(a)))
  {
    hide Inv, Wrote;
    WroteKeeps(b, QueueingEvent(a));
  }

  lemma OtherKeeps(b: Bus, a: Action)
    requires Inv(b) && Proper(a) && !Queueing(a) && !UnderALease(a)
    ensures Inv(Next(b, a))
  {
    hide Inv, Wrote;
    match a
    case SettingAgain(ts, key, subject, cause, readFailures, accepted) =>
      ContextKeeps(b, [Alarm(key, subject, ts)]);
      WroteKeeps(b, FaultEvent(ts, key, subject, cause, accepted));
    case Granting(ts, key, actor) =>
      if key in b.tasks && b.tasks[key].state == Queued {
        WroteKeeps(b, GrantEvent(b, ts, key, actor));
      }
    case Beating(e) => WroteKeeps(b, e);
    case Appending(events) => ContextKeeps(b, events);
  }

  lemma LeaseEndKeeps(b: Bus, a: Action)
    requires Inv(b) && Proper(a) && UnderALease(a) && !a.Renewing?
    ensures Inv(Next(b, a))
  {
    if Holding(b, LeaseKey(a), LeaseGen(a)) {
      match a
      case Completing(ts, lease, outcome) => EndKeeps(b, outcome, CompleteEvent(b, ts, lease));
      case Waiting(ts, lease, context) => EndKeeps(b, context, ReleaseEvent(b, ts, lease.actor, lease.key, lease.gen));
      case Failing(ts, lease, failure, readings, context) =>
        if failure.reason == STALE_HEAD && !failure.withdraw {
          SupersedeKeeps(b, ts, lease, context);
        } else if !failure.withdraw && readings.retryAt.Some? {
          EndKeeps(b, context, ReleaseEvent(b, ts, lease.actor, lease.key, lease.gen));
        } else {
          FailKeeps(b, ts, lease.actor, false, lease.key, lease.gen, failure, readings, context);
        }
      case Outdating(ts, lease, context) => SupersedeKeeps(b, ts, lease, context);
      case Expiring(ts, key, gen, failure, readings) => FailKeeps(b, ts, POLICY, true, key, gen, failure, readings, []);
    }
  }

  lemma SupersedeKeeps(b: Bus, ts: nat, lease: Lease, context: seq<Event>)
    requires Inv(b) && AllForeign(context)
    ensures Inv(SupersededLease(b, ts, lease, context))
  {
    if Holding(b, lease.key, lease.gen) {
      ContextKeeps(b, context);
      WroteKeeps(WithContext(b, context), SupersedeEvent(b, ts, lease));
    }
  }

  lemma FailKeeps(b: Bus, ts: nat, actor: string, expired: bool, key: string, gen: nat, failure: Failure, readings: Readings, context: seq<Event>)
    requires Inv(b) && AllForeign(context) && Holding(b, key, gen)
    ensures Inv(FailedLease(b, ts, actor, expired, key, gen, failure, readings, context))
  {
    var uncounted := Uncounted(b.tasks[key], failure, readings);
    var next := StateAfterFailure(b.tasks[key], failure, uncounted);
    if next == Stopped && readings.beatingUntil.Some? {
      EndKeeps(b, context, ReleaseEvent(b, ts, actor, key, gen));
    } else {
      var e := FailEvent(b, ts, actor, expired, key, gen, next, uncounted);
      EndKeeps(b, context, e);
      ContextKeeps(Wrote(WithContext(b, context), e), StopRecords(b, ts, actor, key));
    }
  }

  const EMPTY_BUS := Bus([], map[])

  lemma StartKeeps()
    ensures Inv(EMPTY_BUS) && Projected(EMPTY_BUS)
  {
    assert EMPTY_BUS.log == [];
  }

  /** What a supersede names was read of an earlier state, and the folds accept it if there was a row. */
  ghost predicate ReadBefore(states: seq<Bus>, i: nat, a: Action)
    requires i < |states|
  {
    a.Superseding? ==> (exists j :: 0 <= j <= i && a.after == StateEventOf(states[j].tasks, a.key)) && (a.after.Some? ==> a.accepted)
  }

  ghost predicate IsRun(states: seq<Bus>, actions: seq<Action>) {
    && |states| == |actions| + 1
    && states[0] == EMPTY_BUS
    && forall i :: 0 <= i < |actions| ==>
         Proper(actions[i]) && ReadBefore(states, i, actions[i]) && states[i + 1] == Next(states[i], actions[i])
  }

  /** No row is lost, and none goes back to an earlier event. */
  ghost predicate MovesOn(before: Table, after: Table) {
    forall key :: key in before ==> key in after && before[key].eventId <= after[key].eventId
  }

  lemma WroteMovesOn(b: Bus, e: Event)
    requires RowsMatch(b)
    ensures MovesOn(b.tasks, Wrote(b, e).tasks)
  {
  }

  lemma RowMovesOn(b: Bus, a: Action)
    requires Inv(b) && Proper(a) && UnderALease(a)
    ensures MovesOn(b.tasks, Next(b, a).tasks)
  {
    hide Inv, Next, AppendAll;
    if Holding(b, LeaseKey(a), LeaseGen(a)) {
      LeaseActionTakes(b, a);
      ContextKeeps(b, ContextOf(a));
      ContextGrows(b, a);
    } else {
      StaleHolderChangesNothing(b, a);
    }
  }

  lemma RowsBounded(b: Bus, key: string)
    requires Inv(b) && key in b.tasks
    ensures b.tasks[key].eventId <= |b.log|
  {
  }

  lemma ContextGrows(b: Bus, a: Action)
    requires Inv(b) && Proper(a) && UnderALease(a) && Holding(b, LeaseKey(a), LeaseGen(a))
    ensures b.tasks[LeaseKey(a)].eventId <= RowUnder(b, a).eventId
  {
    hide Inv, Next, AppendAll;
    ContextKeeps(b, ContextOf(a));
    RowsBounded(b, LeaseKey(a));
  }

  lemma OtherMovesOn(b: Bus, a: Action)
    requires Inv(b) && Proper(a) && !UnderALease(a) && !Queueing(a)
    ensures MovesOn(b.tasks, Next(b, a).tasks)
  {
    match a
    case SettingAgain(ts, key, subject, cause, readFailures, accepted) => WroteMovesOn(b, FaultEvent(ts, key, subject, cause, accepted));
    case Granting(ts, key, actor) =>
      if key in b.tasks {
        WroteMovesOn(b, GrantEvent(b, ts, key, actor));
      }
    case Beating(e) => WroteMovesOn(b, e);
    case Appending(events) =>
  }

  lemma NextMovesOn(b: Bus, a: Action)
    requires Inv(b) && Proper(a)
    ensures MovesOn(b.tasks, Next(b, a).tasks)
  {
    if UnderALease(a) {
      RowMovesOn(b, a);
    } else if Queueing(a) {
      WroteMovesOn(b, QueueingEvent(a));
    } else {
      OtherMovesOn(b, a);
    }
  }

  lemma MovesOnTwice(a: Table, b: Table, c: Table)
    requires MovesOn(a, b) && MovesOn(b, c)
    ensures MovesOn(a, c)
  {
  }

  lemma NothingMoves(a: Table)
    ensures MovesOn(a, a)
  {
  }

  /** An event_id read of an earlier state is not above the present one. */
  lemma ReadingFits(states: seq<Bus>, i: nat, a: Action)
    requires i < |states| && ReadBefore(states, i, a) && forall j :: 0 <= j <= i ==> MovesOn(states[j].tasks, states[i].tasks)
    ensures Fits(states[i], a)
  {
  }

  /** Dedupe freshness in every state any run of the writers reaches. */
  lemma {:induction false} EveryRunKeeps(states: seq<Bus>, actions: seq<Action>, i: nat)
    requires IsRun(states, actions) && i < |states|
    ensures Inv(states[i])
    ensures forall j :: 0 <= j <= i ==> MovesOn(states[j].tasks, states[i].tasks)
  {
    hide Inv, Next, MovesOn, Proper, ReadBefore;
    if i == 0 {
      StartKeeps();
      NothingMoves(states[0].tasks);
    } else {
      EveryRunKeeps(states, actions, i - 1);
      ReadingFits(states, i - 1, actions[i - 1]);
      NextKeeps(states[i - 1], actions[i - 1]);
      NextMovesOn(states[i - 1], actions[i - 1]);
      forall j | 0 <= j <= i ensures MovesOn(states[j].tasks, states[i].tasks) {
        if j < i {
          MovesOnTwice(states[j].tasks, states[i - 1].tasks, states[i].tasks);
        } else {
          NothingMoves(states[i].tasks);
        }
      }
    }
  }

  lemma NextProjected(b: Bus, a: Action)
    requires Projected(b) && Proper(a)
    ensures Projected(Next(b, a))
  {
    if Queueing(a) {
      WroteProjected(b, QueueingEvent(a));
    } else if UnderALease(a) {
      LeaseActionProjected(b, a);
    } else {
      OtherProjected(b, a);
    }
  }

  lemma OtherProjected(b: Bus, a: Action)
    requires Projected(b) && Proper(a) && !Queueing(a) && !UnderALease(a)
    ensures Projected(Next(b, a))
  {
    match a
    case SettingAgain(ts, key, subject, cause, readFailures, accepted) =>
      ContextProjected(b, [Alarm(key, subject, ts)]);
      WroteProjected(b, FaultEvent(ts, key, subject, cause, accepted));
    case Granting(ts, key, actor) =>
      if key in b.tasks {
        WroteProjected(b, GrantEvent(b, ts, key, actor));
      }
    case Beating(e) => WroteProjected(b, e);
    case Appending(events) => ContextProjected(b, events);
  }

  lemma LeaseActionProjected(b: Bus, a: Action)
    requires Projected(b) && Proper(a) && UnderALease(a)
    ensures Projected(Next(b, a))
  {
    if Holding(b, LeaseKey(a), LeaseGen(a)) {
      var d, e := WithContext(b, ContextOf(a)), LeaseEvent(b, a);
      ContextProjected(b, ContextOf(a));
      WroteProjected(d, e);
      if a.Failing? {
        ContextProjected(Wrote(d, e), StopRecords(b, a.ts, a.lease.actor, a.lease.key));
      } else if a.Expiring? {
        ContextProjected(Wrote(d, e), StopRecords(b, a.ts, POLICY, a.key));
      }
    }
  }

  /** In every state of every run the tasks table is the in-order fold of the log. */
  lemma {:induction false} EveryRunProjected(states: seq<Bus>, actions: seq<Action>, i: nat)
    requires IsRun(states, actions) && i < |states|
    ensures Projected(states[i])
  {
    if i == 0 {
      StartKeeps();
    } else {
      EveryRunProjected(states, actions, i - 1);
      NextProjected(states[i - 1], actions[i - 1]);
    }
  }

  // ---------- stale holders ----------

  /** The action speaks for a holder, or for the policy that judged one. */
  ghost predicate UnderALease(a: Action) {
    a.Renewing? || a.Completing? || a.Waiting? || a.Failing? || a.Outdating? || a.Expiring?
  }

  ghost function LeaseKey(a: Action): string
    requires UnderALease(a)
  {
    if a.Expiring? then a.key else a.lease.key
  }

  ghost function LeaseGen(a: Action): nat
    requires UnderALease(a)
  {
    if a.Expiring? then a.gen else a.lease.gen
  }

  /** A holder whose generation has passed, or whose lease has ended, changes neither the log nor the table;
      and in any state it is only a task's held generation that can act on it. */
  lemma StaleHolderChangesNothing(b: Bus, a: Action)
    requires Inv(b) && Proper(a) && UnderALease(a)
    ensures !Holding(b, LeaseKey(a), LeaseGen(a)) ==> Next(b, a) == b
    ensures forall key :: key in b.tasks && key != LeaseKey(a) ==> key in Next(b, a).tasks && Next(b, a).tasks[key] == b.tasks[key]
  {
    if Holding(b, LeaseKey(a), LeaseGen(a)) {
      LeaseActionTakes(b, a);
    }
  }

  /** What an action under a held lease makes of its row. */
  ghost function RowUnder(b: Bus, a: Action): Row
    requires Proper(a) && UnderALease(a) && Holding(b, LeaseKey(a), LeaseGen(a))
  {
    var row := b.tasks[LeaseKey(a)];
    match a
    case Renewing(ts, lease) =>
      if Has(b.log, RenewedAt(lease.key, lease.gen, ts)) then row else row.(until := Some(ts + LEASE_MS), eventId := |b.log| + 1)
    case Completing(ts, lease, outcome) => row.(state := Completed, until := None, eventId := |AppendAll(b.log, outcome)| + 1)
    case Waiting(ts, lease, context) => row.(state := Queued, until := None, eventId := |AppendAll(b.log, context)| + 1)
    case Failing(ts, lease, failure, readings, context) =>
      var id := |AppendAll(b.log, context)| + 1;
      if failure.reason == STALE_HEAD && !failure.withdraw then row.(state := Superseded, eventId := id)
      else if !failure.withdraw && readings.retryAt.Some? then row.(state := Queued, until := None, eventId := id)
      else FailedRow(row, failure, readings, id)
    case Outdating(ts, lease, context) => row.(state := Superseded, eventId := |AppendAll(b.log, context)| + 1)
    case Expiring(ts, key, gen, failure, readings) => FailedRow(row, failure, readings, |b.log| + 1)
  }

  /** The event the action ends or moves the lease by, and the context it appends before. */
  ghost function LeaseEvent(b: Bus, a: Action): Event
    requires Proper(a) && UnderALease(a) && Holding(b, LeaseKey(a), LeaseGen(a))
  {
    match a
    case Renewing(ts, lease) => RenewEvent(b, ts, lease)
    case Completing(ts, lease, outcome) => CompleteEvent(b, ts, lease)
    case Waiting(ts, lease, context) => ReleaseEvent(b, ts, lease.actor, lease.key, lease.gen)
    case Failing(ts, lease, failure, readings, context) =>
      if failure.reason == STALE_HEAD && !failure.withdraw then SupersedeEvent(b, ts, lease)
      else if !failure.withdraw && readings.retryAt.Some? then ReleaseEvent(b, ts, lease.actor, lease.key, lease.gen)
      else FailingEvent(b, ts, lease.actor, false, lease.key, lease.gen, failure, readings)
    case Outdating(ts, lease, context) => SupersedeEvent(b, ts, lease)
    case Expiring(ts, key, gen, failure, readings) => FailingEvent(b, ts, POLICY, true, key, gen, failure, readings)
  }

  ghost function ContextOf(a: Action): seq<Event>
    requires UnderALease(a)
  {
    match a
    case Completing(_, _, outcome) => outcome
    case Waiting(_, _, context) => context
    case Failing(_, _, _, _, context) => context
    case Outdating(_, _, context) => context
    case _ => []
  }

  lemma LeaseActionWrites(b: Bus, a: Action)
    requires Proper(a) && UnderALease(a) && Holding(b, LeaseKey(a), LeaseGen(a))
    ensures Next(b, a).tasks == Wrote(WithContext(b, ContextOf(a)), LeaseEvent(b, a)).tasks
  {
    match a
    case Failing(ts, lease, failure, readings, context) =>
      FailedLeaseWrites(b, ts, lease.actor, false, lease.key, lease.gen, failure, readings, context);
    case Expiring(ts, key, gen, failure, readings) =>
      FailedLeaseWrites(b, ts, POLICY, true, key, gen, failure, readings, []);
    case _ =>
  }

  lemma LeaseEventFolds(b: Bus, a: Action, d: Bus)
    requires Proper(a) && UnderALease(a) && Holding(b, LeaseKey(a), LeaseGen(a))
    requires d.tasks == b.tasks && |d.log| == |AppendAll(b.log, ContextOf(a))| && !Has(d.log, LeaseEvent(b, a).dedupe)
    requires a.Renewing? ==> !Has(b.log, LeaseEvent(b, a).dedupe)
    ensures Wrote(d, LeaseEvent(b, a)).tasks == b.tasks[LeaseKey(a) := RowUnder(b, a)]
  {
    hide Wrote, Has;
    var e := LeaseEvent(b, a);
    if Ending(e) {
      EndFolds(d, e);
    } else {
      MoveFolds(b, a, d);
    }
  }

  /** A renewal, or a supersede. */
  lemma MoveFolds(b: Bus, a: Action, d: Bus)
    requires Proper(a) && UnderALease(a) && Holding(b, LeaseKey(a), LeaseGen(a)) && !Ending(LeaseEvent(b, a))
    requires d.tasks == b.tasks && |d.log| == |AppendAll(b.log, ContextOf(a))| && !Has(d.log, LeaseEvent(b, a).dedupe)
    requires a.Renewing? ==> !Has(b.log, LeaseEvent(b, a).dedupe)
    ensures Wrote(d, LeaseEvent(b, a)).tasks == b.tasks[LeaseKey(a) := RowUnder(b, a)]
  {
    hide Has;
  }

  /** No action under a held lease is swallowed or rejected, but a renewal recorded at the same instant; it
      changes its own row alone, and as RowUnder says. */
  lemma LeaseActionTakes(b: Bus, a: Action)
    requires Inv(b) && Proper(a) && UnderALease(a) && Holding(b, LeaseKey(a), LeaseGen(a))
    ensures Next(b, a).tasks == b.tasks[LeaseKey(a) := RowUnder(b, a)]
  {
    LeaseActionWrites(b, a);
    if a.Renewing? && Has(b.log, LeaseEvent(b, a).dedupe) {
      assert b.tasks[LeaseKey(a) := b.tasks[LeaseKey(a)]] == b.tasks;
    } else {
      if !a.Renewing? {
        LeaseEventIsFresh(b, a);
      }
      LeaseEventFolds(b, a, WithContext(b, ContextOf(a)));
    }
  }

  lemma LeaseEventIsFresh(b: Bus, a: Action)
    requires Inv(b) && Proper(a) && UnderALease(a) && Holding(b, LeaseKey(a), LeaseGen(a)) && !a.Renewing?
    ensures !Has(AppendAll(b.log, ContextOf(a)), LeaseEvent(b, a).dedupe)
  {
    FreshAfterContext(b, ContextOf(a), LeaseEvent(b, a));
  }
}
