/** The tasks table and its folds: scripts/core/queue.ts. Event i of the log has the id i + 1. */
module Tasks {
  import opened Options

  const LEASE_MS: nat := 30 * 60_000
  const FAILURES_TO_STOP: nat := 3

  datatype TaskState = Queued | Leased | Completed | Stopped | Withdrawn | Superseded

  /** What a task is about; it never changes. */
  datatype Subject = Subject(queue: string, card: nat, pr: Option<nat>, head: Option<string>)

  datatype Row = Row(id: nat, subject: Subject, state: TaskState, gen: nat, until: Option<nat>, failures: nat, eventId: nat)

  /** The event types the task folds know; Other stands for every type they do not. */
  datatype Kind =
    | Enqueue
    | Supersede
    | Requeue(fault: bool)
    | Withdraw
    | Lease
    | Renew
    | Complete
    | Fail(next: TaskState, uncounted: bool)
    | Expire(next: TaskState, uncounted: bool)
    | Release
    | Beat(card: Option<nat>, named: bool)
    | Other

  /** The unique key of an event. The program prints it; here the printed parts stay apart. */
  datatype Dedupe =
    | EnqueuedOnce(key: string)
    | SupersededAfter(key: string, after: nat)
    | SupersededUnknown(key: string)
    | RequeuedAfter(key: string, failure: nat)
    | RequeuedOnRequest(key: string, request: nat)
    | RequeuedLegacy(key: string, gen: nat)
    | WithdrawnAfter(key: string, after: nat)
    | WithdrawnUnknown(key: string)
    | LeasedOnce(key: string, gen: nat)
    | RenewedAt(key: string, gen: nat, ts: nat)
    | CompletedOnce(key: string, gen: nat)
    | FailedOnce(key: string, gen: nat)
    | ExpiredOnce(key: string, gen: nat)
    | ReleasedOnce(key: string, gen: nat)
    | RejectionOf(rejected: Dedupe)
    | Text(text: string)

  /** accepted: identityOf finds that task_key is the key of the task the event names (see TaskKeys).
      gen 0 stands for a lease_gen that is no positive integer. */
  datatype Event = Event(kind: Kind, key: string, subject: Subject, gen: nat, ts: nat, actor: string, accepted: bool, dedupe: Dedupe)

  type Table = map<string, Row>

  predicate Requeuable(state: TaskState, queue: string) {
    state in {Stopped, Withdrawn, Superseded} || (queue == "answer" && state == Completed)
  }

  predicate Unfinished(state: TaskState) {
    state in {Queued, Leased, Stopped}
  }

  predicate AfterALease(state: TaskState) {
    state in {Queued, Withdrawn, Stopped}
  }

  /** What a fold does to the row of the event's task. */
  datatype Outcome = Rejected | Kept | Written(row: Row)

  predicate HeldUnder(row: Option<Row>, gen: nat) {
    row.Some? && row.value.state == Leased && gen > 0 && row.value.gen == gen
  }

  /** foldEnqueued to foldHeartbeat; next is the AUTOINCREMENT id a new row would get. */
  function FoldRow(row: Option<Row>, e: Event, id: nat, next: nat): Outcome {
    if e.kind.Other? then Kept
    else if e.kind.Beat? then FoldBeat(row, e)
    else if !e.accepted then Rejected
    else if e.kind.Enqueue? then
      if row == None then Written(Row(next, e.subject, Queued, 0, None, 0, id)) else Rejected
    else if row == None then Rejected
    else FoldKnown(row.value, e, id)
  }

  /** foldHeartbeat: it moves the end of the lease it names, and no event_id. */
  function FoldBeat(row: Option<Row>, e: Event): Outcome
    requires e.kind.Beat?
  {
    if e.kind.card == None then Rejected
    else if !e.kind.named then Kept
    else if e.gen == 0 then Rejected
    else if HeldUnder(row, e.gen) && row.value.subject.card == e.kind.card.value then
      Written(row.value.(until := Some(e.ts + LEASE_MS)))
    else Kept
  }

  function FoldKnown(row: Row, e: Event, id: nat): Outcome
    requires e.accepted
  {
    match e.kind
    case Supersede =>
      if row.state == Superseded then Rejected else Written(row.(state := Superseded, eventId := id))
    case Requeue(fault) =>
      if !Requeuable(row.state, e.subject.queue) then Rejected
      else Written(row.(state := Queued, failures := if fault then row.failures + 1 else 0, eventId := id))
    case Withdraw =>
      if !Unfinished(row.state) then Rejected else Written(row.(state := Withdrawn, eventId := id))
    case Lease =>
      if row.state != Queued || e.gen == 0 || e.gen != row.gen + 1 then Rejected
      else Written(row.(state := Leased, gen := row.gen + 1, until := Some(e.ts + LEASE_MS), eventId := id))
    case Renew =>
      if !HeldUnder(Some(row), e.gen) then Rejected
      else Written(row.(until := Some(e.ts + LEASE_MS), eventId := id))
    case Complete =>
      if !HeldUnder(Some(row), e.gen) then Rejected
      else Written(row.(state := Completed, until := None, eventId := id))
    case Fail(next, uncounted) => FoldFailed(row, e, id, next, uncounted)
    case Expire(next, uncounted) => FoldFailed(row, e, id, next, uncounted)
    case Release =>
      if !HeldUnder(Some(row), e.gen) then Rejected
      else Written(row.(state := Queued, until := None, eventId := id))
    case _ => Rejected
  }

  function FoldFailed(row: Row, e: Event, id: nat, next: TaskState, uncounted: bool): Outcome {
    if !HeldUnder(Some(row), e.gen) || !AfterALease(next) then Rejected
    else Written(row.(state := next, until := None, failures := row.failures + (if uncounted then 0 else 1), eventId := id))
  }

  function RowOf(tasks: Table, key: string): Option<Row> {
    if key in tasks then Some(tasks[key]) else None
  }

  function Outcomes(tasks: Table, e: Event, id: nat): Outcome {
    FoldRow(RowOf(tasks, e.key), e, id, |tasks| + 1)
  }

  function Folded(tasks: Table, e: Event, id: nat): Table {
    match Outcomes(tasks, e, id)
    case Written(row) => tasks[e.key := row]
    case _ => tasks
  }

  /** The in-order fold of the first n events. */
  ghost function Replay(log: seq<Event>, n: nat): Table
    requires n <= |log|
  {
    if n == 0 then map[] else Folded(Replay(log, n - 1), log[n - 1], n)
  }

  lemma {:induction false} ReplayPrefix(log: seq<Event>, later: seq<Event>, n: nat)
    requires n <= |log| && n <= |later| && log[..n] == later[..n]
    ensures Replay(log, n) == Replay(later, n)
  {
    if n > 0 {
      assert log[..n - 1] == log[..n][..n - 1] == later[..n - 1];
      assert log[n - 1] == log[..n][n - 1] == later[n - 1];
      ReplayPrefix(log, later, n - 1);
    }
  }

  // ---------- what a row says about the history of its task, in any log ----------

  ghost function At(log: seq<Event>, key: string, n: nat): Option<Row>
    requires n <= |log|
  {
    RowOf(Replay(log, n), key)
  }

  ghost function GenAt(log: seq<Event>, key: string, n: nat): nat
    requires n <= |log|
  {
    match At(log, key, n) case None => 0 case Some(row) => row.gen
  }

  ghost predicate HeldAt(log: seq<Event>, key: string, n: nat, gen: nat)
    requires n <= |log|
  {
    HeldUnder(At(log, key, n), gen)
  }

  /** Event i is folded into the row of its task. */
  ghost predicate AppliedAt(log: seq<Event>, i: nat)
    requires i < |log|
  {
    Outcomes(Replay(log, i), log[i], i + 1).Written?
  }

  /** Event i grants a lease on the task. */
  ghost predicate GrantAt(log: seq<Event>, key: string, i: nat)
    requires i < |log|
  {
    log[i].key == key && log[i].kind.Lease? && AppliedAt(log, i)
  }

  /** Event i ends the lease on the task, whatever its type. */
  ghost predicate EndAt(log: seq<Event>, key: string, i: nat)
    requires i < |log|
  {
    HeldAt(log, key, i, GenAt(log, key, i)) && !HeldAt(log, key, i + 1, GenAt(log, key, i))
  }

  ghost function Grants(log: seq<Event>, key: string, n: nat): seq<nat>
    requires n <= |log|
  {
    if n == 0 then []
    else Grants(log, key, n - 1) + (if GrantAt(log, key, n - 1) then [log[n - 1].gen] else [])
  }

  /** One event moves the generation by a grant alone, and a lease starts at a grant alone. */
  lemma OneEvent(log: seq<Event>, key: string, i: nat)
    requires i < |log|
    ensures GrantAt(log, key, i) ==> GenAt(log, key, i + 1) == GenAt(log, key, i) + 1 == log[i].gen && HeldAt(log, key, i + 1, log[i].gen)
    ensures !GrantAt(log, key, i) ==> GenAt(log, key, i + 1) == GenAt(log, key, i)
    ensures GrantAt(log, key, i) ==> !HeldAt(log, key, i, GenAt(log, key, i))
    ensures forall g :: !HeldAt(log, key, i, g) && HeldAt(log, key, i + 1, g) ==> GrantAt(log, key, i)
  {
  }

  lemma NothingGranted(log: seq<Event>, key: string)
    ensures GenAt(log, key, 0) == 0 && Grants(log, key, 0) == []
  {
  }

  /** The generations granted on a task are 1, 2, 3, ... with none skipped or repeated; the row carries the last. */
  lemma {:induction false} GrantsCountUp(log: seq<Event>, key: string, n: nat)
    requires n <= |log|
    ensures |Grants(log, key, n)| == GenAt(log, key, n)
    ensures forall g :: 0 <= g < |Grants(log, key, n)| ==> Grants(log, key, n)[g] == g + 1
  {
    hide GrantAt, GenAt;
    if n == 0 {
      NothingGranted(log, key);
    } else {
      GrantsCountUp(log, key, n - 1);
      OneEvent(log, key, n - 1);
    }
  }

  lemma {:induction false} GenerationsGrow(log: seq<Event>, key: string, i: nat, j: nat)
    requires i <= j <= |log|
    ensures GenAt(log, key, i) <= GenAt(log, key, j)
    decreases j
  {
    if i < j {
      GenerationsGrow(log, key, i, j - 1);
      OneEvent(log, key, j - 1);
    }
  }

  /** A lease held under one generation at two moments was held under it at every moment between. */
  lemma {:induction false} HeldThroughout(log: seq<Event>, key: string, i: nat, m: nat, j: nat, gen: nat)
    requires i <= m <= j <= |log| && HeldAt(log, key, i, gen) && HeldAt(log, key, j, gen)
    ensures HeldAt(log, key, m, gen)
    decreases j - m
  {
    if m < j {
      HeldThroughout(log, key, i, m + 1, j, gen);
      OneEvent(log, key, m);
      GenerationsGrow(log, key, i, m);
    }
  }

  /** The types a holder's writer appends under its lease_gen. */
  predicate ByTheHolder(kind: Kind) {
    kind.Renew? || kind.Complete? || kind.Fail? || kind.Expire? || kind.Release?
  }

  /** Fencing: if an event under generation gen of a task is applied, the lease granted under that generation was
      held without a break from its grant up to the event: nobody else was granted the task, and nothing ended
      the lease, in between. */
  lemma Fencing(log: seq<Event>, key: string, i: nat, m: nat, j: nat)
    requires i < m <= j < |log| && GrantAt(log, key, i)
    requires log[j].key == key && ByTheHolder(log[j].kind) && AppliedAt(log, j) && log[j].gen == log[i].gen
    ensures HeldAt(log, key, m, log[i].gen)
    ensures !GrantAt(log, key, m)
    ensures m < j ==> !EndAt(log, key, m)
  {
    OneEvent(log, key, i);
    HeldThroughout(log, key, i + 1, m, j, log[i].gen);
    OneEvent(log, key, m);
    if m < j {
      HeldThroughout(log, key, i + 1, m + 1, j, log[i].gen);
    }
  }

  /** Each generation is ended by at most one event. */
  lemma OneEndPerGeneration(log: seq<Event>, key: string, i: nat, j: nat)
    requires i < j < |log| && EndAt(log, key, i) && EndAt(log, key, j)
    ensures GenAt(log, key, i) < GenAt(log, key, j)
  {
    GenerationsGrow(log, key, i, j);
    var gen := GenAt(log, key, i);
    if gen == GenAt(log, key, j) {
      HeldThroughout(log, key, i, i + 1, j, gen);
    }
  }

  // ---------- the columns of a row, read off the history ----------

  /** The id of the last event applied to the task, heartbeats aside. */
  ghost function LastMove(log: seq<Event>, key: string, n: nat): nat
    requires n <= |log|
  {
    if n == 0 then 0
    else if log[n - 1].key == key && AppliedAt(log, n - 1) && !log[n - 1].kind.Beat? then n
    else LastMove(log, key, n - 1)
  }

  /** The time of the last applied grant, renewal or heartbeat. */
  ghost function LastBeat(log: seq<Event>, key: string, n: nat): nat
    requires n <= |log|
  {
    if n == 0 then 0
    else if log[n - 1].key == key && AppliedAt(log, n - 1)
      && (log[n - 1].kind.Lease? || log[n - 1].kind.Renew? || log[n - 1].kind.Beat?) then log[n - 1].ts
    else LastBeat(log, key, n - 1)
  }

  /** An applied event that counts as a failure. */
  ghost predicate StrikeAt(log: seq<Event>, key: string, i: nat)
    requires i < |log|
  {
    log[i].key == key && AppliedAt(log, i) &&
    match log[i].kind
    case Fail(_, uncounted) => !uncounted
    case Expire(_, uncounted) => !uncounted
    case Requeue(fault) => fault
    case _ => false
  }

  /** An applied event that clears the failures. */
  ghost predicate ClearAt(log: seq<Event>, key: string, i: nat)
    requires i < |log|
  {
    log[i].key == key && AppliedAt(log, i) && (log[i].kind.Enqueue? || log[i].kind == Requeue(false))
  }

  /** The failures counted since the last event that cleared them. */
  ghost function Strikes(log: seq<Event>, key: string, n: nat): nat
    requires n <= |log|
  {
    if n == 0 || ClearAt(log, key, n - 1) then 0
    else Strikes(log, key, n - 1) + (if StrikeAt(log, key, n - 1) then 1 else 0)
  }

  /** The state an applied event leaves its task in, by its type alone. */
  function StateAfter(kind: Kind): Option<TaskState> {
    match kind
    case Enqueue => Some(Queued)
    case Supersede => Some(Superseded)
    case Requeue(_) => Some(Queued)
    case Withdraw => Some(Withdrawn)
    case Lease => Some(Leased)
    case Renew => Some(Leased)
    case Complete => Some(Completed)
    case Fail(next, _) => Some(next)
    case Expire(next, _) => Some(next)
    case Release => Some(Queued)
    case Beat(_, _) => None
    case Other => None
  }

  ghost predicate ReadOff(log: seq<Event>, key: string, n: nat)
    requires n <= |log|
  {
    match At(log, key, n)
    case None => LastMove(log, key, n) == 0
    case Some(row) =>
      && 0 < row.eventId == LastMove(log, key, n) <= n
      && log[row.eventId - 1].key == key
      && StateAfter(log[row.eventId - 1].kind) == Some(row.state)
      && row.gen == |Grants(log, key, n)|
      && row.failures == Strikes(log, key, n)
      && (row.state == Leased ==> row.until == Some(LastBeat(log, key, n) + LEASE_MS))
  }

  /** Every column of a row is determined by the events applied to its task: the state by the type of the last
      one, event_id by its id, lease_gen by the number of grants, failures by the strikes since the last clean
      start, and the lease of a held task runs LEASE_MS past its last grant, renewal or heartbeat. */
  lemma {:induction false} RowIsItsHistory(log: seq<Event>, key: string, n: nat)
    requires n <= |log|
    ensures ReadOff(log, key, n)
  {
    if n > 0 {
      RowIsItsHistory(log, key, n - 1);
      GrantsCountUp(log, key, n - 1);
      if log[n - 1].key != key || !AppliedAt(log, n - 1) {
        NotMoved(log, key, n);
      } else {
        Moved(log, key, n);
      }
    }
  }

  lemma NotMoved(log: seq<Event>, key: string, n: nat)
    requires 0 < n <= |log| && ReadOff(log, key, n - 1) && (log[n - 1].key != key || !AppliedAt(log, n - 1))
    ensures ReadOff(log, key, n)
  {
    assert At(log, key, n) == At(log, key, n - 1);
  }

  /** What an applied event makes of the columns of the row before it. */
  ghost predicate Columns(before: Option<Row>, e: Event, id: nat, after: Row) {
    && (e.kind.Beat? ==>
          && before.Some? && after == before.value.(until := after.until)
          && before.value.state == Leased)
    && (!e.kind.Beat? ==> after.eventId == id && StateAfter(e.kind) == Some(after.state))
    && (e.kind.Beat? || e.kind.Lease? || e.kind.Renew? ==> after.until == Some(e.ts + LEASE_MS))
    && (after.state == Leased ==> e.kind.Beat? || e.kind.Lease? || e.kind.Renew?)
    && after.gen == (if before.Some? then before.value.gen else 0) + (if e.kind.Lease? then 1 else 0)
    && (e.kind.Lease? ==> before.Some? && e.gen == before.value.gen + 1)
    && (e.kind.Enqueue? <==> before.None?)
    && after.failures == match e.kind
         case Enqueue => 0
         case Requeue(fault) => if fault && before.Some? then before.value.failures + 1 else 0
         case Fail(_, uncounted) => (if before.Some? then before.value.failures else 0) + (if uncounted then 0 else 1)
         case Expire(_, uncounted) => (if before.Some? then before.value.failures else 0) + (if uncounted then 0 else 1)
         case _ => if before.Some? then before.value.failures else 0
  }

  lemma WrittenColumns(tasks: Table, e: Event, id: nat)
    requires Outcomes(tasks, e, id).Written?
    ensures Columns(RowOf(tasks, e.key), e, id, Outcomes(tasks, e, id).row)
  {
  }

  lemma Moved(log: seq<Event>, key: string, n: nat)
    requires 0 < n <= |log| && ReadOff(log, key, n - 1) && log[n - 1].key == key && AppliedAt(log, n - 1)
    requires |Grants(log, key, n - 1)| == GenAt(log, key, n - 1)
    ensures ReadOff(log, key, n)
  {
    hide FoldRow;
    var e := log[n - 1];
    var row := Outcomes(Replay(log, n - 1), e, n).row;
    WrittenColumns(Replay(log, n - 1), e, n);
    assert At(log, key, n) == Some(row);
    if e.kind.Beat? {
      assert LastMove(log, key, n) == LastMove(log, key, n - 1);
    } else {
      assert LastMove(log, key, n) == n;
    }
  }
}
