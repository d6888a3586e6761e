/** The tasks table as a projection of the bus: the folds of scripts/core/queue.ts on the rows and the sequence of the
    table, and what the reduction of the whole bus makes of them. */
module TasksProjection {
  import opened Options
  import opened Projections
  import opened BusState
  import opened OwnProjection
  import T = Tasks

  const TABLE := "tasks"

  const KINDS: set<string> := {
    "task.enqueued", "task.superseded", "task.requeued", "task.withdrawn", "task.released", "task.leased",
    "task.renewed", "task.completed", "task.failed", "task.expired", "session.heartbeat"
  }

  /** How an event reads as one of a task, and how a row is kept as text. */
  datatype Codec = Codec(event: Event -> T.Event, show: T.Row -> string, parse: string -> Option<T.Row>)

  ghost predicate ReadsBack(c: Codec) {
    forall row :: c.parse(c.show(row)) == Some(row)
  }

  function RowAt(c: Codec, tables: Tables, key: string): Option<T.Row> {
    if RowKey(TABLE, key) in tables.rows then c.parse(tables.rows[RowKey(TABLE, key)]) else None
  }

  /** The last AUTOINCREMENT id given out. */
  function Sequence(tables: Tables): nat {
    if TABLE in tables.sequences then tables.sequences[TABLE] else 0
  }

  /** The fold of the last event of the log, which has the id |log|; other event types have none. */
  function Writes(c: Codec, tables: Tables, log: seq<Event>): Option<seq<Write>> {
    if log == [] || log[|log| - 1].kind !in KINDS then None
    else
      var e := c.event(log[|log| - 1]);
      var row := RowAt(c, tables, e.key);
      match T.FoldRow(row, e, |log|, Sequence(tables) + 1)
      case Rejected => None
      case Kept => Some([])
      case Written(after) =>
        var put := Put(RowKey(TABLE, e.key), c.show(after));
        Some(if row.None? then [Advance(TABLE, Sequence(tables) + 1), put] else [put])
  }

  /** TASKS_PROJECTION */
  function Projection(c: Codec): Projector {
    Projector(KINDS, (tables, log) => Writes(c, tables, log))
  }

  /** The bus folds tasks as queue.ts does, in order and on append, and no other fold writes the table. */
  ghost predicate FoldsTasks(c: Codec, f: Folds, p: nat) {
    && p < |f.incremental| && f.incremental[p] == Projection(c)
    && KINDS <= f.inOrder.kinds
    && (forall a: Tables, log: seq<Event> :: |log| > 0 && log[|log| - 1].kind in KINDS ==>
          f.inOrder.fold(a, log) == Writes(c, a, log))
    && KeepsOff(f.inOrder.fold, KINDS, TABLE)
    && (forall q :: 0 <= q < |f.incremental| && q != p ==> KeepsOff(f.incremental[q].fold, {}, TABLE))
  }

  /** Such as a bus of the tasks alone. */
  lemma TasksAlone(c: Codec)
    ensures WellFormed(Folds(Projection(c), [Projection(c)])) && FoldsTasks(c, Folds(Projection(c), [Projection(c)]), 0)
  {
    assert forall kind :: kind in KINDS ==> kind[0] != REJECTED[0];
  }

  lemma WritesAlike(c: Codec, a: Tables, b: Tables, log: seq<Event>)
    requires SameOwn(a, b, TABLE)
    ensures Writes(c, a, log) == Writes(c, b, log)
  {
    if log != [] {
      var key := RowKey(TABLE, c.event(log[|log| - 1]).key);
      assert key in a.rows <==> key in b.rows;
    }
  }

  /** The task folds own their table. */
  lemma TasksAreOwned(c: Codec, f: Folds, p: nat)
    requires FoldsTasks(c, f, p)
    ensures Owns(f, p, TABLE)
  {
    var fold := f.incremental[p].fold;
    forall a, b, log | SameOwn(a, b, TABLE) ensures fold(a, log) == fold(b, log) {
      WritesAlike(c, a, b, log);
    }
  }

  // ---------- the table they make ----------

  const OTHER := T.Event(T.Other, "", T.Subject("", 0, None, None), 0, 0, "", false, T.Text(""))

  /** The log as the task folds see it. */
  function Read(c: Codec, log: seq<Event>): (r: seq<T.Event>)
    ensures |r| == |log|
  {
    seq(|log|, i requires 0 <= i < |log| => if Concerns(Projection(c), log[i]) then c.event(log[i]) else OTHER)
  }

  /** The rows of the table show the tasks, and its sequence counts them. */
  ghost predicate Holding(c: Codec, tables: Tables, tasks: T.Table) {
    && (forall key :: RowKey(TABLE, key) in tables.rows <==> key in tasks)
    && (forall key :: key in tasks ==> tables.rows[RowKey(TABLE, key)] == c.show(tasks[key]))
    && Sequence(tables) == |tasks|
  }

  lemma AppliedOne(tables: Tables, write: Write)
    ensures AppliedAll(tables, [write]) == Applied(tables, write)
  {
    assert [write][..0] == [];
  }

  lemma AppliedTwo(tables: Tables, first: Write, second: Write)
    ensures AppliedAll(tables, [first, second]) == Applied(Applied(tables, first), second)
  {
    assert [first, second][..1] == [first];
    AppliedOne(tables, first);
  }

  lemma NewRowHolds(c: Codec, tables: Tables, tasks: T.Table, key: string, row: T.Row)
    requires Holding(c, tables, tasks) && key !in tasks
    ensures Holding(c, AppliedAll(tables, [Advance(TABLE, |tasks| + 1), Put(RowKey(TABLE, key), c.show(row))]), tasks[key := row])
  {
    AppliedTwo(tables, Advance(TABLE, |tasks| + 1), Put(RowKey(TABLE, key), c.show(row)));
    assert |tasks[key := row]| == |tasks| + 1;
  }

  lemma KnownRowHolds(c: Codec, tables: Tables, tasks: T.Table, key: string, row: T.Row)
    requires Holding(c, tables, tasks) && key in tasks
    ensures Holding(c, AppliedAll(tables, [Put(RowKey(TABLE, key), c.show(row))]), tasks[key := row])
  {
    AppliedOne(tables, Put(RowKey(TABLE, key), c.show(row)));
    assert tasks[key := row].Keys == tasks.Keys;
    assert |tasks[key := row]| == |tasks[key := row].Keys| == |tasks|;
  }

  lemma RowHeld(c: Codec, tables: Tables, tasks: T.Table, key: string)
    requires ReadsBack(c) && Holding(c, tables, tasks)
    ensures RowAt(c, tables, key) == T.RowOf(tasks, key)
  {
  }

  /** One event writes the row that the fold on the table of tasks writes. */
  lemma StepHolds(c: Codec, log: seq<Event>, tables: Tables, tasks: T.Table, n: nat)
    requires ReadsBack(c) && n < |log| && Holding(c, tables, tasks) && Concerns(Projection(c), log[n])
    ensures Holding(c, Step(Projection(c), log, tables, n), T.Folded(tasks, c.event(log[n]), n + 1))
  {
    hide Holding, AppliedAll, T.FoldRow, Step, Writes;
    var e := c.event(log[n]);
    RowHeld(c, tables, tasks, e.key);
    SequenceHeld(c, tables, tasks);
    StepWrites(c, log, tables, n);
    match T.FoldRow(T.RowOf(tasks, e.key), e, n + 1, |tasks| + 1)
    case Rejected =>
    case Kept => NothingApplied(tables);
    case Written(after) =>
      if e.key in tasks {
        KnownRowHolds(c, tables, tasks, e.key, after);
      } else {
        NewRowHolds(c, tables, tasks, e.key, after);
      }
  }

  lemma StepWrites(c: Codec, log: seq<Event>, tables: Tables, n: nat)
    requires n < |log| && Concerns(Projection(c), log[n])
    ensures Step(Projection(c), log, tables, n) ==
            match T.FoldRow(RowAt(c, tables, c.event(log[n]).key), c.event(log[n]), n + 1, Sequence(tables) + 1)
            case Rejected => tables
            case Kept => AppliedAll(tables, [])
            case Written(after) =>
              var put := Put(RowKey(TABLE, c.event(log[n]).key), c.show(after));
              AppliedAll(tables, if RowAt(c, tables, c.event(log[n]).key).None? then [Advance(TABLE, Sequence(tables) + 1), put] else [put])
  {
    hide AppliedAll, T.FoldRow;
    assert log[..n + 1][n] == log[n];
  }

  lemma SequenceHeld(c: Codec, tables: Tables, tasks: T.Table)
    requires Holding(c, tables, tasks)
    ensures Sequence(tables) == |tasks|
  {
  }

  lemma NothingApplied(tables: Tables)
    ensures AppliedAll(tables, []) == tables
  {
  }

  lemma ReplayNext(c: Codec, log: seq<Event>, n: nat)
    requires n < |log|
    ensures T.Replay(Read(c, log), n + 1) ==
            (var tasks := T.Replay(Read(c, log), n);
             if Concerns(Projection(c), log[n]) then T.Folded(tasks, c.event(log[n]), n + 1) else tasks)
  {
  }

  lemma NothingHeld(c: Codec, log: seq<T.Event>)
    ensures Holding(c, EMPTY, T.Replay(log, 0))
  {
  }

  /** Run over a log from empty tables, the projection makes the table of tasks that the folds make of its events. */
  lemma {:induction false} RunIsReplay(c: Codec, log: seq<Event>, n: nat)
    requires ReadsBack(c) && n <= |log|
    ensures Holding(c, Run(Projection(c), log, EMPTY, 0, n), T.Replay(Read(c, log), n))
  {
    hide Holding, Projection, Read, T.Replay, T.Folded;
    if n == 0 {
      NothingHeld(c, Read(c, log));
    } else {
      RunIsReplay(c, log, n - 1);
      ReplayNext(c, log, n - 1);
      if Concerns(Projection(c), log[n - 1]) {
        StepHolds(c, log, Run(Projection(c), log, EMPTY, 0, n - 1), T.Replay(Read(c, log), n - 1), n - 1);
      }
    }
  }

  lemma HoldingOwn(c: Codec, a: Tables, b: Tables, tasks: T.Table)
    requires SameOwn(a, b, TABLE) && Holding(c, b, tasks)
    ensures Holding(c, a, tasks)
  {
    forall key ensures RowKey(TABLE, key) in a.rows <==> key in tasks {
      assert RowKey(TABLE, key) in a.rows <==> RowKey(TABLE, key) in b.rows;
    }
  }

  /** Whatever pending batches, rebuilds and other projections do in between, in every state of a run in which the
      task events are written on append the live tasks are the in-order fold of the log. */
  lemma LiveTasks(c: Codec, f: Folds, states: seq<Bus>, actions: seq<Action>, p: nat, i: nat)
    requires ReadsBack(c) && WellFormed(f) && FoldsTasks(c, f, p) && IsRun(f, states, actions) && i < |states|
    requires forall k :: 0 <= k < |actions| ==> AppendsThrough(f, actions[k], p)
    ensures Holding(c, states[i].live, T.Replay(Read(c, states[i].log), |states[i].log|))
  {
    TasksAreOwned(c, f, p);
    WritersKeepOwn(f, states, actions, p, TABLE, i);
    var log := states[i].log;
    InOrderOwn(f, p, TABLE, log, |log|);
    RunIsReplay(c, log, |log|);
    HoldingOwn(c, InOrder(f, log, |log|), Run(Projection(c), log, EMPTY, 0, |log|), T.Replay(Read(c, log), |log|));
    HoldingOwn(c, states[i].live, InOrder(f, log, |log|), T.Replay(Read(c, log), |log|));
  }

  // ---------- what the guard is for ----------

  ghost predicate Queues(c: Codec, event: Event) {
    Concerns(Projection(c), event) && c.event(event).kind.Enqueue? && c.event(event).accepted
  }

  /** Folded over empty tables an event that queues a task writes its row alone. */
  lemma OneRow(c: Codec, log: seq<Event>, n: nat, key: string)
    requires n < |log| && Queues(c, log[n]) && key != c.event(log[n]).key
    ensures RowKey(TABLE, key) !in Step(Projection(c), log, EMPTY, n).rows
  {
    var row := T.Row(1, c.event(log[n]).subject, T.Queued, 0, None, 0, n + 1);
    assert log[..n + 1][n] == log[n];
    AppliedTwo(EMPTY, Advance(TABLE, 1), Put(RowKey(TABLE, c.event(log[n]).key), c.show(row)));
  }

  /** An event that queues a task and is appended before the first on-append write, but not on append, is skipped
      by that write for good: nothing is left to fold, and the live table lacks a row that the in-order one has. */
  lemma SkippedWithoutTheGuard(c: Codec, f: Folds, p: nat, first: Event, second: Event) returns (b: Bus, after: Bus)
    requires ReadsBack(c) && WellFormed(f) && FoldsTasks(c, f, p) && Queues(c, first) && Queues(c, second)
    requires first.dedupeKey != second.dedupeKey && c.event(first).key != c.event(second).key
    ensures b == Next(f, Fresh(f), Appending(first)) && Bounded(f, b) && OwnLive(f, b, p, TABLE) && !SkipsNothing(f, b, p)
    ensures after == AppendedAndReduced(f, b, second, p) && NothingPends(f, after, p)
    ensures RowKey(TABLE, c.event(first).key) !in after.live.rows
    ensures RowKey(TABLE, c.event(first).key) in InOrder(f, after.log, |after.log|).rows
  {
    b := Fresh(f).(log := [first]);
    FirstAppended(f, first);
    assert Concerns(f.incremental[p], b.log[0]);
    after := AppendedAndReduced(f, b, second, p);
    SecondFolded(c, f, p, b, second);
    RowStays(c, f, p, after.log, first);
  }

  lemma FirstAppended(f: Folds, first: Event)
    ensures Next(f, Fresh(f), Appending(first)) == Fresh(f).(log := [first])
  {
  }

  lemma SecondFolded(c: Codec, f: Folds, p: nat, b: Bus, second: Event)
    requires WellFormed(f) && FoldsTasks(c, f, p) && Bounded(f, b) && Queues(c, second)
    requires |b.log| == 1 && b.live == EMPTY && b.marks[p] == 0
    requires b.log[0].dedupeKey != second.dedupeKey && c.event(b.log[0]).key != c.event(second).key
    ensures
      var after := AppendedAndReduced(f, b, second, p);
      && NothingPends(f, after, p) && after.log != [] && after.log[0] == b.log[0]
      && RowKey(TABLE, c.event(b.log[0]).key) !in after.live.rows
  {
    hide ReducedProjection, Step, Writes, Queues;
    var d, after := AppendedFor(b, second, p), AppendedAndReduced(f, b, second, p);
    assert d.log == b.log + [second] && d.marks[p] == 1;
    ReducedProjectionFacts(f, d, p);
    NothingToFoldLater(f, d.log, after.log, p, 2);
    assert after.log[..2][0] == after.log[0];
    assert Run(Projection(c), d.log, EMPTY, 1, 2) == Step(Projection(c), d.log, EMPTY, 1);
    OneRow(c, d.log, 1, c.event(b.log[0]).key);
  }

  lemma RowStays(c: Codec, f: Folds, p: nat, log: seq<Event>, first: Event)
    requires ReadsBack(c) && FoldsTasks(c, f, p) && log != [] && log[0] == first && Queues(c, first)
    ensures RowKey(TABLE, c.event(first).key) in InOrder(f, log, |log|).rows
  {
    TasksAreOwned(c, f, p);
    InOrderOwn(f, p, TABLE, log, |log|);
    RunIsReplay(c, log, |log|);
    KnownStays(Read(c, log), |log|);
    assert SameOwn(InOrder(f, log, |log|), Run(Projection(c), log, EMPTY, 0, |log|), TABLE);
  }

  /** A task that the first event queues is known ever after. */
  lemma {:induction false} KnownStays(log: seq<T.Event>, n: nat)
    requires 0 < n <= |log| && log[0].kind.Enqueue? && log[0].accepted
    ensures log[0].key in T.Replay(log, n)
  {
    if n > 1 {
      KnownStays(log, n - 1);
    } else {
      assert T.Replay(log, 0) == map[];
    }
  }
}
