/** An incremental projection whose folds read and write its own table only, such as `tasks`, stays equal to the
    plain in-order fold: scripts/core/queue.ts, watermark.ts, reducer.ts. */
module OwnProjection {
  import opened Options
  import opened Projections
  import opened BusState

  /** The two states have the same rows and the same sequence for the table. */
  ghost predicate SameOwn(a: Tables, b: Tables, table: string) {
    && (forall key: RowKey :: key.table == table ==>
          (key in a.rows <==> key in b.rows) && (key in a.rows ==> a.rows[key] == b.rows[key]))
    && (table in a.sequences <==> table in b.sequences)
    && (table in a.sequences ==> a.sequences[table] == b.sequences[table])
  }

  predicate Concerning(write: Write, table: string) {
    match write
    case Put(key, _) => key.table == table
    case Erase(key) => key.table == table
    case Advance(t, _) => t == table
  }

  ghost predicate WritesElsewhere(writes: seq<Write>, table: string) {
    forall i :: 0 <= i < |writes| ==> !Concerning(writes[i], table)
  }

  ghost predicate ReadsItsOwn(fold: Fold, table: string) {
    forall a, b, log :: SameOwn(a, b, table) ==> fold(a, log) == fold(b, log)
  }

  ghost predicate KeepsOff(fold: Fold, kinds: set<string>, table: string) {
    forall a: Tables, log: seq<Event> :: |log| > 0 && log[|log| - 1].kind !in kinds ==>
      match fold(a, log) case None => true case Some(writes) => WritesElsewhere(writes, table)
  }

  /** Projection p owns the table: its folds read nothing else, the in-order reduction uses the same folds for its
      event types, and every other fold keeps off the table. */
  ghost predicate Owns(f: Folds, p: nat, table: string) {
    && p < |f.incremental|
    && f.incremental[p].kinds <= f.inOrder.kinds
    && ReadsItsOwn(f.incremental[p].fold, table)
    && (forall a: Tables, log: seq<Event> :: |log| > 0 && log[|log| - 1].kind in f.incremental[p].kinds ==>
          f.inOrder.fold(a, log) == f.incremental[p].fold(a, log))
    && KeepsOff(f.inOrder.fold, f.incremental[p].kinds, table)
    && (forall q :: 0 <= q < |f.incremental| && q != p ==> KeepsOff(f.incremental[q].fold, {}, table))
  }

  lemma {:induction false} AppliedElsewhere(a: Tables, writes: seq<Write>, table: string)
    requires WritesElsewhere(writes, table)
    ensures SameOwn(AppliedAll(a, writes), a, table)
  {
    if writes != [] {
      AppliedElsewhere(a, writes[..|writes| - 1], table);
      assert !Concerning(writes[|writes| - 1], table);
    }
  }

  lemma {:induction false} AppliedAlike(a: Tables, b: Tables, writes: seq<Write>, table: string)
    requires SameOwn(a, b, table)
    ensures SameOwn(AppliedAll(a, writes), AppliedAll(b, writes), table)
  {
    if writes != [] {
      AppliedAlike(a, b, writes[..|writes| - 1], table);
      AppliedOnceAlike(AppliedAll(a, writes[..|writes| - 1]), AppliedAll(b, writes[..|writes| - 1]), writes[|writes| - 1], table);
    }
  }

  lemma AppliedOnceAlike(a: Tables, b: Tables, write: Write, table: string)
    requires SameOwn(a, b, table)
    ensures SameOwn(Applied(a, write), Applied(b, write), table)
  {
    match write
    case Put(key, row) =>
    case Erase(key) =>
    case Advance(t, last) =>
  }

  /** A run of the owner's folds goes by the owner's table alone. */
  lemma {:induction false} OwnRunsAlike(f: Folds, p: nat, table: string, log: seq<Event>, a: Tables, b: Tables, from: nat, end: nat)
    requires Owns(f, p, table) && from <= end <= |log| && SameOwn(a, b, table)
    ensures SameOwn(Run(f.incremental[p], log, a, from, end), Run(f.incremental[p], log, b, from, end), table)
    decreases end
  {
    if from < end {
      OwnRunsAlike(f, p, table, log, a, b, from, end - 1);
      var c, d := Run(f.incremental[p], log, a, from, end - 1), Run(f.incremental[p], log, b, from, end - 1);
      if Concerns(f.incremental[p], log[end - 1]) {
        assert Verdict(f.incremental[p], log, c, end - 1) == Verdict(f.incremental[p], log, d, end - 1);
        match Verdict(f.incremental[p], log, c, end - 1)
        case None =>
        case Some(writes) => AppliedAlike(c, d, writes, table);
      }
    }
  }

  /** A run of another projection leaves the table alone. */
  lemma {:induction false} OtherRunKeepsOff(f: Folds, p: nat, table: string, q: nat, log: seq<Event>, a: Tables, from: nat, end: nat)
    requires Owns(f, p, table) && q < |f.incremental| && q != p && from <= end <= |log|
    ensures SameOwn(Run(f.incremental[q], log, a, from, end), a, table)
    decreases end
  {
    if from < end {
      OtherRunKeepsOff(f, p, table, q, log, a, from, end - 1);
      var c := Run(f.incremental[q], log, a, from, end - 1);
      if Concerns(f.incremental[q], log[end - 1]) {
        assert KeepsOff(f.incremental[q].fold, {}, table);
        assert log[..end][end - 1] == log[end - 1];
        match Verdict(f.incremental[q], log, c, end - 1)
        case None =>
        case Some(writes) => AppliedElsewhere(c, writes, table);
      }
    }
  }

  /** In order, among all the other folds, the table is what its own folds alone make of the log. */
  lemma {:induction false} InOrderOwn(f: Folds, p: nat, table: string, log: seq<Event>, n: nat)
    requires Owns(f, p, table) && n <= |log|
    ensures SameOwn(InOrder(f, log, n), Run(f.incremental[p], log, EMPTY, 0, n), table)
  {
    if n > 0 {
      InOrderOwn(f, p, table, log, n - 1);
      var c, d := InOrder(f, log, n - 1), Run(f.incremental[p], log, EMPTY, 0, n - 1);
      assert log[..n][n - 1] == log[n - 1];
      if Concerns(f.inOrder, log[n - 1]) {
        if log[n - 1].kind in f.incremental[p].kinds {
          assert Verdict(f.inOrder, log, c, n - 1) == Verdict(f.incremental[p], log, d, n - 1);
          match Verdict(f.incremental[p], log, d, n - 1)
          case None =>
          case Some(writes) => AppliedAlike(c, d, writes, table);
        } else {
          match Verdict(f.inOrder, log, c, n - 1)
          case None =>
          case Some(writes) => AppliedElsewhere(c, writes, table);
        }
      }
    }
  }

  /** The live table is what the owner's folds make of the log through the projection's watermark. */
  ghost predicate OwnLive(f: Folds, b: Bus, p: nat, table: string)
    requires Bounded(f, b)
  {
    p < |f.incremental| && SameOwn(b.live, Run(f.incremental[p], b.log, EMPTY, 0, b.marks[p]), table)
  }

  lemma {:induction false} OwnLater(f: Folds, p: nat, table: string, log: seq<Event>, later: seq<Event>, a: Tables, n: nat)
    requires p < |f.incremental| && n <= |log| && Extends(log, later)
    requires SameOwn(a, Run(f.incremental[p], log, EMPTY, 0, n), table)
    ensures SameOwn(a, Run(f.incremental[p], later, EMPTY, 0, n), table)
  {
    assert log[..n] == later[..|log|][..n] == later[..n];
    RunReadsThePrefix(f.incremental[p], log, later, EMPTY, 0, n);
  }

  lemma OwnReduced(f: Folds, b: Bus, p: nat, table: string, q: nat)
    requires WellFormed(f) && Bounded(f, b) && Owns(f, p, table) && q < |f.incremental| && OwnLive(f, b, p, table)
    ensures OwnLive(f, ReducedProjection(f, b, q), p, table)
  {
    var r := ReducedProjection(f, b, q);
    ReducedProjectionFacts(f, b, q);
    if q == p {
      OwnRunsAlike(f, p, table, b.log, b.live, Run(f.incremental[p], b.log, EMPTY, 0, b.marks[p]), b.marks[p], |b.log|);
      RunSplits(f.incremental[p], b.log, EMPTY, 0, b.marks[p], |b.log|);
      OwnLater(f, p, table, b.log, r.log, r.live, |b.log|);
    } else {
      OtherRunKeepsOff(f, p, table, q, b.log, b.live, b.marks[q], |b.log|);
      OwnLater(f, p, table, b.log, r.log, r.live, b.marks[p]);
    }
  }

  /** While the projections before p are folded again the table stays as the prefix left it; from p on it is the
      plain fold. */
  ghost predicate OwnSoFar(f: Folds, b: Bus, through: nat, k: nat, p: nat, table: string, r: Bus)
    requires Bounded(f, r) && p < |f.incremental|
  {
    && Extends(b.log, r.log) && through <= |r.log|
    && (k <= p ==> SameOwn(r.live, Run(f.incremental[p], r.log, EMPTY, 0, through), table))
    && (k > p ==> OwnLive(f, r, p, table))
  }

  lemma OwnMarkedOnce(f: Folds, b: Bus, c: Bus, through: nat, k: nat, p: nat, table: string)
    requires WellFormed(f) && Bounded(f, c) && Owns(f, p, table) && through <= |c.log| && k < |f.incremental|
    requires OwnSoFar(f, b, through, k, p, table, c)
    ensures OwnSoFar(f, b, through, k + 1, p, table, ReducedProjection(f, c.(marks := c.marks[k := through]), k))
  {
    var d := c.(marks := c.marks[k := through]);
    var r := ReducedProjection(f, d, k);
    ReducedProjectionFacts(f, d, k);
    assert r.log[..|b.log|] == r.log[..|c.log|][..|b.log|];
    if k + 1 <= p {
      OtherRunKeepsOff(f, p, table, k, c.log, c.live, through, |c.log|);
      OwnLater(f, p, table, c.log, r.log, r.live, through);
    } else {
      OwnReduced(f, d, p, table, k);
    }
  }

  lemma OwnsOne(f: Folds, p: nat, table: string)
    requires Owns(f, p, table)
    ensures p < |f.incremental|
  {
  }

  lemma OwnSoFarNone(f: Folds, b: Bus, through: nat, p: nat, table: string)
    requires Bounded(f, b) && p < |f.incremental| && through <= |b.log|
    requires SameOwn(b.live, Run(f.incremental[p], b.log, EMPTY, 0, through), table)
    ensures OwnSoFar(f, b, through, 0, p, table, b.(through := through))
  {
    assert b.log[..|b.log|] == b.log;
  }

  /** Folding the projections again from a prefix reduced in order gives the table back. */
  lemma {:induction false} OwnMarked(f: Folds, b: Bus, through: nat, k: nat, p: nat, table: string)
    requires WellFormed(f) && Bounded(f, b) && Owns(f, p, table) && through <= |b.log| && k <= |f.incremental|
    requires SameOwn(b.live, Run(f.incremental[p], b.log, EMPTY, 0, through), table)
    ensures OwnSoFar(f, b, through, k, p, table, MarkedInOrder(f, b, through, k))
  {
    hide MarkedInOrder, ReducedProjection, Owns, OwnSoFar, Run, SameOwn;
    if k == 0 {
      MarkedNone(f, b, through);
      OwnsOne(f, p, table);
      OwnSoFarNone(f, b, through, p, table);
    } else {
      OwnMarked(f, b, through, k - 1, p, table);
      OwnMarkedOnce(f, b, MarkedInOrder(f, b, through, k - 1), through, k - 1, p, table);
      MarkedNext(f, b, through, k - 1);
    }
  }

  /** The guard of reduceTasksAfter, for an append that is about to be folded by projection p: the projection was
      reduced before, or the log holds no event it would have to fold. */
  ghost predicate SkipsNothing(f: Folds, b: Bus, p: nat)
    requires Bounded(f, b) && p < |f.incremental|
  {
    b.marks[p] == 0 ==> forall i :: 0 <= i < |b.log| ==> !Concerns(f.incremental[p], b.log[i])
  }

  ghost predicate Careful(f: Folds, b: Bus, action: Action, p: nat)
    requires Bounded(f, b) && p < |f.incremental|
  {
    action.OnAppend? && action.p == p ==> SkipsNothing(f, b, p)
  }

  lemma OwnAppended(f: Folds, b: Bus, event: Event, p: nat, table: string, q: nat)
    requires WellFormed(f) && Bounded(f, b) && Owns(f, p, table) && q < |f.incremental| && OwnLive(f, b, p, table)
    requires q == p ==> SkipsNothing(f, b, p)
    ensures OwnLive(f, AppendedAndReduced(f, b, event, q), p, table)
  {
    AppendHolds(b.log, event);
    var c := AppendedFor(b, event, q);
    OwnLater(f, p, table, b.log, c.log, c.live, b.marks[p]);
    if q == p && b.marks[p] == 0 {
      forall i | 0 <= i < |b.log| ensures !Concerns(f.incremental[p], c.log[i]) {
        assert c.log[i] == c.log[..|b.log|][i];
      }
      RunSkips(f.incremental[p], c.log, EMPTY, 0, |b.log|);
    }
    OwnReduced(f, c, p, table, q);
  }

  lemma NextKeepsOwn(f: Folds, b: Bus, action: Action, p: nat, table: string)
    requires WellFormed(f) && Inv(f, b) && Owns(f, p, table) && Enabled(f, b, action) && Careful(f, b, action, p)
    requires OwnLive(f, b, p, table)
    ensures Bounded(f, Next(f, b, action)) && OwnLive(f, Next(f, b, action), p, table)
  {
    NextIsFaithful(f, b, action);
    match action
    case Appending(event) =>
      AppendHolds(b.log, event);
      OwnLater(f, p, table, b.log, Append(b.log, event), b.live, b.marks[p]);
    case OnAppend(event, q) => OwnAppended(f, b, event, p, table, q);
    case Batch(target, size) =>
      if b.through < target {
        var c, end := BatchFolds(f, b, target, size);
        InOrderOwn(f, p, table, c.log, end);
        OwnMarked(f, c, end, |f.incremental|, p, table);
      }
    case StartBuild(connection) =>
    case BuildOn(connection, size) =>
      BuiltBatchIsFaithful(f, b, connection, size);
      OwnLater(f, p, table, b.log, Next(f, b, action).log, b.live, b.marks[p]);
    case Publish(connection) =>
      var Build(target, from, shadow) := b.builds[connection];
      var c := b.(live := shadow, snap := shadow, dirty := {}, tracked := true, builds := b.builds - {connection});
      InOrderOwn(f, p, table, b.log, target);
      OwnMarked(f, c, target, |f.incremental|, p, table);
    case Abandon(connection) =>
  }

  /** In every run whose on-append writers skip nothing, the live table of an owning projection is the plain fold
      of its events through its watermark: restoring, folding again and publishing in between leave no trace. */
  lemma {:induction false} EveryRunKeepsOwn(f: Folds, states: seq<Bus>, actions: seq<Action>, p: nat, table: string, i: nat)
    requires WellFormed(f) && Owns(f, p, table) && IsRun(f, states, actions) && i < |states|
    requires forall k :: 0 <= k < |actions| ==> Careful(f, states[k], actions[k], p)
    ensures Bounded(f, states[i]) && OwnLive(f, states[i], p, table)
  {
    if i > 0 {
      EveryRunKeepsOwn(f, states, actions, p, table, i - 1);
      EveryRunIsFaithful(f, states, actions, i - 1);
      NextKeepsOwn(f, states[i - 1], actions[i - 1], p, table);
    }
  }

  /** Once nothing of its events is left to fold, the live table is the one the in-order reduction of the whole
      log would give. */
  lemma OwnLiveIsInOrder(f: Folds, b: Bus, p: nat, table: string)
    requires Bounded(f, b) && Owns(f, p, table) && OwnLive(f, b, p, table)
    requires forall i :: b.marks[p] <= i < |b.log| ==> !Concerns(f.incremental[p], b.log[i])
    ensures SameOwn(b.live, InOrder(f, b.log, |b.log|), table)
  {
    RunSplits(f.incremental[p], b.log, EMPTY, 0, b.marks[p], |b.log|);
    RunSkips(f.incremental[p], b.log, Run(f.incremental[p], b.log, EMPTY, 0, b.marks[p]), b.marks[p], |b.log|);
    InOrderOwn(f, p, table, b.log, |b.log|);
  }

  // ---------- the writers keep the guard ----------

  /** Every event of the projection's types is appended by its own on-append writer. */
  ghost predicate AppendsThrough(f: Folds, action: Action, p: nat)
    requires p < |f.incremental|
  {
    match action
    case Appending(event) => !Concerns(f.incremental[p], event)
    case OnAppend(event, q) => q == p || !Concerns(f.incremental[p], event)
    case _ => true
  }

  ghost predicate MarkReached(b: Bus, r: Bus, k: nat, p: nat)
    requires p < |b.marks| && p < |r.marks|
  {
    && OnlyRejectionsAdded(b.log, r.log)
    && (k <= p ==> r.marks[p] == b.marks[p])
    && (k > p ==> r.marks[p] >= |b.log|)
  }

  lemma MarkReachedOnce(f: Folds, b: Bus, c: Bus, through: nat, k: nat, p: nat)
    requires WellFormed(f) && Bounded(f, b) && Bounded(f, c) && through <= |c.log| && k < |f.incremental| && p < |f.incremental|
    requires MarkReached(b, c, k, p)
    ensures MarkReached(b, ReducedProjection(f, c.(marks := c.marks[k := through]), k), k + 1, p)
  {
    var d := c.(marks := c.marks[k := through]);
    ReducedProjectionFacts(f, d, k);
    RejectionsAddUp(b.log, c.log, ReducedProjection(f, d, k).log);
  }

  lemma NoMarkReached(b: Bus, through: nat, p: nat)
    requires p < |b.marks|
    ensures MarkReached(b, b.(through := through), 0, p)
  {
    assert b.log[..|b.log|] == b.log;
  }

  lemma {:induction false} MarksReached(f: Folds, b: Bus, through: nat, k: nat, p: nat)
    requires WellFormed(f) && Bounded(f, b) && through <= |b.log| && k <= |f.incremental| && p < |f.incremental|
    ensures MarkReached(b, MarkedInOrder(f, b, through, k), k, p)
  {
    hide MarkedInOrder, ReducedProjection, MarkReached;
    if k == 0 {
      MarkedNone(f, b, through);
      NoMarkReached(b, through, p);
    } else {
      MarksReached(f, b, through, k - 1, p);
      MarkReachedOnce(f, b, MarkedInOrder(f, b, through, k - 1), through, k - 1, p);
      MarkedNext(f, b, through, k - 1);
    }
  }

  /** Every event of the projection's types that the log holds has been folded. */
  ghost predicate NothingPends(f: Folds, b: Bus, p: nat)
    requires Bounded(f, b) && p < |f.incremental|
  {
    forall i :: b.marks[p] <= i < |b.log| ==> !Concerns(f.incremental[p], b.log[i])
  }

  /** A log that only gained records of rejections holds no more events to fold. */
  lemma NothingToFoldLater(f: Folds, log: seq<Event>, later: seq<Event>, p: nat, from: nat)
    requires WellFormed(f) && p < |f.incremental| && OnlyRejectionsAdded(log, later)
    requires forall i :: from <= i < |log| ==> !Concerns(f.incremental[p], log[i])
    ensures forall i :: from <= i < |later| ==> !Concerns(f.incremental[p], later[i])
  {
    forall i | from <= i < |later| ensures !Concerns(f.incremental[p], later[i]) {
      if i < |log| {
        assert later[i] == later[..|log|][i];
      }
    }
  }

  lemma OnAppendLeavesNothing(f: Folds, b: Bus, event: Event, q: nat, p: nat)
    requires WellFormed(f) && Bounded(f, b) && p < |f.incremental| && q < |f.incremental|
    requires AppendsThrough(f, OnAppend(event, q), p) && NothingPends(f, b, p)
    ensures NothingPends(f, AppendedAndReduced(f, b, event, q), p)
  {
    var c, r := AppendedFor(b, event, q), AppendedAndReduced(f, b, event, q);
    AppendHolds(b.log, event);
    ReducedProjectionFacts(f, c, q);
    NothingToFoldLater(f, c.log, r.log, p, r.marks[p]);
  }

  /** Marking the log in order brings every watermark to its end. */
  lemma MarkingLeavesNothing(f: Folds, c: Bus, through: nat, p: nat)
    requires WellFormed(f) && Bounded(f, c) && through <= |c.log| && p < |f.incremental|
    ensures NothingPends(f, MarkedInOrder(f, c, through, |f.incremental|), p)
  {
    MarksReached(f, c, through, |f.incremental|, p);
  }

  lemma NextLeavesNothing(f: Folds, b: Bus, action: Action, p: nat)
    requires WellFormed(f) && Inv(f, b) && p < |f.incremental| && Enabled(f, b, action)
    requires AppendsThrough(f, action, p) && NothingPends(f, b, p)
    ensures Bounded(f, Next(f, b, action)) && NothingPends(f, Next(f, b, action), p)
  {
    NextIsFaithful(f, b, action);
    match action
    case Appending(event) =>
    case OnAppend(event, q) => OnAppendLeavesNothing(f, b, event, q, p);
    case Batch(target, size) =>
      if b.through < target {
        var c, end := BatchFolds(f, b, target, size);
        MarkingLeavesNothing(f, c, end, p);
      }
    case StartBuild(connection) =>
    case BuildOn(connection, size) =>
      BuiltBatchIsFaithful(f, b, connection, size);
      NothingToFoldLater(f, b.log, Next(f, b, action).log, p, b.marks[p]);
    case Publish(connection) =>
      var Build(target, from, shadow) := b.builds[connection];
      var c := b.(live := shadow, snap := shadow, dirty := {}, tracked := true, builds := b.builds - {connection});
      MarkingLeavesNothing(f, c, target, p);
    case Abandon(connection) =>
  }

  /** As long as the events of the projection's types are written only by its own writer, as lease.ts and queue.ts
      write theirs, the guard holds throughout and the live table is in every state what an in-order reduction of
      the whole log would make of it. */
  lemma {:induction false} WritersKeepOwn(f: Folds, states: seq<Bus>, actions: seq<Action>, p: nat, table: string, i: nat)
    requires WellFormed(f) && Owns(f, p, table) && IsRun(f, states, actions) && i < |states|
    requires forall k :: 0 <= k < |actions| ==> AppendsThrough(f, actions[k], p)
    ensures Bounded(f, states[i]) && OwnLive(f, states[i], p, table) && NothingPends(f, states[i], p)
    ensures SameOwn(states[i].live, InOrder(f, states[i].log, |states[i].log|), table)
  {
    if i > 0 {
      WritersKeepOwn(f, states, actions, p, table, i - 1);
      EveryRunIsFaithful(f, states, actions, i - 1);
      NextKeepsOwn(f, states[i - 1], actions[i - 1], p, table);
      NextLeavesNothing(f, states[i - 1], actions[i - 1], p);
    }
    OwnLiveIsInOrder(f, states[i], p, table);
  }
}
