/** The transactions that write the bus database, as functions on its state, and what every run of them keeps:
    scripts/core/reducer.ts, watermark.ts, and the on-append writers of queue.ts, chain.ts and card-automaton.ts. */
module BusState {
  import opened Projections

  /** The in-order folds and the folds of each incremental projection. */
  datatype Folds = Folds(inOrder: Projector, incremental: seq<Projector>)

  ghost predicate WellFormed(f: Folds) {
    LeavesRejections(f.inOrder) && forall p :: 0 <= p < |f.incremental| ==> LeavesRejections(f.incremental[p])
  }

  /** A rebuild under way in the temporary tables of one connection: it has folded through the id `from`. */
  datatype Build = Build(target: nat, from: nat, shadow: Tables)

  /** through is PRAGMA user_version; marks are the watermarks of the incremental projections; tracked says that
      the snapshot tables and the write triggers are in place. */
  datatype Bus = Bus(log: seq<Event>, live: Tables, snap: Tables, dirty: set<RowKey>, through: nat,
                     marks: seq<nat>, tracked: bool, builds: map<nat, Build>)

  ghost predicate Bounded(f: Folds, b: Bus) {
    && |b.marks| == |f.incremental|
    && (forall p :: 0 <= p < |b.marks| ==> b.marks[p] <= |b.log|)
    && b.through <= |b.log|
    && (forall c :: c in b.builds ==> b.builds[c].from <= b.builds[c].target <= |b.log|)
  }

  function Restored(base: Tables, source: Tables, dirty: set<RowKey>): Tables {
    Tables((map key | key in base.rows && key !in dirty :: base.rows[key])
           + (map key | key in source.rows && key in dirty :: source.rows[key]),
           source.sequences)
  }

  // ---------- the transactions ----------

  ghost function ReducedProjection(f: Folds, b: Bus, p: nat): (r: Bus)
    requires Bounded(f, b) && p < |f.incremental|
    ensures Bounded(f, r) && |b.log| <= |r.log|
  {
    var projector := f.incremental[p];
    var s := FoldedAll(projector, Store(b.log, b.live, b.dirty), Pending(projector, b.log, b.marks[p], |b.log|), b.tracked);
    b.(log := s.log, live := s.tables, dirty := s.dirty, marks := b.marks[p := |b.log|])
  }

  /** The start of an on-append write: the event goes to the log, and a projection never reduced starts just before it. */
  ghost function AppendedFor(b: Bus, event: Event, p: nat): Bus
    requires p < |b.marks|
  {
    var marks := if b.marks[p] == 0 then b.marks[p := |b.log|] else b.marks;
    b.(log := Append(b.log, event), marks := marks)
  }

  ghost function AppendedAndReduced(f: Folds, b: Bus, event: Event, p: nat): (r: Bus)
    requires Bounded(f, b) && p < |f.incremental|
    ensures Bounded(f, r)
  {
    ReducedProjection(f, AppendedFor(b, event, p), p)
  }

  /** user_version moves and the first p incremental projections are folded again from there. */
  ghost function MarkedInOrder(f: Folds, b: Bus, through: nat, p: nat): (r: Bus)
    requires Bounded(f, b) && through <= |b.log| && p <= |f.incremental|
    ensures Bounded(f, r) && |b.log| <= |r.log| && r.through == through
  {
    if p == 0 then b.(through := through)
    else
      var c := MarkedInOrder(f, b, through, p - 1);
      ReducedProjection(f, c.(marks := c.marks[p - 1 := through]), p - 1)
  }

  lemma MarkedNone(f: Folds, b: Bus, through: nat)
    requires Bounded(f, b) && through <= |b.log|
    ensures MarkedInOrder(f, b, through, 0) == b.(through := through)
  {
  }

  lemma MarkedNext(f: Folds, b: Bus, through: nat, p: nat)
    requires Bounded(f, b) && through <= |b.log| && p < |f.incremental|
    ensures
      var c := MarkedInOrder(f, b, through, p);
      MarkedInOrder(f, b, through, p + 1) == ReducedProjection(f, c.(marks := c.marks[p := through]), p)
  {
  }

  /** LIMIT size */
  function FirstOf(ids: seq<nat>, size: nat): (r: seq<nat>)
    ensures r <= ids && |r| <= size
  {
    if |ids| <= size then ids else ids[..size]
  }

  function BatchThrough(ids: seq<nat>, size: nat, from: nat, target: nat): nat
    requires |ids| >= size ==> ids != []
  {
    if |ids| < size then (if from < target then target else from) else ids[|ids| - 1] + 1
  }

  ghost function ReducedBatch(f: Folds, b: Bus, target: nat, size: nat): (r: Bus)
    requires Bounded(f, b) && size > 0 && target <= |b.log|
  {
    if b.through >= target then b
    else
      var ids := FirstOf(Pending(f.inOrder, b.log, b.through, target), size);
      var s := FoldedAll(f.inOrder, Store(b.log, Restored(b.live, b.snap, b.dirty), {}), ids, true);
      var c := b.(log := s.log, live := s.tables, snap := Restored(b.snap, s.tables, s.dirty), dirty := {});
      MarkedInOrder(f, c, BatchThrough(ids, size, b.through, target), |f.incremental|)
  }

  ghost function BuiltBatch(f: Folds, b: Bus, connection: nat, size: nat): Bus
    requires Bounded(f, b) && size > 0 && connection in b.builds
  {
    var Build(target, from, shadow) := b.builds[connection];
    if from >= target then b
    else
      var ids := FirstOf(Pending(f.inOrder, b.log, from, target), size);
      var s := FoldedAll(f.inOrder, Store(b.log, shadow, {}), ids, false);
      b.(log := s.log, builds := b.builds[connection := Build(target, BatchThrough(ids, size, from, target), s.tables)])
  }

  ghost function Published(f: Folds, b: Bus, connection: nat): Bus
    requires Bounded(f, b) && connection in b.builds
  {
    var Build(target, from, shadow) := b.builds[connection];
    var c := b.(live := shadow, snap := shadow, dirty := {}, tracked := true, builds := b.builds - {connection});
    MarkedInOrder(f, c, target, |f.incremental|)
  }

  // ---------- what every state keeps ----------

  ghost function InOrder(f: Folds, log: seq<Event>, n: nat): Tables
    requires n <= |log|
  {
    Run(f.inOrder, log, EMPTY, 0, n)
  }

  ghost predicate Recorded(f: Folds, log: seq<Event>, n: nat)
    requires n <= |log|
  {
    RejectionsRecorded(f.inOrder, log, EMPTY, 0, n, log)
  }

  ghost predicate BuildsFaithful(f: Folds, b: Bus)
    requires Bounded(f, b)
  {
    forall c :: c in b.builds ==>
      b.builds[c].shadow == InOrder(f, b.log, b.builds[c].from) && Recorded(f, b.log, b.builds[c].from)
  }

  ghost predicate SnapshotFaithful(f: Folds, b: Bus)
    requires Bounded(f, b)
  {
    && AgreeOutside(b.live, b.snap, b.dirty)
    && b.snap == InOrder(f, b.log, b.through)
    && Recorded(f, b.log, b.through)
    && (forall p :: 0 <= p < |b.marks| ==> b.through <= b.marks[p])
    && (b.through == |b.log| ==> b.live == b.snap)
  }

  ghost predicate Inv(f: Folds, b: Bus) {
    Bounded(f, b) && BuildsFaithful(f, b) && (b.tracked ==> SnapshotFaithful(f, b))
  }

  ghost predicate Extends(log: seq<Event>, later: seq<Event>) {
    |log| <= |later| && later[..|log|] == log
  }

  lemma InOrderLater(f: Folds, log: seq<Event>, later: seq<Event>, n: nat)
    requires n <= |log| && Extends(log, later)
    ensures InOrder(f, log, n) == InOrder(f, later, n)
    ensures Recorded(f, log, n) ==> Recorded(f, later, n)
  {
    assert log[..n] == later[..|log|][..n] == later[..n];
    RunReadsThePrefix(f.inOrder, log, later, EMPTY, 0, n);
    if Recorded(f, log, n) {
      forall i | 0 <= i < n && RejectedInRun(f.inOrder, later, EMPTY, 0, i)
        ensures HasRecord(later, later[i].dedupeKey)
      {
        SameVerdict(f, log, later, i);
        HasRecordLater(log, later, log[i].dedupeKey);
      }
    }
  }

  lemma SameVerdict(f: Folds, log: seq<Event>, later: seq<Event>, i: nat)
    requires i < |log| && Extends(log, later)
    ensures log[i] == later[i]
    ensures RejectedInRun(f.inOrder, log, EMPTY, 0, i) <==> RejectedInRun(f.inOrder, later, EMPTY, 0, i)
  {
    assert later[i] == later[..|log|][i];
    assert log[..i] == later[..|log|][..i] == later[..i];
    assert log[..i + 1] == later[..|log|][..i + 1] == later[..i + 1];
    RunReadsThePrefix(f.inOrder, log, later, EMPTY, 0, i);
  }

  lemma BuildsLater(f: Folds, b: Bus, c: Bus)
    requires Bounded(f, b) && BuildsFaithful(f, b) && Bounded(f, c) && Extends(b.log, c.log)
    requires forall n :: n in c.builds ==> n in b.builds && c.builds[n] == b.builds[n]
    ensures BuildsFaithful(f, c)
  {
    forall n | n in c.builds
      ensures c.builds[n].shadow == InOrder(f, c.log, c.builds[n].from) && Recorded(f, c.log, c.builds[n].from)
    {
      InOrderLater(f, b.log, c.log, b.builds[n].from);
    }
  }

  /** Folding an incremental projection again touches no table the snapshot keeps but through noted rows. */
  lemma ReducedProjectionFacts(f: Folds, b: Bus, p: nat)
    requires WellFormed(f) && Bounded(f, b) && p < |f.incremental|
    ensures
      var r := ReducedProjection(f, b, p);
      && OnlyRejectionsAdded(b.log, r.log)
      && r.live == Run(f.incremental[p], b.log, b.live, b.marks[p], |b.log|)
      && r.snap == b.snap && r.through == b.through && r.tracked == b.tracked && r.builds == b.builds
      && r.marks == b.marks[p := |b.log|]
      && (b.tracked && AgreeOutside(b.live, b.snap, b.dirty) ==> AgreeOutside(r.live, r.snap, r.dirty))
  {
    var projector := f.incremental[p];
    var s := Store(b.log, b.live, b.dirty);
    FoldedAllIsFaithful(projector, s, b.marks[p], |b.log|, b.tracked);
    var r := ReducedProjection(f, b, p);
    if b.tracked && AgreeOutside(b.live, b.snap, b.dirty) {
      AgreementChains(r.live, b.live, b.snap, r.dirty, b.dirty);
      assert r.dirty + b.dirty == r.dirty;
    }
  }

  /** live after the first p incremental projections were folded from `through` over `tables`. */
  ghost function CaughtUp(f: Folds, log: seq<Event>, tables: Tables, through: nat, p: nat): Tables
    requires through <= |log| && p <= |f.incremental|
  {
    if p == 0 then tables
    else Run(f.incremental[p - 1], log, CaughtUp(f, log, tables, through, p - 1), through, |log|)
  }

  /** Records of rejections change nothing in a run that folds none of them. */
  lemma RunOverRejections(projector: Projector, log: seq<Event>, later: seq<Event>, tables: Tables, from: nat)
    requires from <= |log| && OnlyRejectionsAdded(log, later) && LeavesRejections(projector)
    ensures Run(projector, later, tables, from, |later|) == Run(projector, log, tables, from, |log|)
  {
    RunSplits(projector, later, tables, from, |log|, |later|);
    assert later[..|log|] == log[..|log|];
    RunReadsThePrefix(projector, log, later, tables, from, |log|);
    RunSkips(projector, later, Run(projector, log, tables, from, |log|), |log|, |later|);
  }

  lemma {:induction false} CaughtUpOverRejections(f: Folds, log: seq<Event>, later: seq<Event>, tables: Tables, through: nat, p: nat)
    requires WellFormed(f) && through <= |log| && OnlyRejectionsAdded(log, later) && p <= |f.incremental|
    ensures CaughtUp(f, later, tables, through, p) == CaughtUp(f, log, tables, through, p)
  {
    if p > 0 {
      CaughtUpOverRejections(f, log, later, tables, through, p - 1);
      RunOverRejections(f.incremental[p - 1], log, later, CaughtUp(f, log, tables, through, p - 1), through);
    }
  }

  lemma {:induction false} CaughtUpSkips(f: Folds, log: seq<Event>, tables: Tables, through: nat, p: nat)
    requires WellFormed(f) && through <= |log| && p <= |f.incremental|
    requires forall i :: through <= i < |log| ==> log[i].kind == REJECTED
    ensures CaughtUp(f, log, tables, through, p) == tables
  {
    if p > 0 {
      CaughtUpSkips(f, log, tables, through, p - 1);
      RunSkips(f.incremental[p - 1], log, tables, through, |log|);
    }
  }

  /** After the first p projections: the snapshot stays, live is caught up from it, and the rows it rewrites are
      noted. */
  ghost predicate Marked(f: Folds, b: Bus, through: nat, p: nat, r: Bus)
    requires through <= |b.log| && p <= |f.incremental|
  {
    && OnlyRejectionsAdded(b.log, r.log)
    && r.live == CaughtUp(f, b.log, b.live, through, p)
    && r.snap == b.snap && r.through == through && r.tracked && r.builds == b.builds
    && AgreeOutside(r.live, r.snap, r.dirty)
    && |r.marks| == |f.incremental| && (forall q :: 0 <= q < p ==> through <= r.marks[q])
  }

  lemma MarkedOneMore(f: Folds, b: Bus, through: nat, p: nat, c: Bus)
    requires WellFormed(f) && Bounded(f, c) && through <= |b.log| <= |c.log| && p < |f.incremental|
    requires Marked(f, b, through, p, c)
    ensures Marked(f, b, through, p + 1, ReducedProjection(f, c.(marks := c.marks[p := through]), p))
  {
    var d := c.(marks := c.marks[p := through]);
    ReducedProjectionFacts(f, d, p);
    RejectionsAddUp(b.log, c.log, ReducedProjection(f, d, p).log);
    RunOverRejections(f.incremental[p], b.log, c.log, c.live, through);
  }

  lemma NothingMarked(f: Folds, b: Bus, through: nat)
    requires Bounded(f, b) && through <= |b.log| && b.tracked && b.live == b.snap && b.dirty == {}
    ensures Marked(f, b, through, 0, b.(through := through))
  {
    assert b.log[..|b.log|] == b.log;
  }

  /** Marking a prefix as reduced in order. */
  lemma {:induction false} MarkedInOrderFacts(f: Folds, b: Bus, through: nat, p: nat)
    requires WellFormed(f) && Bounded(f, b) && through <= |b.log| && p <= |f.incremental|
    requires b.tracked && b.live == b.snap && b.dirty == {}
    ensures Marked(f, b, through, p, MarkedInOrder(f, b, through, p))
  {
    hide MarkedInOrder, ReducedProjection, CaughtUp, AgreeOutside;
    if p == 0 {
      MarkedNone(f, b, through);
      NothingMarked(f, b, through);
    } else {
      MarkedInOrderFacts(f, b, through, p - 1);
      MarkedOneMore(f, b, through, p - 1, MarkedInOrder(f, b, through, p - 1));
      MarkedNext(f, b, through, p - 1);
    }
  }

  lemma RestoredIsSource(base: Tables, source: Tables, dirty: set<RowKey>)
    requires AgreeOutside(base, source, dirty)
    ensures Restored(base, source, dirty) == source
  {
    var r := Restored(base, source, dirty);
    assert r.rows.Keys == source.rows.Keys;
    assert r.rows == source.rows;
  }

  lemma AgreementFlips(a: Tables, b: Tables, dirty: set<RowKey>)
    requires AgreeOutside(a, b, dirty)
    ensures AgreeOutside(b, a, dirty)
  {
    forall key | key !in dirty
      ensures (key in b.rows <==> key in a.rows) && (key in b.rows ==> b.rows[key] == a.rows[key])
    {
      assert key in a.rows <==> key in b.rows;
    }
  }

  /** A batch of the pending events, whatever its size, folds exactly the events up to where it says it ends,
      and it ends after where it began. */
  lemma BatchIsRange(projector: Projector, log: seq<Event>, from: nat, target: nat, size: nat)
    requires from < target <= |log| && size > 0
    ensures
      var ids := FirstOf(Pending(projector, log, from, target), size);
      var end := BatchThrough(ids, size, from, target);
      from < end <= target && ids == Pending(projector, log, from, end)
  {
    var pending := Pending(projector, log, from, target);
    if |pending| >= size {
      PendingThrough(projector, log, from, target, size);
    }
  }

  /** The state between the in-order folds of a batch and the marking. */
  lemma BatchFolds(f: Folds, b: Bus, target: nat, size: nat) returns (c: Bus, end: nat)
    requires WellFormed(f) && Inv(f, b) && b.tracked && size > 0 && b.through < target <= |b.log|
    ensures Bounded(f, c) && b.through < end <= target <= |c.log|
    ensures ReducedBatch(f, b, target, size) == MarkedInOrder(f, c, end, |f.incremental|)
    ensures OnlyRejectionsAdded(b.log, c.log) && c.builds == b.builds && c.tracked
    ensures c.live == c.snap == InOrder(f, c.log, end) && c.dirty == {} && Recorded(f, c.log, end)
  {
    var ids := FirstOf(Pending(f.inOrder, b.log, b.through, target), size);
    end := BatchThrough(ids, size, b.through, target);
    BatchIsRange(f.inOrder, b.log, b.through, target, size);
    RestoredIsSource(b.live, b.snap, b.dirty);
    var s := Store(b.log, b.snap, {});
    var r := FoldedAll(f.inOrder, s, ids, true);
    FoldedAllIsFaithful(f.inOrder, s, b.through, end, true);
    AgreementFlips(r.tables, b.snap, r.dirty);
    RestoredIsSource(b.snap, r.tables, r.dirty);
    c := b.(log := r.log, live := r.tables, snap := Restored(b.snap, r.tables, r.dirty), dirty := {});
    RunSplits(f.inOrder, b.log, EMPTY, 0, b.through, end);
    InOrderLater(f, b.log, c.log, end);
    MoreRecorded(f, b.log, c.log, b.through, end);
  }

  lemma MoreRecorded(f: Folds, log: seq<Event>, later: seq<Event>, from: nat, end: nat)
    requires from <= end <= |log| && Extends(log, later) && Recorded(f, log, from)
    requires RejectionsRecorded(f.inOrder, log, InOrder(f, log, from), from, end, later)
    ensures Recorded(f, later, end)
  {
    forall i | 0 <= i < end && RejectedInRun(f.inOrder, later, EMPTY, 0, i)
      ensures HasRecord(later, later[i].dedupeKey)
    {
      SameVerdict(f, log, later, i);
      if i < from {
        HasRecordLater(log, later, log[i].dedupeKey);
      } else {
        RunSplits(f.inOrder, log, EMPTY, 0, from, i);
        assert RejectedInRun(f.inOrder, log, InOrder(f, log, from), from, i);
      }
    }
  }

  /** A state whose tables were just marked through `end` is faithful, and live is the in-order tables caught up. */
  lemma MarkedIsFaithful(f: Folds, c: Bus, end: nat)
    requires WellFormed(f) && Bounded(f, c) && end <= |c.log| && BuildsFaithful(f, c)
    requires c.tracked && c.live == c.snap == InOrder(f, c.log, end) && c.dirty == {} && Recorded(f, c.log, end)
    ensures
      var r := MarkedInOrder(f, c, end, |f.incremental|);
      && Inv(f, r) && r.tracked && r.through == end && r.snap == InOrder(f, r.log, end)
      && OnlyRejectionsAdded(c.log, r.log)
      && r.live == CaughtUp(f, r.log, InOrder(f, r.log, end), end, |f.incremental|)
  {
    var r := MarkedInOrder(f, c, end, |f.incremental|);
    MarkedInOrderFacts(f, c, end, |f.incremental|);
    InOrderLater(f, c.log, r.log, end);
    BuildsLater(f, c, r);
    CaughtUpOverRejections(f, c.log, r.log, c.live, end, |f.incremental|);
    if end == |r.log| {
      CaughtUpSkips(f, r.log, c.live, end, |f.incremental|);
    }
  }

  /** One batch of a pending reduction: it moves forward, leaves the snapshot equal to the plain in-order fold
      and live equal to that fold caught up by the incremental ones, whatever was in live before. */
  lemma ReducedBatchIsFaithful(f: Folds, b: Bus, target: nat, size: nat)
    requires WellFormed(f) && Inv(f, b) && b.tracked && size > 0 && b.through < target <= |b.log|
    ensures
      var r := ReducedBatch(f, b, target, size);
      && Inv(f, r) && r.tracked && b.through < r.through <= target
      && OnlyRejectionsAdded(b.log, r.log)
      && r.snap == InOrder(f, r.log, r.through)
      && r.live == CaughtUp(f, r.log, InOrder(f, r.log, r.through), r.through, |f.incremental|)
  {
    var c, end := BatchFolds(f, b, target, size);
    BuildsLater(f, b, c);
    MarkedIsFaithful(f, c, end);
    RejectionsAddUp(b.log, c.log, ReducedBatch(f, b, target, size).log);
  }

  /** What one more batch puts into a build. */
  lemma BuildFolds(f: Folds, b: Bus, connection: nat, size: nat) returns (log: seq<Event>, end: nat, shadow: Tables)
    requires WellFormed(f) && Inv(f, b) && size > 0 && connection in b.builds
    requires b.builds[connection].from < b.builds[connection].target
    ensures b.builds[connection].from < end <= b.builds[connection].target
    ensures BuiltBatch(f, b, connection, size) ==
            b.(log := log, builds := b.builds[connection := Build(b.builds[connection].target, end, shadow)])
    ensures OnlyRejectionsAdded(b.log, log) && end <= |log| && shadow == InOrder(f, log, end) && Recorded(f, log, end)
  {
    var Build(target, from, before) := b.builds[connection];
    var ids := FirstOf(Pending(f.inOrder, b.log, from, target), size);
    end := BatchThrough(ids, size, from, target);
    BatchIsRange(f.inOrder, b.log, from, target, size);
    var s := Store(b.log, before, {});
    FoldedAllIsFaithful(f.inOrder, s, from, end, false);
    var r := FoldedAll(f.inOrder, s, ids, false);
    log, shadow := r.log, r.tables;
    RunSplits(f.inOrder, b.log, EMPTY, 0, from, end);
    InOrderLater(f, b.log, log, end);
    MoreRecorded(f, b.log, log, from, end);
  }

  lemma BuiltBatchIsFaithful(f: Folds, b: Bus, connection: nat, size: nat)
    requires WellFormed(f) && Inv(f, b) && size > 0 && connection in b.builds
    ensures
      var r := BuiltBatch(f, b, connection, size);
      && Inv(f, r) && connection in r.builds && r.builds[connection].target == b.builds[connection].target
      && (b.builds[connection].from < b.builds[connection].target ==> b.builds[connection].from < r.builds[connection].from)
      && OnlyRejectionsAdded(b.log, r.log) && r.tracked == b.tracked
  {
    if b.builds[connection].from < b.builds[connection].target {
      var log, end, shadow := BuildFolds(f, b, connection, size);
      var c := b.(log := log);
      BuildsLater(f, b, c);
      LaterLog(f, b, c);
      assert c.tracked ==> SnapshotFaithful(f, c);
    } else {
      assert b.log[..|b.log|] == b.log;
    }
  }

  /** Appending to the log changes nothing the snapshot rests on. */
  lemma LaterLog(f: Folds, b: Bus, r: Bus)
    requires Inv(f, b) && Bounded(f, r) && Extends(b.log, r.log)
    requires r.live == b.live && r.snap == b.snap && r.dirty == b.dirty && r.through == b.through && r.tracked == b.tracked
    requires b.tracked ==> forall p :: 0 <= p < |r.marks| ==> r.through <= r.marks[p]
    ensures r.tracked ==> SnapshotFaithful(f, r)
  {
    InOrderLater(f, b.log, r.log, b.through);
  }

  lemma PublishedIsFaithful(f: Folds, b: Bus, connection: nat)
    requires WellFormed(f) && Inv(f, b) && connection in b.builds
    requires b.builds[connection].from == b.builds[connection].target
    ensures
      var r := Published(f, b, connection);
      && Inv(f, r) && r.tracked && r.through == b.builds[connection].target
      && OnlyRejectionsAdded(b.log, r.log)
      && r.snap == InOrder(f, r.log, r.through)
      && r.live == CaughtUp(f, r.log, InOrder(f, r.log, r.through), r.through, |f.incremental|)
  {
    var Build(target, from, shadow) := b.builds[connection];
    var c := b.(live := shadow, snap := shadow, dirty := {}, tracked := true, builds := b.builds - {connection});
    assert b.log[..|b.log|] == b.log;
    BuildsLater(f, b, c);
    MarkedIsFaithful(f, c, target);
  }

  lemma AppendedIsFaithful(f: Folds, b: Bus, event: Event)
    requires Inv(f, b)
    ensures Inv(f, b.(log := Append(b.log, event)))
  {
    var r := b.(log := Append(b.log, event));
    AppendHolds(b.log, event);
    BuildsLater(f, b, r);
    LaterLog(f, b, r);
  }

  lemma AppendedAndReducedIsFaithful(f: Folds, b: Bus, event: Event, p: nat)
    requires WellFormed(f) && Inv(f, b) && p < |f.incremental|
    ensures Inv(f, AppendedAndReduced(f, b, event, p))
  {
    AppendedIsFaithful(f, b, event);
    var c := AppendedFor(b, event, p);
    var r := AppendedAndReduced(f, b, event, p);
    ReducedProjectionFacts(f, c, p);
    var a := b.(log := Append(b.log, event));
    BuildsLater(f, a, r);
    if b.tracked {
      InOrderLater(f, a.log, r.log, r.through);
      if r.through == |r.log| {
        assert Append(b.log, event) == b.log;
        assert c.marks[p] == |b.log|;
      }
    }
  }

  // ---------- every run ----------

  datatype Action =
    | Appending(event: Event)
    | OnAppend(event: Event, p: nat)
    | Batch(target: nat, size: nat)
    | StartBuild(connection: nat)
    | BuildOn(connection: nat, size: nat)
    | Publish(connection: nat)
    | Abandon(connection: nat)

  /** When a process can commit the transaction: a pending batch only over a snapshot that holds, a target only
      some id that was the last one before, a publication only of a build that reached its target. */
  ghost predicate Enabled(f: Folds, b: Bus, action: Action) {
    match action
    case Appending(event) => true
    case OnAppend(event, p) => p < |f.incremental|
    case Batch(target, size) => size > 0 && target <= |b.log| && b.tracked
    case StartBuild(connection) => connection !in b.builds
    case BuildOn(connection, size) => size > 0 && connection in b.builds
    case Publish(connection) => connection in b.builds && b.builds[connection].from == b.builds[connection].target
    case Abandon(connection) => true
  }

  ghost function Next(f: Folds, b: Bus, action: Action): Bus
    requires Bounded(f, b) && Enabled(f, b, action)
  {
    match action
    case Appending(event) => b.(log := Append(b.log, event))
    case OnAppend(event, p) => AppendedAndReduced(f, b, event, p)
    case Batch(target, size) => ReducedBatch(f, b, target, size)
    case StartBuild(connection) => b.(builds := b.builds[connection := Build(|b.log|, 0, EMPTY)])
    case BuildOn(connection, size) => BuiltBatch(f, b, connection, size)
    case Publish(connection) => Published(f, b, connection)
    case Abandon(connection) => b.(builds := b.builds - {connection})
  }

  ghost function Fresh(f: Folds): Bus {
    Bus([], EMPTY, EMPTY, {}, 0, seq(|f.incremental|, _ => 0), false, map[])
  }

  ghost predicate IsRun(f: Folds, states: seq<Bus>, actions: seq<Action>) {
    && |states| == |actions| + 1
    && states[0] == Fresh(f)
    && forall i :: 0 <= i < |actions| ==>
         Bounded(f, states[i]) && Enabled(f, states[i], actions[i]) && states[i + 1] == Next(f, states[i], actions[i])
  }

  lemma NextIsFaithful(f: Folds, b: Bus, action: Action)
    requires WellFormed(f) && Inv(f, b) && Enabled(f, b, action)
    ensures Inv(f, Next(f, b, action))
  {
    match action
    case Appending(event) => AppendedIsFaithful(f, b, event);
    case OnAppend(event, p) => AppendedAndReducedIsFaithful(f, b, event, p);
    case Batch(target, size) =>
      if b.through < target {
        ReducedBatchIsFaithful(f, b, target, size);
      }
    case StartBuild(connection) =>
    case BuildOn(connection, size) => BuiltBatchIsFaithful(f, b, connection, size);
    case Publish(connection) => PublishedIsFaithful(f, b, connection);
    case Abandon(connection) =>
  }

  /** After any interleaving of appends, on-append folds, pending reductions and rebuilds, by any number of
      processes, the snapshot is the plain in-order fold of the log through user_version, live and the snapshot
      agree on every row not noted dirty, every event rejected in order has its record, and every rebuild under
      way holds the plain fold as far as it got. */
  lemma {:induction false} EveryRunIsFaithful(f: Folds, states: seq<Bus>, actions: seq<Action>, i: nat)
    requires WellFormed(f) && IsRun(f, states, actions) && i < |states|
    ensures Inv(f, states[i])
  {
    if i > 0 {
      EveryRunIsFaithful(f, states, actions, i - 1);
      NextIsFaithful(f, states[i - 1], actions[i - 1]);
    }
  }

  // ---------- the log in every state ----------

  lemma ReducedDistinct(f: Folds, b: Bus, p: nat)
    requires Bounded(f, b) && p < |f.incremental| && DistinctKeys(b.log)
    ensures DistinctKeys(ReducedProjection(f, b, p).log)
  {
    FoldedDistinct(f.incremental[p], Store(b.log, b.live, b.dirty), Pending(f.incremental[p], b.log, b.marks[p], |b.log|), b.tracked);
  }

  lemma {:induction false} MarkedDistinct(f: Folds, b: Bus, through: nat, p: nat)
    requires Bounded(f, b) && through <= |b.log| && p <= |f.incremental| && DistinctKeys(b.log)
    ensures DistinctKeys(MarkedInOrder(f, b, through, p).log)
  {
    hide MarkedInOrder, ReducedProjection, DistinctKeys;
    if p == 0 {
      MarkedNone(f, b, through);
    } else {
      MarkedDistinct(f, b, through, p - 1);
      MarkedNext(f, b, through, p - 1);
      var c := MarkedInOrder(f, b, through, p - 1);
      ReducedDistinct(f, c.(marks := c.marks[p - 1 := through]), p - 1);
    }
  }

  lemma BatchDistinct(f: Folds, b: Bus, target: nat, size: nat)
    requires Bounded(f, b) && size > 0 && target <= |b.log| && DistinctKeys(b.log)
    ensures DistinctKeys(ReducedBatch(f, b, target, size).log)
  {
    hide DistinctKeys, MarkedInOrder;
    if b.through < target {
      var ids := FirstOf(Pending(f.inOrder, b.log, b.through, target), size);
      var s := FoldedAll(f.inOrder, Store(b.log, Restored(b.live, b.snap, b.dirty), {}), ids, true);
      FoldedDistinct(f.inOrder, Store(b.log, Restored(b.live, b.snap, b.dirty), {}), ids, true);
      var c := b.(log := s.log, live := s.tables, snap := Restored(b.snap, s.tables, s.dirty), dirty := {});
      BatchIsRange(f.inOrder, b.log, b.through, target, size);
      MarkedDistinct(f, c, BatchThrough(ids, size, b.through, target), |f.incremental|);
    }
  }

  lemma NextDistinct(f: Folds, b: Bus, action: Action)
    requires Bounded(f, b) && Enabled(f, b, action) && DistinctKeys(b.log)
    ensures DistinctKeys(Next(f, b, action).log)
  {
    hide DistinctKeys, MarkedInOrder, ReducedProjection, FoldedAll;
    match action
    case Appending(event) => AppendDistinct(b.log, event);
    case OnAppend(event, p) =>
      AppendDistinct(b.log, event);
      ReducedDistinct(f, AppendedFor(b, event, p), p);
    case Batch(target, size) => BatchDistinct(f, b, target, size);
    case StartBuild(connection) =>
    case BuildOn(connection, size) =>
      var Build(target, from, shadow) := b.builds[connection];
      if from < target {
        FoldedDistinct(f.inOrder, Store(b.log, shadow, {}), FirstOf(Pending(f.inOrder, b.log, from, target), size), false);
      }
    case Publish(connection) =>
      var Build(target, from, shadow) := b.builds[connection];
      MarkedDistinct(f, b.(live := shadow, snap := shadow, dirty := {}, tracked := true, builds := b.builds - {connection}), target, |f.incremental|);
    case Abandon(connection) =>
  }

  /** In every state of every run no two events of the log have one dedupe key. */
  lemma {:induction false} EveryRunDistinct(f: Folds, states: seq<Bus>, actions: seq<Action>, i: nat)
    requires IsRun(f, states, actions) && i < |states|
    ensures DistinctKeys(states[i].log)
  {
    hide Next, DistinctKeys;
    if i == 0 {
      NothingIsDistinct();
    } else {
      EveryRunDistinct(f, states, actions, i - 1);
      NextDistinct(f, states[i - 1], actions[i - 1]);
    }
  }

  lemma NothingIsDistinct()
    ensures DistinctKeys([])
  {
  }

  /** The event a writer appends takes no key of a record. */
  predicate KeepsKeys(action: Action) {
    match action
    case Appending(event) => KeyKept(event)
    case OnAppend(event, _) => KeyKept(event)
    case _ => true
  }

  lemma NextKeepsKeys(f: Folds, b: Bus, action: Action)
    requires WellFormed(f) && Inv(f, b) && Enabled(f, b, action) && KeepsKeys(action) && KeysKept(b.log)
    ensures KeysKept(Next(f, b, action).log)
  {
    match action
    case OnAppend(event, p) =>
      var c := AppendedFor(b, event, p);
      assert KeysKept(c.log);
      AppendHolds(b.log, event);
      ReducedProjectionFacts(f, c, p);
      KeysStayKept(c.log, Next(f, b, action).log);
    case Batch(target, size) =>
      if b.through < target {
        ReducedBatchIsFaithful(f, b, target, size);
        KeysStayKept(b.log, Next(f, b, action).log);
      }
    case BuildOn(connection, size) =>
      BuiltBatchIsFaithful(f, b, connection, size);
      KeysStayKept(b.log, Next(f, b, action).log);
    case Publish(connection) =>
      PublishedIsFaithful(f, b, connection);
      KeysStayKept(b.log, Next(f, b, action).log);
    case _ =>
  }

  lemma {:induction false} EveryRunKeepsKeys(f: Folds, states: seq<Bus>, actions: seq<Action>, i: nat)
    requires WellFormed(f) && IsRun(f, states, actions) && i < |states| && forall k :: 0 <= k < |actions| ==> KeepsKeys(actions[k])
    ensures KeysKept(states[i].log)
  {
    hide Next, KeysKept, Inv;
    if i == 0 {
      NothingIsKept();
    } else {
      EveryRunKeepsKeys(f, states, actions, i - 1);
      EveryRunIsFaithful(f, states, actions, i - 1);
      NextKeepsKeys(f, states[i - 1], actions[i - 1]);
    }
  }

  lemma NothingIsKept()
    ensures KeysKept([])
  {
  }

  /** Folding an incremental projection records its rejections too: exactly those of its pending events that its plain
      fold rejects over the live tables. */
  lemma ReducedRecords(f: Folds, b: Bus, p: nat)
    requires WellFormed(f) && Bounded(f, b) && p < |f.incremental|
    ensures
      var r := ReducedProjection(f, b, p);
      && |b.log| <= |r.log| && r.log[..|b.log|] == b.log
      && (forall k :: |b.log| <= k < |r.log| ==> RecordsARejection(f.incremental[p], b.log, b.live, b.marks[p], |b.log|, r.log[k]))
      && (KeysKept(b.log) ==> EachHasItsRecord(f.incremental[p], b.log, b.live, b.marks[p], |b.log|, r.log))
  {
    hide FoldedAll, EachHasItsRecord, RecordsARejection;
    ReducedProjectionFacts(f, b, p);
    RecordsAreOfRejections(f.incremental[p], Store(b.log, b.live, b.dirty), b.marks[p], |b.log|, b.tracked);
    assert ReducedProjection(f, b, p).log
           == FoldedAll(f.incremental[p], Store(b.log, b.live, b.dirty), Pending(f.incremental[p], b.log, b.marks[p], |b.log|), b.tracked).log;
  }

  /** In every state of every run each event through user_version that is rejected in order has a record of its own,
      of the type of rejections and under its dedupe key. */
  lemma EveryRejectionHasItsRecord(f: Folds, states: seq<Bus>, actions: seq<Action>, i: nat)
    requires WellFormed(f) && IsRun(f, states, actions) && i < |states| && forall k :: 0 <= k < |actions| ==> KeepsKeys(actions[k])
    ensures Bounded(f, states[i])
    ensures states[i].tracked ==> EachHasItsRecord(f.inOrder, states[i].log, EMPTY, 0, states[i].through, states[i].log)
  {
    EveryRunIsFaithful(f, states, actions, i);
    EveryRunKeepsKeys(f, states, actions, i);
    if states[i].tracked {
      RecordedIsNamed(f.inOrder, states[i].log, EMPTY, 0, states[i].through, states[i].log);
    }
  }
}
