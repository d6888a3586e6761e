/** The bus database as the programs write it, field by field and loop by loop:
    scripts/core/reducer.ts, watermark.ts, rejection.ts. */
module Reducer {
  import opened Options
  import opened Projections
  import opened BusState

  /** How many of the events their fold rejects, each on what the ones before have left. */
  ghost function Refusals(projector: Projector, s: Store, ids: seq<nat>, tracked: bool): nat
    requires Within(ids, |s.log|)
  {
    if ids == [] then 0
    else
      var first, r := ids[..|ids| - 1], FoldedAll(projector, s, ids[..|ids| - 1], tracked);
      Refusals(projector, s, first, tracked)
      + if projector.fold(r.tables, r.log[..ids[|ids| - 1] + 1]).None? then 1 else 0
  }

  lemma NothingRefused(projector: Projector, s: Store, ids: seq<nat>, tracked: bool)
    ensures FoldedAll(projector, s, ids[..0], tracked) == s && Refusals(projector, s, ids[..0], tracked) == 0
  {
  }

  lemma RefusedNext(projector: Projector, s: Store, ids: seq<nat>, k: nat, tracked: bool)
    requires Within(ids, |s.log|) && k < |ids|
    ensures
      var r := FoldedAll(projector, s, ids[..k], tracked);
      && FoldedAll(projector, s, ids[..k + 1], tracked) == AppliedOrRejected(projector, r, ids[k], tracked)
      && Refusals(projector, s, ids[..k + 1], tracked) ==
         Refusals(projector, s, ids[..k], tracked) + if projector.fold(r.tables, r.log[..ids[k] + 1]).None? then 1 else 0
  {
    assert ids[..k + 1][..k] == ids[..k];
  }

  class BusDb {
    const folds: Folds
    var log: seq<Event>
    var live: Tables
    var snap: Tables
    var dirty: set<RowKey>
    var through: nat
    var marks: seq<nat>
    var tracked: bool

    /** The shared state; the rebuilds of other connections are not part of this object. */
    ghost function View(): Bus
      reads this
    {
      Bus(log, live, snap, dirty, through, marks, tracked, map[])
    }

    ghost predicate Valid()
      reads this
    {
      WellFormed(folds) && Inv(folds, View())
    }

    constructor (folds: Folds)
      requires WellFormed(folds)
      ensures this.folds == folds && Valid() && View() == Fresh(folds)
    {
      this.folds := folds;
      log, live, snap, dirty, through, tracked := [], EMPTY, EMPTY, {}, 0, false;
      marks := seq(|folds.incremental|, _ => 0);
    }

    /** appendEvent */
    method AppendEvent(event: Event) returns (appended: bool)
      requires Valid()
      modifies this`log
      ensures Valid() && log == Append(old(log), event)
      ensures appended <==> !Holds(old(log), event.dedupeKey)
    {
      AppendedIsFaithful(folds, View(), event);
      appended := !Holds(log, event.dedupeKey);
      if appended {
        log := log + [event];
      }
    }

    /** foldInOrder, and the loop of reduceProjection: savepoint, apply, release or roll back and record. */
    method FoldEvents(projector: Projector, ids: seq<nat>) returns (applied: nat, rejected: nat)
      requires Within(ids, |log|)
      modifies this`log, this`live, this`dirty
      ensures Store(log, live, dirty) == FoldedAll(projector, old(Store(log, live, dirty)), ids, tracked)
      ensures applied + rejected == |ids| && rejected == Refusals(projector, old(Store(log, live, dirty)), ids, tracked)
    {
      hide FoldedAll, Refusals;
      applied, rejected := 0, 0;
      NothingRefused(projector, Store(log, live, dirty), ids, tracked);
      ghost var start := Store(log, live, dirty);
      for k := 0 to |ids|
        invariant Store(log, live, dirty) == FoldedAll(projector, start, ids[..k], tracked)
        invariant applied + rejected == k && rejected == Refusals(projector, start, ids[..k], tracked)
      {
        RefusedNext(projector, start, ids, k, tracked);
        var event := log[ids[k]];
        match projector.fold(live, log[..ids[k] + 1])
        case Some(writes) =>
          live := AppliedAll(live, writes);
          if tracked {
            dirty := dirty + Touched(writes);
          }
          applied := applied + 1;
        case None =>
          log := Append(log, RejectionOf(event));
          rejected := rejected + 1;
      }
      assert ids[..|ids|] == ids;
    }

    method ReduceProjection(p: nat)
      requires Bounded(folds, View()) && p < |folds.incremental|
      modifies this`log, this`live, this`dirty, this`marks
      ensures View() == ReducedProjection(folds, old(View()), p)
    {
      var last := |log|;
      var ids := Pending(folds.incremental[p], log, marks[p], last);
      var applied, rejected := FoldEvents(folds.incremental[p], ids);
      marks := marks[p := last];
    }

    /** appendedAndReduced, appendedOnCard, observeChain: one transaction. */
    method AppendAndReduce(event: Event, p: nat) returns (appended: bool)
      requires Valid() && p < |folds.incremental|
      modifies this`log, this`live, this`dirty, this`marks
      ensures Valid() && View() == AppendedAndReduced(folds, old(View()), event, p)
      ensures appended <==> !Holds(old(log), event.dedupeKey)
    {
      AppendedAndReducedIsFaithful(folds, View(), event, p);
      var current := |log|;
      appended := AppendEvent(event);
      if marks[p] == 0 {
        marks := marks[p := current];
      }
      ReduceProjection(p);
    }

    method MarkInOrderThrough(last: nat)
      requires Bounded(folds, View()) && last <= |log|
      modifies this`log, this`live, this`dirty, this`marks, this`through
      ensures View() == MarkedInOrder(folds, old(View()), last, |folds.incremental|)
    {
      hide MarkedInOrder, ReducedProjection;
      ghost var before := View();
      MarkedNone(folds, before, last);
      through := last;
      for p := 0 to |folds.incremental|
        invariant View() == MarkedInOrder(folds, before, last, p)
      {
        MarkedNext(folds, before, last, p);
        marks := marks[p := last];
        ReduceProjection(p);
      }
    }

    /** restoreDirtyRows */
    method RestoreDirtyRows()
      modifies this`live, this`dirty
      ensures live == Restored(old(live), snap, old(dirty)) && dirty == {}
    {
      var kept := map key | key in live.rows && key !in dirty :: live.rows[key];
      var restored := map key | key in snap.rows && key in dirty :: snap.rows[key];
      live := Tables(kept + restored, snap.sequences);
      dirty := {};
    }

    /** snapshotDirtyRows */
    method SnapshotDirtyRows()
      modifies this`snap, this`dirty
      ensures snap == Restored(old(snap), live, old(dirty)) && dirty == {}
    {
      var kept := map key | key in snap.rows && key !in dirty :: snap.rows[key];
      var copied := map key | key in live.rows && key in dirty :: live.rows[key];
      snap := Tables(kept + copied, live.sequences);
      dirty := {};
    }

    /** The middle of reduceBatch: restore the noted rows, fold the batch, copy the rows it wrote. */
    method FoldBatch(ids: seq<nat>)
      requires Bounded(folds, View()) && tracked && Within(ids, |log|)
      modifies this`log, this`live, this`snap, this`dirty
      ensures
        var s := FoldedAll(folds.inOrder, Store(old(log), Restored(old(live), old(snap), old(dirty)), {}), ids, true);
        View() == old(View()).(log := s.log, live := s.tables, snap := Restored(old(snap), s.tables, s.dirty), dirty := {})
    {
      RestoreDirtyRows();
      var applied, rejected := FoldEvents(folds.inOrder, ids);
      SnapshotDirtyRows();
    }

    /** reduceBatch: one transaction; says whether another batch is needed. */
    method ReduceBatch(target: nat, size: nat) returns (another: bool)
      requires Bounded(folds, View()) && tracked && size > 0 && target <= |log|
      modifies this
      ensures View() == ReducedBatch(folds, old(View()), target, size)
      ensures another <==> old(through) < target && through < target
    {
      if through >= target {
        return false;
      }
      var ids := FirstOf(Pending(folds.inOrder, log, through, target), size);
      var end := BatchThrough(ids, size, through, target);
      BatchIsRange(folds.inOrder, log, through, target, size);
      FoldBatch(ids);
      MarkInOrderThrough(end);
      another := end < target;
    }

    /** One transaction of buildBesideTheLiveProjections; the shadow tables belong to the connection. */
    method BuildBatch(shadow: Tables, from: nat, target: nat, size: nat) returns (tables: Tables, end: nat)
      requires Bounded(folds, View()) && size > 0 && from < target <= |log|
      modifies this`log
      ensures from < end <= target && |old(log)| <= |log|
      ensures
        var before := old(View()).(builds := map[0 := Build(target, from, shadow)]);
        View().(builds := map[0 := Build(target, end, tables)]) == BuiltBatch(folds, before, 0, size)
    {
      var ids := FirstOf(Pending(folds.inOrder, log, from, target), size);
      BatchIsRange(folds.inOrder, log, from, target, size);
      tables := FoldBeside(ids, shadow);
      end := BatchThrough(ids, size, from, target);
    }

    method PublishTheShadows(shadow: Tables, target: nat)
      requires Bounded(folds, View()) && target <= |log|
      modifies this
      ensures View() == Published(folds, old(View()).(builds := map[0 := Build(target, target, shadow)]), 0)
    {
      live, snap, dirty, tracked := shadow, shadow, {}, true;
      assert map[0 := Build(target, target, shadow)] - {0} == map[];
      MarkInOrderThrough(target);
    }

    /** buildBesideTheLiveProjections, with nobody else writing meanwhile. */
    method BuildBeside(target: nat, size: nat)
      requires Valid() && size > 0 && target <= |log|
      modifies this
      ensures Valid() && tracked && through == target && OnlyRejectionsAdded(old(log), log)
      ensures snap == InOrder(folds, log, target)
      ensures live == CaughtUp(folds, log, InOrder(folds, log, target), target, |folds.incremental|)
    {
      var shadow, from := EMPTY, 0;
      assert log[..|log|] == log;
      while from < target
        invariant from <= target <= |log| && Inv(folds, View().(builds := map[0 := Build(target, from, shadow)]))
        invariant OnlyRejectionsAdded(old(log), log)
        decreases target - from
      {
        ghost var before := View().(builds := map[0 := Build(target, from, shadow)]);
        BuiltBatchIsFaithful(folds, before, 0, size);
        shadow, from := BuildBatch(shadow, from, target, size);
        RejectionsAddUp(old(log), before.log, log);
      }
      ghost var built := View().(builds := map[0 := Build(target, from, shadow)]);
      PublishedIsFaithful(folds, built, 0);
      PublishTheShadows(shadow, target);
      RejectionsAddUp(old(log), built.log, log);
    }

    /** foldInOrder on the shadow tables, which no trigger watches. */
    method FoldBeside(ids: seq<nat>, shadow: Tables) returns (tables: Tables)
      requires Within(ids, |log|)
      modifies this`log
      ensures Store(log, tables, {}) == FoldedAll(folds.inOrder, Store(old(log), shadow, {}), ids, false)
    {
      tables := shadow;
      for k := 0 to |ids|
        invariant Store(log, tables, {}) == FoldedAll(folds.inOrder, Store(old(log), shadow, {}), ids[..k], false)
      {
        assert ids[..k + 1][..k] == ids[..k];
        match folds.inOrder.fold(tables, log[..ids[k] + 1])
        case Some(writes) => tables := AppliedAll(tables, writes);
        case None => log := Append(log, RejectionOf(log[ids[k]]));
      }
      assert ids[..|ids|] == ids;
    }

    /** reduce: pending or rebuild, in batches of any size, ends with the same projections: the plain in-order
        fold of the whole log as it was found. Nothing but records of rejections joins the log. */
    method Reduce(rebuild: bool, size: nat)
      requires Valid() && size > 0
      modifies this
      ensures Valid() && tracked && through == |old(log)| && OnlyRejectionsAdded(old(log), log)
      ensures live == snap == InOrder(folds, old(log), |old(log)|)
      ensures RejectionsRecorded(folds.inOrder, log, EMPTY, 0, |old(log)|, log)
      ensures KeysKept(old(log)) ==> EachHasItsRecord(folds.inOrder, log, EMPTY, 0, |old(log)|, log)
    {
      var target := |log|;
      assert log[..|log|] == log;
      if rebuild || !tracked {
        BuildBeside(target, size);
      }
      ghost var start := View();
      var another := true;
      while another
        invariant Valid() && tracked && through <= target <= |log|
        invariant OnlyRejectionsAdded(old(log), log)
        invariant View() == start || live == CaughtUp(folds, log, InOrder(folds, log, through), through, |folds.incremental|)
        invariant !another ==> through == target
        decreases target - through, another
      {
        ghost var before := View();
        assert log[..|log|] == log;
        if through < target {
          ReducedBatchIsFaithful(folds, before, target, size);
        }
        another := ReduceBatch(target, size);
        RejectionsAddUp(old(log), before.log, log);
      }
      InOrderLater(folds, old(log), log, target);
      if KeysKept(old(log)) {
        KeysStayKept(old(log), log);
        RecordedIsNamed(folds.inOrder, log, EMPTY, 0, target, log);
      }
      CaughtUpSkips(folds, log, InOrder(folds, log, target), target, |folds.incremental|);
    }
  }
}
