/** What a delivery and a tick of scripts/core/node.ts leave behind: which of the tasks found are detected. */
module Detections {
  import opened Options
  import opened Delivery

  /** The key under which a process records what it saw of a task. */
  function RecordKey(key: string, live: bool, via: Via): Dedupe {
    DetectedOnce(key, if live then None else Some(via))
  }

  /** The store when a commit reaches its k-th detection. */
  function Reached(s: Store, actor: string, live: bool, detections: seq<Detection>, through: nat, k: nat): Store
    requires k <= |detections|
  {
    RecordedAll(s, actor, live, detections, ByEvent, through, k)
  }

  predicate Stands(s: Store, actor: string, live: bool, detections: seq<Detection>, through: nat, k: nat)
    requires k < |detections|
  {
    StillStands(Reached(s, actor, live, detections, through, k), actor, detections[k].task, through)
  }

  /** The k-th detection of a commit queues its task anew. */
  predicate QueuesAnew(s: Store, actor: string, live: bool, detections: seq<Detection>, through: nat, k: nat)
    requires k < |detections|
  {
    && live && Stands(s, actor, live, detections, through, k)
    && !Has(Reached(s, actor, live, detections, through, k).log, EnqueuedOnce(detections[k].task.key))
  }

  /** An event about the first task counts as a change of the second. */
  predicate Shares(a: Task, b: Task) {
    a.card == b.card || (b.pr.Some? && a.pr == b.pr)
  }

  /** One of the first k detections queues anew a task of the same card or pull request. */
  predicate Crowded(s: Store, actor: string, live: bool, detections: seq<Detection>, through: nat, k: nat, task: Task)
    requires k <= |detections|
  {
    exists j :: 0 <= j < k && QueuesAnew(s, actor, live, detections, through, j) && Shares(detections[j].task, task)
  }

  /** What a change of the log by one event does to a task that stood. */
  lemma StandsAfterAppend(s: Store, t: Store, event: LogEvent, actor: string, task: Task, through: nat)
    requires through <= |s.log| && t.log == s.log + [event]
    requires task.key in t.taken <==> task.key in s.taken
    requires task.key in s.taken ==> t.taken[task.key] == s.taken[task.key]
    ensures StillStands(t, actor, task, through) <==>
            StillStands(s, actor, task, through)
            && (event.actor == actor || (event.card != Some(task.card) && (task.pr.None? || event.pr != task.pr)))
  {
    assert t.log[|s.log|] == event;
    assert forall i :: 0 <= i < |s.log| ==> t.log[i] == s.log[i];
  }

  lemma StandsAfterRecord(s: Store, actor: string, live: bool, recorded: Task, via: Via, eventId: nat, task: Task, through: nat)
    requires through <= |s.log| && actor != QUEUE_ACTOR && recorded.key != task.key
    ensures StillStands(Recorded(s, actor, live, recorded, via, eventId), actor, task, through) <==>
            StillStands(s, actor, task, through)
            && !(live && !Has(s.log, EnqueuedOnce(recorded.key)) && Shares(recorded, task))
  {
    hide StillStands, Has;
    var t := if live then Queued(s, recorded) else s;
    if live && !Has(s.log, EnqueuedOnce(recorded.key)) {
      var queued := LogEvent(QUEUE_ACTOR, Some(recorded.card), recorded.pr, EnqueuedOnce(recorded.key), Other);
      StandsAfterAppend(s, t, queued, actor, task, through);
    }
    var event := LogEvent(actor, Some(recorded.card), recorded.pr, RecordKey(recorded.key, live, via), Report(recorded.key, via, eventId));
    if !Has(t.log, event.dedupe) {
      StandsAfterAppend(t, t.(log := t.log + [event]), event, actor, task, through);
    }
  }

  /** A task stands when a commit gets to it exactly if it stood at the start and no task queued on the way is one of
      its card or pull request. */
  lemma {:induction false} StandsWhenReached(s: Store, actor: string, live: bool, detections: seq<Detection>, through: nat, k: nat, task: Task)
    requires through <= |s.log| && actor != QUEUE_ACTOR && k <= |detections|
    requires forall j :: 0 <= j < k ==> detections[j].task.key != task.key
    ensures StillStands(Reached(s, actor, live, detections, through, k), actor, task, through) <==>
            StillStands(s, actor, task, through) && !Crowded(s, actor, live, detections, through, k, task)
  {
    hide StillStands, Recorded, Has, Shares, RecordedAll;
    if k == 0 {
      NothingReached(s, actor, live, detections, through);
    } else {
      StandsWhenReached(s, actor, live, detections, through, k - 1, task);
      ReachedNext(s, actor, live, detections, through, k - 1);
      RecordedAllExtends(s, actor, live, detections, ByEvent, through, k - 1);
      var t, d := Reached(s, actor, live, detections, through, k - 1), detections[k - 1];
      StandsAfterRecord(t, actor, live, d.task, ByEvent, d.eventId, task, through);
      CrowdedNext(s, actor, live, detections, through, k - 1, task);
    }
  }

  lemma NothingReached(s: Store, actor: string, live: bool, detections: seq<Detection>, through: nat)
    ensures Reached(s, actor, live, detections, through, 0) == s
  {
  }

  lemma ReachedNext(s: Store, actor: string, live: bool, detections: seq<Detection>, through: nat, k: nat)
    requires k < |detections|
    ensures Reached(s, actor, live, detections, through, k + 1) ==
            (var t, d := Reached(s, actor, live, detections, through, k), detections[k];
             if Stands(s, actor, live, detections, through, k) then Recorded(t, actor, live, d.task, ByEvent, d.eventId) else t)
  {
  }

  lemma CrowdedNext(s: Store, actor: string, live: bool, detections: seq<Detection>, through: nat, k: nat, task: Task)
    requires k < |detections|
    ensures Crowded(s, actor, live, detections, through, k + 1, task) <==>
            Crowded(s, actor, live, detections, through, k, task)
            || (QueuesAnew(s, actor, live, detections, through, k) && Shares(detections[k].task, task))
  {
  }

  lemma HasAfterAppend(log: seq<LogEvent>, event: LogEvent, dedupe: Dedupe)
    ensures Has(Appended(log, event), dedupe) <==> Has(log, dedupe) || dedupe == event.dedupe
  {
    var later := Appended(log, event);
    if later != log {
      assert later[|log|] == event;
    }
    assert forall i :: 0 <= i < |log| ==> later[i] == log[i];
  }

  lemma HasAfterRecord(s: Store, actor: string, live: bool, task: Task, via: Via, eventId: nat, key: string)
    ensures Has(Recorded(s, actor, live, task, via, eventId).log, RecordKey(key, live, via)) <==>
            Has(s.log, RecordKey(key, live, via)) || key == task.key
  {
    hide Has;
    var t := if live then Queued(s, task) else s;
    HasAfterAppend(s.log, LogEvent(QUEUE_ACTOR, Some(task.card), task.pr, EnqueuedOnce(task.key), Other), RecordKey(key, live, via));
    HasAfterAppend(t.log, LogEvent(actor, Some(task.card), task.pr, RecordKey(task.key, live, via), Report(task.key, via, eventId)),
                   RecordKey(key, live, via));
  }

  /** One of the first k detections is of the key and stands when it is reached. */
  predicate StandsAmong(s: Store, actor: string, live: bool, detections: seq<Detection>, through: nat, k: nat, key: string)
    requires k <= |detections|
  {
    exists j :: 0 <= j < k && detections[j].task.key == key && Stands(s, actor, live, detections, through, j)
  }

  lemma StandsAmongNext(s: Store, actor: string, live: bool, detections: seq<Detection>, through: nat, k: nat, key: string)
    requires k < |detections|
    ensures StandsAmong(s, actor, live, detections, through, k + 1, key) <==>
            StandsAmong(s, actor, live, detections, through, k, key)
            || (detections[k].task.key == key && Stands(s, actor, live, detections, through, k))
  {
  }

  /** A commit adds the records of exactly the detections that stand when they are reached. */
  lemma {:induction false} RecordsTheStanding(s: Store, actor: string, live: bool, detections: seq<Detection>, through: nat, k: nat, key: string)
    requires k <= |detections|
    ensures Has(Reached(s, actor, live, detections, through, k).log, RecordKey(key, live, ByEvent)) <==>
            Has(s.log, RecordKey(key, live, ByEvent)) || StandsAmong(s, actor, live, detections, through, k, key)
  {
    hide RecordedAll, Recorded, Has, Stands, Reached;
    if k == 0 {
      NothingReached(s, actor, live, detections, through);
    } else {
      RecordsTheStanding(s, actor, live, detections, through, k - 1, key);
      ReachedNext(s, actor, live, detections, through, k - 1);
      StandsAmongNext(s, actor, live, detections, through, k - 1, key);
      var t, d := Reached(s, actor, live, detections, through, k - 1), detections[k - 1];
      HasAfterRecord(t, actor, live, d.task, ByEvent, d.eventId, key);
    }
  }

  // ---------- a delivery ----------

  lemma {:induction false} LogGrows(cfg: Config, worlds: seq<World>, steps: seq<Step>, m: nat, n: nat)
    requires IsRun(cfg, worlds, steps) && m <= n < |worlds|
    ensures Extends(worlds[m].store.log, worlds[n].store.log)
    decreases n
  {
    hide Next, Enabled;
    if m == n {
      assert worlds[m].store.log[..|worlds[m].store.log|] == worlds[m].store.log;
    } else {
      LogGrows(cfg, worlds, steps, m, n - 1);
      assert Goes(cfg, worlds[n - 1], steps[n - 1], worlds[n]);
      NextExtends(cfg, worlds[n - 1], steps[n - 1]);
      ExtendsTwice(worlds[m].store.log, worlds[n - 1].store.log, worlds[n].store.log);
    }
  }

  lemma {:induction false} MatchingIsScoped(cfg: Config, log: seq<LogEvent>, after: nat, through: nat, id: nat) returns (k: nat)
    requires through <= |log| && after < id <= through && Matching(cfg, log, id)
    ensures k < |Scoped(cfg, log, after, through)|
    ensures Scoped(cfg, log, after, through)[k] == ScopedEvent(id, cfg.scopeOf(log[id - 1]))
  {
    if id == through {
      k := |Scoped(cfg, log, after, through)| - 1;
    } else {
      k := MatchingIsScoped(cfg, log, after, through - 1, id);
    }
  }

  /** Of the tasks found, every one in the scope of a matching event of the window has a detection of its key. */
  lemma FoundIsDetected(found: seq<Task>, events: seq<ScopedEvent>, task: Task, e: nat) returns (k: nat)
    requires e < |events| && task in found && InScope(task, events[e].scope)
    ensures k < |Firsts(found, events, |events|)| && Firsts(found, events, |events|)[k].task.key == task.key
    ensures forall j :: 0 <= j < k ==> Firsts(found, events, |events|)[j].task.key != task.key
  {
    FirstsHold(found, events, |events|);
    var first := Firsts(found, events, |events|);
    var i :| 0 <= i < |found| && found[i] == task;
    assert Finds(found, events[e], task.key);
    assert FindsBefore(found, events, |events|, task.key);
    k :| 0 <= k < |first| && first[k].task.key == task.key;
  }

  /** A delivery that is committed: process n read the tasks found at step r and commits at step c, with the cursor
      where it read it. */
  ghost predicate Delivered(cfg: Config, worlds: seq<World>, steps: seq<Step>, n: nat, r: nat, c: nat, found: seq<Task>) {
    && IsRun(cfg, worlds, steps) && r < c < |steps|
    && steps[r] == ReadEvents(n, found) && steps[c] == Commit(n)
    && PhaseOf(worlds[c], n) == PhaseOf(worlds[r + 1], n) && PhaseOf(worlds[c], n).Found?
    && worlds[c].cursor == PhaseOf(worlds[c], n).cursor
  }

  /** A matching event asks for the task: it has no scope, or the pull request and the card its scope names, if any,
      are those of the task. */
  predicate AskedFor(cfg: Config, e: LogEvent, task: Task) {
    match cfg.scopeOf(e)
    case WholeQueue => true
    case Scope(Some(pr), Some(card)) => task.pr == Some(pr) && task.card == card
    case Scope(Some(pr), None) => task.pr == Some(pr)
    case Scope(None, Some(card)) => task.card == card
    case Scope(None, None) => true
  }

  /** Nothing has happened to the task since: its row stands at no later event, and nobody else wrote of its card or its
      pull request. */
  ghost predicate Untouched(s: Store, actor: string, task: Task, through: nat) {
    && (task.key in s.taken ==> s.taken[task.key] <= through)
    && !(exists i :: through <= i < |s.log| && s.log[i].actor != actor && WritesOf(s.log[i], task))
  }

  predicate WritesOf(e: LogEvent, task: Task) {
    e.card == Some(task.card) || (task.pr.Some? && e.pr == task.pr)
  }

  lemma UntouchedStands(s: Store, actor: string, task: Task, through: nat)
    ensures StillStands(s, actor, task, through) <==> Untouched(s, actor, task, through)
  {
    if !StillStands(s, actor, task, through) && (task.key in s.taken ==> s.taken[task.key] <= through) {
      var i :| through <= i < |s.log| && s.log[i].actor != actor
               && !(s.log[i].card != Some(task.card) && (task.pr.None? || s.log[i].pr != task.pr));
      assert WritesOf(s.log[i], task);
    }
  }

  /** Every task found that a matching event of the window asks for has a detection, and after the commit it is recorded
      exactly if it was before, or if nothing happened to it up to the commit and none of the tasks queued ahead of it
      is of its card or pull request. */
  lemma DeliveryDetects(cfg: Config, worlds: seq<World>, steps: seq<Step>, n: nat, r: nat, c: nat, found: seq<Task>, id: nat, task: Task)
    returns (k: nat)
    requires Delivered(cfg, worlds, steps, n, r, c, found) && cfg.actor(n) != QUEUE_ACTOR && task in found
    requires After(worlds[c].cursor) < id <= PhaseOf(worlds[c], n).through
    requires Matching(cfg, worlds[c].store.log, id) && AskedFor(cfg, worlds[c].store.log[id - 1], task)
    ensures
      var w, v, phase := worlds[c], worlds[c + 1], PhaseOf(worlds[c], n);
      && k < |phase.detections| && phase.detections[k].task.key == task.key
      && (Has(v.store.log, RecordKey(task.key, cfg.live(n), ByEvent)) <==>
          || Has(w.store.log, RecordKey(task.key, cfg.live(n), ByEvent))
          || (&& Untouched(w.store, cfg.actor(n), phase.detections[k].task, phase.through)
              && !Crowded(w.store, cfg.actor(n), cfg.live(n), phase.detections, phase.through, k, phase.detections[k].task)))
  {
    var w, phase := worlds[c], PhaseOf(worlds[c], n);
    k := WindowDetects(cfg, worlds, steps, n, r, c, found, id, task);
    CommitRecords(cfg, w, n, k);
    UntouchedStands(w.store, cfg.actor(n), phase.detections[k].task, phase.through);
    assert Goes(cfg, w, steps[c], worlds[c + 1]);
  }

  lemma WindowDetects(cfg: Config, worlds: seq<World>, steps: seq<Step>, n: nat, r: nat, c: nat, found: seq<Task>, id: nat, task: Task)
    returns (k: nat)
    requires Delivered(cfg, worlds, steps, n, r, c, found) && task in found
    requires After(worlds[c].cursor) < id <= PhaseOf(worlds[c], n).through
    requires Matching(cfg, worlds[c].store.log, id) && InScope(task, cfg.scopeOf(worlds[c].store.log[id - 1]))
    ensures PhaseOf(worlds[c], n).through <= |worlds[c].store.log| && KeysOnce(PhaseOf(worlds[c], n).detections)
    ensures k < |PhaseOf(worlds[c], n).detections| && PhaseOf(worlds[c], n).detections[k].task.key == task.key
  {
    hide Firsts, Scoped;
    var w, phase := worlds[r], PhaseOf(worlds[r], n);
    assert Goes(cfg, w, steps[r], worlds[r + 1]);
    LogGrows(cfg, worlds, steps, r, c);
    KeepsEarlier(w.store.log, worlds[c].store.log);
    var events := Scoped(cfg, w.store.log, After(phase.cursor), phase.through);
    var e := MatchingIsScoped(cfg, w.store.log, After(phase.cursor), phase.through, id);
    k := FoundIsDetected(found, events, task, e);
    FirstsHold(found, events, |events|);
  }

  ghost predicate KeysOnce(detections: seq<Detection>) {
    forall a, b :: 0 <= a < b < |detections| ==> detections[a].task.key != detections[b].task.key
  }

  lemma CommitRecords(cfg: Config, w: World, n: nat, k: nat)
    requires PhaseOf(w, n).Found? && w.cursor == PhaseOf(w, n).cursor && cfg.actor(n) != QUEUE_ACTOR
    requires PhaseOf(w, n).through <= |w.store.log| && KeysOnce(PhaseOf(w, n).detections) && k < |PhaseOf(w, n).detections|
    ensures
      var v, phase, live := Next(cfg, w, Commit(n)), PhaseOf(w, n), cfg.live(n);
      var task := phase.detections[k].task;
      Has(v.store.log, RecordKey(task.key, live, ByEvent)) <==>
      || Has(w.store.log, RecordKey(task.key, live, ByEvent))
      || (&& StillStands(w.store, cfg.actor(n), task, phase.through)
          && !Crowded(w.store, cfg.actor(n), live, phase.detections, phase.through, k, task))
  {
    hide StillStands, Has, Crowded, RecordedAll;
    var actor, live, phase := cfg.actor(n), cfg.live(n), PhaseOf(w, n);
    var d := phase.detections;
    RecordsTheStanding(w.store, actor, live, d, phase.through, |d|, d[k].task.key);
    StandsWhenReached(w.store, actor, live, d, phase.through, k, d[k].task);
  }

  /** A live delivery queues no two new tasks of one card, nor of one pull request. */
  lemma OnePerCard(s: Store, actor: string, live: bool, detections: seq<Detection>, through: nat, j: nat, k: nat)
    requires through <= |s.log| && actor != QUEUE_ACTOR && KeysOnce(detections) && j < k < |detections|
    requires QueuesAnew(s, actor, live, detections, through, j) && QueuesAnew(s, actor, live, detections, through, k)
    ensures !Shares(detections[j].task, detections[k].task)
  {
    hide StillStands, Has, RecordedAll;
    StandsWhenReached(s, actor, live, detections, through, k, detections[k].task);
  }

  // ---------- a tick ----------

  predicate StandsInTick(before: Store, actor: string, found: seq<Task>, through: nat, k: nat, key: string)
    requires k <= |found|
  {
    exists j :: 0 <= j < k && found[j].key == key && StillStands(before, actor, found[j], through)
  }

  lemma StandsInTickNext(before: Store, actor: string, found: seq<Task>, through: nat, k: nat, key: string)
    requires k < |found|
    ensures StandsInTick(before, actor, found, through, k + 1, key) <==>
            StandsInTick(before, actor, found, through, k, key)
            || (found[k].key == key && StillStands(before, actor, found[k], through))
  {
  }

  /** A tick chooses what stands before it queues anything, so nothing crowds: it records exactly the tasks found that
      stand when it commits, those a delivery left out among them. */
  lemma {:induction false} TickDetects(s: Store, before: Store, actor: string, live: bool, found: seq<Task>, through: nat, k: nat, key: string)
    requires k <= |found|
    ensures Has(TickRecorded(s, before, actor, live, found, through, k).log, RecordKey(key, live, ByTick)) <==>
            Has(s.log, RecordKey(key, live, ByTick)) || StandsInTick(before, actor, found, through, k, key)
  {
    hide Recorded, Has, StillStands;
    if k > 0 {
      TickDetects(s, before, actor, live, found, through, k - 1, key);
      StandsInTickNext(before, actor, found, through, k - 1, key);
      var t := TickRecorded(s, before, actor, live, found, through, k - 1);
      HasAfterRecord(t, actor, live, found[k - 1], ByTick, through, key);
    }
  }
}
