/** Delivery to the processes of one node kind, scripts/core/node.ts: each reads the shared cursor, the end of the
    log and the candidates, and then commits by compare-and-set on the cursor. Event i of the log has the id i + 1. */
module Delivery {
  import opened Options

  datatype Task = Task(key: string, card: nat, pr: Option<nat>)

  /** None where the scope leaves the part out. */
  datatype Scope = WholeQueue | Scope(pr: Option<nat>, card: Option<nat>)

  datatype Detection = Detection(task: Task, eventId: nat)

  datatype ScopedEvent = ScopedEvent(id: nat, scope: Scope)

  predicate InScope(task: Task, scope: Scope) {
    scope.WholeQueue? || ((scope.pr.None? || task.pr == scope.pr) && (scope.card.None? || Some(task.card) == scope.card))
  }

  // ---------- the first detections ----------

  predicate Detected(first: seq<Detection>, key: string) {
    exists i :: 0 <= i < |first| && first[i].task.key == key
  }

  /** The first j tasks looked at under one event. */
  function Looked(first: seq<Detection>, found: seq<Task>, event: ScopedEvent, j: nat): seq<Detection>
    requires j <= |found|
  {
    if j == 0 then first
    else
      var before := Looked(first, found, event, j - 1);
      var task := found[j - 1];
      if !Detected(before, task.key) && InScope(task, event.scope) then before + [Detection(task, event.id)] else before
  }

  /** The detections of the first i events. */
  function Firsts(found: seq<Task>, events: seq<ScopedEvent>, i: nat): seq<Detection>
    requires i <= |events|
  {
    if i == 0 then [] else Looked(Firsts(found, events, i - 1), found, events[i - 1], |found|)
  }

  /** firstDetections */
  method FirstDetections(found: seq<Task>, events: seq<ScopedEvent>) returns (first: seq<Detection>)
    ensures first == Firsts(found, events, |events|)
  {
    first := [];
    var keys: set<string> := {};
    for i := 0 to |events|
      invariant first == Firsts(found, events, i)
      invariant forall key :: key in keys <==> Detected(first, key)
    {
      ghost var before := first;
      for j := 0 to |found|
        invariant first == Looked(before, found, events[i], j)
        invariant forall key :: key in keys <==> Detected(first, key)
      {
        var key := found[j].key;
        if key !in keys && InScope(found[j], events[i].scope) {
          OneMoreDetected(first, Detection(found[j], events[i].id));
          first, keys := first + [Detection(found[j], events[i].id)], keys + {key};
        }
      }
    }
  }

  lemma OneMoreDetected(first: seq<Detection>, d: Detection)
    ensures forall key :: Detected(first + [d], key) <==> Detected(first, key) || key == d.task.key
  {
    forall key ensures Detected(first + [d], key) <==> Detected(first, key) || key == d.task.key {
      if Detected(first, key) {
        var i :| 0 <= i < |first| && first[i].task.key == key;
        assert (first + [d])[i].task.key == key;
      }
      assert (first + [d])[|first|] == d;
    }
  }

  /** Among the first j tasks one of the key is in the scope of the event. */
  predicate FoundBy(found: seq<Task>, event: ScopedEvent, j: nat, key: string)
    requires j <= |found|
  {
    exists k :: 0 <= k < j && found[k].key == key && InScope(found[k], event.scope)
  }

  predicate Finds(found: seq<Task>, event: ScopedEvent, key: string) {
    FoundBy(found, event, |found|, key)
  }

  predicate FindsBefore(found: seq<Task>, events: seq<ScopedEvent>, i: nat, key: string)
    requires i <= |events|
  {
    exists k :: 0 <= k < i && Finds(found, events[k], key)
  }

  /** The detection names the first event of all in whose scope a task of its key lies, and such a task. */
  predicate IsFirstOf(found: seq<Task>, events: seq<ScopedEvent>, i: nat, d: Detection)
    requires i <= |events|
  {
    exists k :: 0 <= k < i && d.eventId == events[k].id && d.task in found && InScope(d.task, events[k].scope)
                && !FindsBefore(found, events, k, d.task.key)
  }

  /** What the detections of the first i events are: one for every key found, each the first. */
  ghost predicate FirstsAre(found: seq<Task>, events: seq<ScopedEvent>, i: nat, first: seq<Detection>)
    requires i <= |events|
  {
    && (forall a, b :: 0 <= a < b < |first| ==> first[a].task.key != first[b].task.key)
    && (forall d :: d in first ==> IsFirstOf(found, events, i, d))
    && (forall key :: Detected(first, key) <==> FindsBefore(found, events, i, key))
  }

  /** Halfway through the tasks of event i. */
  ghost predicate LookedIs(found: seq<Task>, events: seq<ScopedEvent>, i: nat, j: nat, first: seq<Detection>)
    requires i < |events| && j <= |found|
  {
    && (forall a, b :: 0 <= a < b < |first| ==> first[a].task.key != first[b].task.key)
    && (forall d :: d in first ==> IsFirstOf(found, events, i + 1, d))
    && (forall key :: Detected(first, key) <==> FindsBefore(found, events, i, key) || FoundBy(found, events[i], j, key))
  }

  lemma NothingLooked(found: seq<Task>, events: seq<ScopedEvent>, i: nat, first: seq<Detection>)
    requires i < |events| && FirstsAre(found, events, i, first)
    ensures LookedIs(found, events, i, 0, first)
  {
    hide FindsBefore;
    forall d | d in first ensures IsFirstOf(found, events, i + 1, d) {
      assert IsFirstOf(found, events, i, d);
    }
  }

  lemma {:induction false} LookedHolds(found: seq<Task>, events: seq<ScopedEvent>, i: nat, j: nat, first: seq<Detection>)
    requires i < |events| && j <= |found| && FirstsAre(found, events, i, first)
    ensures LookedIs(found, events, i, j, Looked(first, found, events[i], j))
  {
    hide LookedIs, FirstsAre, FindsBefore, IsFirstOf;
    if j == 0 {
      NothingLooked(found, events, i, first);
    } else {
      LookedHolds(found, events, i, j - 1, first);
      OneMoreLooked(found, events, i, j - 1, Looked(first, found, events[i], j - 1));
    }
  }

  lemma OneMoreFound(found: seq<Task>, event: ScopedEvent, j: nat, key: string)
    requires j < |found|
    ensures FoundBy(found, event, j + 1, key) <==> FoundBy(found, event, j, key) || (found[j].key == key && InScope(found[j], event.scope))
  {
  }

  lemma OneMoreLooked(found: seq<Task>, events: seq<ScopedEvent>, i: nat, j: nat, first: seq<Detection>)
    requires i < |events| && j < |found| && LookedIs(found, events, i, j, first)
    ensures
      var task := found[j];
      var taken := !Detected(first, task.key) && InScope(task, events[i].scope);
      LookedIs(found, events, i, j + 1, if taken then first + [Detection(task, events[i].id)] else first)
  {
    var task := found[j];
    var d := Detection(task, events[i].id);
    forall key ensures FoundBy(found, events[i], j + 1, key) <==> FoundBy(found, events[i], j, key) || (task.key == key && InScope(task, events[i].scope)) {
      OneMoreFound(found, events[i], j, key);
    }
    if !Detected(first, task.key) && InScope(task, events[i].scope) {
      OneMoreDetected(first, d);
      assert !FindsBefore(found, events, i, task.key);
      assert IsFirstOf(found, events, i + 1, d);
      forall a, b | 0 <= a < b < |first| + 1 ensures (first + [d])[a].task.key != (first + [d])[b].task.key {
        assert b == |first| ==> !(first[a].task.key == task.key) by {
          assert !Detected(first, task.key);
        }
      }
    }
  }

  lemma {:induction false} FirstsHold(found: seq<Task>, events: seq<ScopedEvent>, i: nat)
    requires i <= |events|
    ensures FirstsAre(found, events, i, Firsts(found, events, i))
  {
    if i > 0 {
      FirstsHold(found, events, i - 1);
      LookedHolds(found, events, i - 1, |found|, Firsts(found, events, i - 1));
      forall key ensures FindsBefore(found, events, i, key) <==> FindsBefore(found, events, i - 1, key) || Finds(found, events[i - 1], key) {
      }
    }
  }

  // ---------- processes of one kind ----------

  datatype Via = ByEvent | ByTick

  datatype Dedupe = DetectedOnce(key: string, via: Option<Via>) | EnqueuedOnce(key: string) | Text(text: string)

  datatype Body = Report(key: string, via: Via, eventId: nat) | Other

  datatype LogEvent = LogEvent(actor: string, card: Option<nat>, pr: Option<nat>, dedupe: Dedupe, body: Body)

  /** taken is the event_id of the tasks rows. */
  datatype Store = Store(log: seq<LogEvent>, taken: map<string, nat>)

  /** The subscription of the kind, and of each process its actor and whether it detects live or in the shadow. */
  datatype Config = Config(matches: LogEvent -> bool, scopeOf: LogEvent -> Scope, actor: nat -> string, live: nat -> bool)

  datatype Phase =
    | Starting
    | Opening(end: nat)
    | Idle
    | AtCursor(cursor: Option<nat>)
    | InWindow(cursor: Option<nat>, through: nat)
    | Found(cursor: Option<nat>, through: nat, detections: seq<Detection>)
    | Ticking(through: nat)
    | TickAt(through: nat, cursor: Option<nat>)
    | TickFound(through: nat, cursor: Option<nat>, found: seq<Task>)

  /** The ids after `after` up to `through`. */
  datatype Window = Window(after: nat, through: nat)

  /** windows are the committed deliveries in their order, and origin is what the cursor was opened with; no
      program reads either. */
  datatype World = World(store: Store, cursor: Option<nat>, phases: map<nat, Phase>, windows: seq<Window>, origin: nat)

  datatype Step =
    | Append(event: LogEvent, takes: Option<string>)
    | OpenRead(n: nat)
    | OpenInsert(n: nat)
    | ReadCursor(n: nat)
    | ReadEnd(n: nat)
    | ReadEvents(n: nat, found: seq<Task>)
    | Commit(n: nat)
    | TickRead(n: nat)
    | TickCursor(n: nat)
    | TickFind(n: nat, found: seq<Task>)
    | TickCommit(n: nat)
    | Retry(n: nat)
    | Stop(n: nat)

  predicate Has(log: seq<LogEvent>, dedupe: Dedupe) {
    exists i :: 0 <= i < |log| && log[i].dedupe == dedupe
  }

  /** appendEvent: insert or ignore. */
  function Appended(log: seq<LogEvent>, event: LogEvent): seq<LogEvent> {
    if Has(log, event.dedupe) then log else log + [event]
  }

  const QUEUE_ACTOR := "policy"

  function Queued(s: Store, task: Task): Store {
    var event := LogEvent(QUEUE_ACTOR, Some(task.card), task.pr, EnqueuedOnce(task.key), Other);
    if Has(s.log, event.dedupe) then s else Store(s.log + [event], s.taken[task.key := |s.log| + 1])
  }

  /** record */
  function Recorded(s: Store, actor: string, live: bool, task: Task, via: Via, eventId: nat): Store {
    var t := if live then Queued(s, task) else s;
    var dedupe := DetectedOnce(task.key, if live then None else Some(via));
    t.(log := Appended(t.log, LogEvent(actor, Some(task.card), task.pr, dedupe, Report(task.key, via, eventId))))
  }

  /** stillStands */
  predicate StillStands(s: Store, actor: string, task: Task, through: nat) {
    && !(task.key in s.taken && s.taken[task.key] > through)
    && forall i :: through <= i < |s.log| && s.log[i].actor != actor ==>
         s.log[i].card != Some(task.card) && (task.pr.None? || s.log[i].pr != task.pr)
  }

  /** The first k detections of a commit. */
  function RecordedAll(s: Store, actor: string, live: bool, detections: seq<Detection>, via: Via, through: nat, k: nat): Store
    requires k <= |detections|
  {
    if k == 0 then s
    else
      var t := RecordedAll(s, actor, live, detections, via, through, k - 1);
      var d := detections[k - 1];
      if StillStands(t, actor, d.task, through) then Recorded(t, actor, live, d.task, via, d.eventId) else t
  }

  /** The standing tasks of a tick are chosen before any is recorded. */
  function TickRecorded(s: Store, before: Store, actor: string, live: bool, found: seq<Task>, through: nat, k: nat): Store
    requires k <= |found|
  {
    if k == 0 then s
    else
      var t := TickRecorded(s, before, actor, live, found, through, k - 1);
      var task := found[k - 1];
      if StillStands(before, actor, task, through) then Recorded(t, actor, live, task, ByTick, through) else t
  }

  /** matchingEvents and the scopes of what it returns. */
  function Scoped(cfg: Config, log: seq<LogEvent>, after: nat, through: nat): seq<ScopedEvent>
    requires through <= |log|
  {
    if through <= after then []
    else
      var before := Scoped(cfg, log, after, through - 1);
      if cfg.matches(log[through - 1]) then before + [ScopedEvent(through, cfg.scopeOf(log[through - 1]))] else before
  }

  function PhaseOf(w: World, n: nat): Phase {
    if n in w.phases then w.phases[n] else Starting
  }

  predicate Enabled(w: World, s: Step) {
    match s
    case Append(event, _) => event.body.Other?
    case OpenRead(n) => PhaseOf(w, n).Starting?
    case OpenInsert(n) => PhaseOf(w, n).Opening?
    case ReadCursor(n) => PhaseOf(w, n).Idle?
    case ReadEnd(n) => PhaseOf(w, n).AtCursor?
    case ReadEvents(n, _) => PhaseOf(w, n).InWindow? && PhaseOf(w, n).through <= |w.store.log|
    case Commit(n) => PhaseOf(w, n).Found?
    case TickRead(n) => PhaseOf(w, n).Idle?
    case TickCursor(n) => PhaseOf(w, n).Ticking?
    case TickFind(n, _) => PhaseOf(w, n).TickAt?
    case TickCommit(n) => PhaseOf(w, n).TickFound?
    case Retry(n) => !PhaseOf(w, n).Starting? && !PhaseOf(w, n).Opening?
    case Stop(n) => true
  }

  function InPhase(w: World, n: nat, phase: Phase): World {
    w.(phases := w.phases[n := phase])
  }

  function After(cursor: Option<nat>): nat {
    if cursor.Some? then cursor.value else 0
  }

  function Next(cfg: Config, w: World, s: Step): World
    requires Enabled(w, s)
  {
    match s
    case Append(event, takes) =>
      if Has(w.store.log, event.dedupe) then w
      else
        var taken := if takes.Some? then w.store.taken[takes.value := |w.store.log| + 1] else w.store.taken;
        w.(store := Store(w.store.log + [event], taken))
    case OpenRead(n) => InPhase(w, n, Opening(|w.store.log|))
    case OpenInsert(n) =>
      var end := w.phases[n].end;
      InPhase(if w.cursor.None? then w.(cursor := Some(end), origin := end) else w, n, Idle)
    case ReadCursor(n) => InPhase(w, n, AtCursor(w.cursor))
    case ReadEnd(n) =>
      var cursor, through := w.phases[n].cursor, |w.store.log|;
      InPhase(w, n, if through <= After(cursor) then Idle else InWindow(cursor, through))
    case ReadEvents(n, found) =>
      var cursor, through := w.phases[n].cursor, w.phases[n].through;
      var events := Scoped(cfg, w.store.log, After(cursor), through);
      InPhase(w, n, Found(cursor, through, Firsts(found, events, |events|)))
    case Commit(n) =>
      var phase := w.phases[n];
      if w.cursor != phase.cursor then InPhase(w, n, Idle)
      else
        var store := RecordedAll(w.store, cfg.actor(n), cfg.live(n), phase.detections, ByEvent, phase.through, |phase.detections|);
        var v := w.(store := store);
        InPhase(if w.cursor.None? then v
                else v.(cursor := Some(phase.through), windows := w.windows + [Window(w.cursor.value, phase.through)]), n, Idle)
    case TickRead(n) => InPhase(w, n, Ticking(|w.store.log|))
    case TickCursor(n) => InPhase(w, n, TickAt(w.phases[n].through, w.cursor))
    case TickFind(n, found) => InPhase(w, n, TickFound(w.phases[n].through, w.phases[n].cursor, found))
    case TickCommit(n) =>
      var phase := w.phases[n];
      var found := if w.cursor == phase.cursor then phase.found else [];
      InPhase(w.(store := TickRecorded(w.store, w.store, cfg.actor(n), cfg.live(n), found, phase.through, |found|)), n, Idle)
    case Retry(n) => InPhase(w, n, Idle)
    case Stop(n) => InPhase(w, n, Starting)
  }

  // ---------- what every state keeps ----------

  ghost predicate Distinct(log: seq<LogEvent>) {
    forall i, j :: 0 <= i < j < |log| ==> log[i].dedupe != log[j].dedupe
  }

  /** The windows follow each other from where the cursor was opened to where it stands. */
  ghost predicate Chain(windows: seq<Window>, origin: nat, cursor: nat) {
    && (forall i :: 0 <= i < |windows| ==> windows[i].after < windows[i].through)
    && (forall i :: 0 <= i < |windows| - 1 ==> windows[i].through == windows[i + 1].after)
    && (if windows == [] then origin == cursor else windows[0].after == origin && windows[|windows| - 1].through == cursor)
  }

  ghost predicate PhaseSound(w: World, phase: Phase) {
    match phase
    case Opening(end) => end <= |w.store.log|
    case Idle => w.cursor.Some?
    case AtCursor(cursor) => w.cursor.Some? && cursor.Some?
    case InWindow(cursor, through) => w.cursor.Some? && cursor.Some? && cursor.value < through <= |w.store.log|
    case Found(cursor, through, detections) => w.cursor.Some? && cursor.Some? && cursor.value < through <= |w.store.log|
    case _ => phase.Starting? || w.cursor.Some?
  }

  ghost predicate Sound(w: World) {
    && Distinct(w.store.log)
    && (w.cursor.None? ==> w.windows == [])
    && (w.cursor.Some? ==> w.cursor.value <= |w.store.log| && Chain(w.windows, w.origin, w.cursor.value))
    && forall n :: n in w.phases ==> PhaseSound(w, w.phases[n])
  }

  ghost predicate Extends(log: seq<LogEvent>, later: seq<LogEvent>) {
    |log| <= |later| && later[..|log|] == log && (Distinct(log) ==> Distinct(later))
  }

  lemma AppendExtends(log: seq<LogEvent>, event: LogEvent)
    ensures Extends(log, Appended(log, event))
    ensures !Has(log, event.dedupe) ==> Extends(log, log + [event])
  {
    assert log[..|log|] == log;
  }

  lemma ExtendsTwice(a: seq<LogEvent>, b: seq<LogEvent>, c: seq<LogEvent>)
    requires Extends(a, b) && Extends(b, c)
    ensures Extends(a, c)
  {
    assert c[..|a|] == c[..|b|][..|a|];
  }

  lemma RecordedExtends(s: Store, actor: string, live: bool, task: Task, via: Via, eventId: nat)
    ensures Extends(s.log, Recorded(s, actor, live, task, via, eventId).log)
  {
    var t := if live then Queued(s, task) else s;
    AppendExtends(s.log, LogEvent(QUEUE_ACTOR, Some(task.card), task.pr, EnqueuedOnce(task.key), Other));
    assert s.log[..|s.log|] == s.log;
    var event := LogEvent(actor, Some(task.card), task.pr, DetectedOnce(task.key, if live then None else Some(via)), Report(task.key, via, eventId));
    AppendExtends(t.log, event);
    ExtendsTwice(s.log, t.log, Appended(t.log, event));
  }

  lemma {:induction false} RecordedAllExtends(s: Store, actor: string, live: bool, detections: seq<Detection>, via: Via, through: nat, k: nat)
    requires k <= |detections|
    ensures Extends(s.log, RecordedAll(s, actor, live, detections, via, through, k).log)
  {
    if k == 0 {
      assert s.log[..|s.log|] == s.log;
    } else {
      RecordedAllExtends(s, actor, live, detections, via, through, k - 1);
      var t, d := RecordedAll(s, actor, live, detections, via, through, k - 1), detections[k - 1];
      RecordedExtends(t, actor, live, d.task, via, d.eventId);
      ExtendsTwice(s.log, t.log, Recorded(t, actor, live, d.task, via, d.eventId).log);
    }
  }

  lemma {:induction false} TickExtends(s: Store, before: Store, actor: string, live: bool, found: seq<Task>, through: nat, k: nat)
    requires k <= |found|
    ensures Extends(s.log, TickRecorded(s, before, actor, live, found, through, k).log)
  {
    if k == 0 {
      assert s.log[..|s.log|] == s.log;
    } else {
      TickExtends(s, before, actor, live, found, through, k - 1);
      var t := TickRecorded(s, before, actor, live, found, through, k - 1);
      RecordedExtends(t, actor, live, found[k - 1], ByTick, through);
      ExtendsTwice(s.log, t.log, Recorded(t, actor, live, found[k - 1], ByTick, through).log);
    }
  }

  lemma NextExtends(cfg: Config, w: World, s: Step)
    requires Enabled(w, s)
    ensures Extends(w.store.log, Next(cfg, w, s).store.log)
  {
    hide RecordedAll, TickRecorded, StillStands, Recorded;
    assert w.store.log[..|w.store.log|] == w.store.log;
    match s
    case Append(event, _) => AppendExtends(w.store.log, event);
    case Commit(n) =>
      var detections := w.phases[n].detections;
      RecordedAllExtends(w.store, cfg.actor(n), cfg.live(n), detections, ByEvent, w.phases[n].through, |detections|);
    case TickCommit(n) =>
      var found := if w.cursor == w.phases[n].cursor then w.phases[n].found else [];
      TickExtends(w.store, w.store, cfg.actor(n), cfg.live(n), found, w.phases[n].through, |found|);
    case _ =>
  }

  lemma OneMoreWindow(windows: seq<Window>, origin: nat, cursor: nat, through: nat)
    requires Chain(windows, origin, cursor) && cursor < through
    ensures Chain(windows + [Window(cursor, through)], origin, through)
  {
  }

  /** Every step keeps the chain, and moves the cursor only forward. */
  lemma NextKeepsSound(cfg: Config, w: World, s: Step)
    requires Sound(w) && Enabled(w, s)
    ensures Sound(Next(cfg, w, s))
    ensures w.cursor.Some? ==> Next(cfg, w, s).cursor.Some? && w.cursor.value <= Next(cfg, w, s).cursor.value
    ensures w.cursor.Some? ==> Next(cfg, w, s).origin == w.origin && w.windows <= Next(cfg, w, s).windows
  {
    hide RecordedAll, TickRecorded, StillStands, Recorded, Scoped, Firsts;
    NextExtends(cfg, w, s);
    if s.Commit? && w.cursor == w.phases[s.n].cursor {
      OneMoreWindow(w.windows, w.origin, w.cursor.value, w.phases[s.n].through);
    }
  }

  // ---------- every run ----------

  /** Before any process of the kind has run. */
  ghost predicate Start(w: World) {
    && w.cursor.None? && w.windows == [] && w.phases == map[] && Distinct(w.store.log)
    && forall i :: 0 <= i < |w.store.log| ==> w.store.log[i].body.Other?
  }

  ghost predicate IsRun(cfg: Config, worlds: seq<World>, steps: seq<Step>) {
    && |worlds| == |steps| + 1 && Start(worlds[0])
    && forall i :: 0 <= i < |steps| ==> Goes(cfg, worlds[i], steps[i], worlds[i + 1])
  }

  ghost predicate Goes(cfg: Config, w: World, s: Step, v: World) {
    Enabled(w, s) && v == Next(cfg, w, s)
  }

  lemma {:induction false} EveryStateSound(cfg: Config, worlds: seq<World>, steps: seq<Step>, n: nat)
    requires IsRun(cfg, worlds, steps) && n < |worlds|
    ensures Sound(worlds[n])
  {
    hide Next, Sound, Enabled;
    if n == 0 {
      StartIsSound(worlds[0]);
    } else {
      EveryStateSound(cfg, worlds, steps, n - 1);
      assert Goes(cfg, worlds[n - 1], steps[n - 1], worlds[n]);
      NextKeepsSound(cfg, worlds[n - 1], steps[n - 1]);
    }
  }

  lemma StartIsSound(w: World)
    requires Start(w)
    ensures Sound(w)
  {
  }

  predicate Holds(window: Window, id: nat) {
    window.after < id <= window.through
  }

  lemma {:induction false} SomeWindowHolds(windows: seq<Window>, origin: nat, cursor: nat, id: nat)
    requires Chain(windows, origin, cursor) && origin < id <= cursor
    ensures exists i :: 0 <= i < |windows| && Holds(windows[i], id)
  {
    var last := |windows| - 1;
    if windows[last].after < id {
      assert Holds(windows[last], id);
    } else {
      var before := windows[..last];
      assert Chain(before, origin, windows[last].after) by {
        assert last > 0 ==> windows[last - 1].through == windows[last].after;
      }
      SomeWindowHolds(before, origin, windows[last].after, id);
      var i :| 0 <= i < |before| && Holds(before[i], id);
      assert Holds(windows[i], id);
    }
  }

  lemma {:induction false} WindowsAscend(windows: seq<Window>, origin: nat, cursor: nat, i: nat, j: nat)
    requires Chain(windows, origin, cursor) && i < j < |windows|
    ensures windows[i].through <= windows[j].after
    decreases j
  {
    if i + 1 < j {
      WindowsAscend(windows, origin, cursor, i, j - 1);
    }
  }

  /** Every id from the opening to the cursor is delivered in exactly one committed window, and no other is. */
  lemma DeliveredOnce(cfg: Config, worlds: seq<World>, steps: seq<Step>, n: nat, id: nat)
    requires IsRun(cfg, worlds, steps) && n < |worlds| && worlds[n].cursor.Some?
    ensures worlds[n].origin < id <= worlds[n].cursor.value <==>
            exists i :: 0 <= i < |worlds[n].windows| && Holds(worlds[n].windows[i], id)
    ensures forall i, j :: 0 <= i < j < |worlds[n].windows| ==> !(Holds(worlds[n].windows[i], id) && Holds(worlds[n].windows[j], id))
  {
    var w := worlds[n];
    EveryStateSound(cfg, worlds, steps, n);
    if w.origin < id <= w.cursor.value {
      SomeWindowHolds(w.windows, w.origin, w.cursor.value, id);
    }
    var last := |w.windows| - 1;
    forall i | 0 <= i < |w.windows| ensures w.origin <= w.windows[i].after && w.windows[i].through <= w.cursor.value {
      if i > 0 {
        WindowsAscend(w.windows, w.origin, w.cursor.value, 0, i);
      }
      if i < last {
        WindowsAscend(w.windows, w.origin, w.cursor.value, i, last);
      }
    }
    forall i, j | 0 <= i < j < |w.windows| ensures !(Holds(w.windows[i], id) && Holds(w.windows[j], id)) {
      WindowsAscend(w.windows, w.origin, w.cursor.value, i, j);
    }
  }

  /** The cursor never goes back, what was delivered stays delivered, and the log only grows. */
  lemma {:induction false} CursorNeverBack(cfg: Config, worlds: seq<World>, steps: seq<Step>, m: nat, n: nat)
    requires IsRun(cfg, worlds, steps) && m <= n < |worlds| && worlds[m].cursor.Some?
    ensures worlds[n].cursor.Some? && worlds[m].cursor.value <= worlds[n].cursor.value
    ensures worlds[n].origin == worlds[m].origin && worlds[m].windows <= worlds[n].windows
    decreases n
  {
    hide Next, Sound, Enabled;
    if m < n {
      CursorNeverBack(cfg, worlds, steps, m, n - 1);
      EveryStateSound(cfg, worlds, steps, n - 1);
      assert Goes(cfg, worlds[n - 1], steps[n - 1], worlds[n]);
      NextKeepsSound(cfg, worlds[n - 1], steps[n - 1]);
    }
  }

  // ---------- a key is detected once ----------

  /** Only processes that detect live write under the actor. */
  ghost predicate LiveActor(cfg: Config, actor: string) {
    forall n :: cfg.actor(n) == actor ==> cfg.live(n)
  }

  /** Reports of live processes carry the key of the task alone. */
  ghost predicate LiveKeyed(cfg: Config, log: seq<LogEvent>) {
    forall i :: 0 <= i < |log| ==> LiveReport(cfg, log[i])
  }

  ghost predicate LiveReport(cfg: Config, e: LogEvent) {
    e.body.Report? && LiveActor(cfg, e.actor) ==> e.dedupe == DetectedOnce(e.body.key, None)
  }

  lemma RecordedKeyed(cfg: Config, s: Store, n: nat, task: Task, via: Via, eventId: nat)
    requires LiveKeyed(cfg, s.log)
    ensures LiveKeyed(cfg, Recorded(s, cfg.actor(n), cfg.live(n), task, via, eventId).log)
  {
  }

  lemma {:induction false} AllKeyed(cfg: Config, s: Store, n: nat, detections: seq<Detection>, through: nat, k: nat)
    requires LiveKeyed(cfg, s.log) && k <= |detections|
    ensures LiveKeyed(cfg, RecordedAll(s, cfg.actor(n), cfg.live(n), detections, ByEvent, through, k).log)
  {
    hide LiveKeyed, Recorded, StillStands;
    if k > 0 {
      AllKeyed(cfg, s, n, detections, through, k - 1);
      var t, d := RecordedAll(s, cfg.actor(n), cfg.live(n), detections, ByEvent, through, k - 1), detections[k - 1];
      RecordedKeyed(cfg, t, n, d.task, ByEvent, d.eventId);
    }
  }

  lemma {:induction false} TickKeyed(cfg: Config, s: Store, before: Store, n: nat, found: seq<Task>, through: nat, k: nat)
    requires LiveKeyed(cfg, s.log) && k <= |found|
    ensures LiveKeyed(cfg, TickRecorded(s, before, cfg.actor(n), cfg.live(n), found, through, k).log)
  {
    hide LiveKeyed, Recorded, StillStands;
    if k > 0 {
      TickKeyed(cfg, s, before, n, found, through, k - 1);
      var t := TickRecorded(s, before, cfg.actor(n), cfg.live(n), found, through, k - 1);
      RecordedKeyed(cfg, t, n, found[k - 1], ByTick, through);
    }
  }

  lemma NextKeepsKeyed(cfg: Config, w: World, s: Step)
    requires LiveKeyed(cfg, w.store.log) && Enabled(w, s)
    ensures LiveKeyed(cfg, Next(cfg, w, s).store.log)
  {
    hide RecordedAll, TickRecorded;
    match s
    case Commit(n) =>
      var phase := w.phases[n];
      AllKeyed(cfg, w.store, n, phase.detections, phase.through, |phase.detections|);
    case TickCommit(n) =>
      var found := if w.cursor == w.phases[n].cursor then w.phases[n].found else [];
      TickKeyed(cfg, w.store, w.store, n, found, w.phases[n].through, |found|);
    case _ =>
  }

  lemma {:induction false} EveryStateKeyed(cfg: Config, worlds: seq<World>, steps: seq<Step>, n: nat)
    requires IsRun(cfg, worlds, steps) && n < |worlds|
    ensures LiveKeyed(cfg, worlds[n].store.log)
  {
    hide Next, Enabled;
    if n > 0 {
      EveryStateKeyed(cfg, worlds, steps, n - 1);
      assert Goes(cfg, worlds[n - 1], steps[n - 1], worlds[n]);
      NextKeepsKeyed(cfg, worlds[n - 1], steps[n - 1]);
    }
  }

  /** Two reports of one task key by processes that detect live are one, whoever saw the task and however. */
  lemma DetectedAtMostOnce(cfg: Config, worlds: seq<World>, steps: seq<Step>, n: nat, i: nat, j: nat)
    requires IsRun(cfg, worlds, steps) && n < |worlds| && i < |worlds[n].store.log| && j < |worlds[n].store.log|
    requires var a := worlds[n].store.log[i]; a.body.Report? && LiveActor(cfg, a.actor)
    requires var b := worlds[n].store.log[j]; b.body.Report? && LiveActor(cfg, b.actor)
    requires worlds[n].store.log[i].body.key == worlds[n].store.log[j].body.key
    ensures i == j
  {
    EveryStateSound(cfg, worlds, steps, n);
    EveryStateKeyed(cfg, worlds, steps, n);
    assert LiveReport(cfg, worlds[n].store.log[i]) && LiveReport(cfg, worlds[n].store.log[j]);
  }

  /** Every task that a live process reports has been queued. */
  ghost predicate LiveQueued(cfg: Config, log: seq<LogEvent>) {
    forall i :: 0 <= i < |log| && log[i].body.Report? && LiveActor(cfg, log[i].actor) ==> Has(log, EnqueuedOnce(log[i].body.key))
  }

  lemma HasLater(log: seq<LogEvent>, later: seq<LogEvent>, dedupe: Dedupe)
    requires Extends(log, later) && Has(log, dedupe)
    ensures Has(later, dedupe)
  {
    var i :| 0 <= i < |log| && log[i].dedupe == dedupe;
    assert later[i] == later[..|log|][i];
  }

  lemma GrownQueued(cfg: Config, log: seq<LogEvent>, later: seq<LogEvent>)
    requires LiveQueued(cfg, log) && Extends(log, later)
    requires forall i :: |log| <= i < |later| && later[i].body.Report? && LiveActor(cfg, later[i].actor) ==> Has(later, EnqueuedOnce(later[i].body.key))
    ensures LiveQueued(cfg, later)
  {
    forall i | 0 <= i < |later| && later[i].body.Report? && LiveActor(cfg, later[i].actor)
      ensures Has(later, EnqueuedOnce(later[i].body.key))
    {
      if i < |log| {
        assert later[i] == later[..|log|][i] == log[i];
        HasLater(log, later, EnqueuedOnce(log[i].body.key));
      }
    }
  }

  /** Queueing a task for the first time writes the policy's enqueued event of its card and pull request, and its row
      stands at that event; a second time it does nothing. */
  lemma QueuedSays(s: Store, task: Task)
    ensures
      var t := Queued(s, task);
      if Has(s.log, EnqueuedOnce(task.key)) then t == s
      else
        && |t.log| == |s.log| + 1 && t.log[..|s.log|] == s.log && task.key in t.taken && t.taken[task.key] == |t.log|
        && t.log[|s.log|] == LogEvent("policy", Some(task.card), task.pr, EnqueuedOnce(task.key), Other)
        && forall key :: key != task.key ==> (key in t.taken <==> key in s.taken) && (key in s.taken ==> t.taken[key] == s.taken[key])
  {
  }

  lemma RecordedQueued(cfg: Config, s: Store, n: nat, task: Task, via: Via, eventId: nat)
    requires LiveQueued(cfg, s.log)
    ensures LiveQueued(cfg, Recorded(s, cfg.actor(n), cfg.live(n), task, via, eventId).log)
  {
    var r := Recorded(s, cfg.actor(n), cfg.live(n), task, via, eventId);
    RecordedExtends(s, cfg.actor(n), cfg.live(n), task, via, eventId);
    if cfg.live(n) {
      var t := Queued(s, task);
      var event := LogEvent(QUEUE_ACTOR, Some(task.card), task.pr, EnqueuedOnce(task.key), Other);
      if !Has(s.log, event.dedupe) {
        assert t.log[|s.log|] == event;
      }
      assert Has(t.log, EnqueuedOnce(task.key));
      AppendExtends(t.log, LogEvent(cfg.actor(n), Some(task.card), task.pr, DetectedOnce(task.key, None), Report(task.key, via, eventId)));
      HasLater(t.log, r.log, EnqueuedOnce(task.key));
    }
    GrownQueued(cfg, s.log, r.log);
  }

  lemma {:induction false} AllQueued(cfg: Config, s: Store, n: nat, detections: seq<Detection>, through: nat, k: nat)
    requires LiveQueued(cfg, s.log) && k <= |detections|
    ensures LiveQueued(cfg, RecordedAll(s, cfg.actor(n), cfg.live(n), detections, ByEvent, through, k).log)
  {
    hide LiveQueued, Recorded, StillStands;
    if k > 0 {
      AllQueued(cfg, s, n, detections, through, k - 1);
      var t, d := RecordedAll(s, cfg.actor(n), cfg.live(n), detections, ByEvent, through, k - 1), detections[k - 1];
      RecordedQueued(cfg, t, n, d.task, ByEvent, d.eventId);
    }
  }

  lemma {:induction false} TickQueued(cfg: Config, s: Store, before: Store, n: nat, found: seq<Task>, through: nat, k: nat)
    requires LiveQueued(cfg, s.log) && k <= |found|
    ensures LiveQueued(cfg, TickRecorded(s, before, cfg.actor(n), cfg.live(n), found, through, k).log)
  {
    hide LiveQueued, Recorded, StillStands;
    if k > 0 {
      TickQueued(cfg, s, before, n, found, through, k - 1);
      var t := TickRecorded(s, before, cfg.actor(n), cfg.live(n), found, through, k - 1);
      RecordedQueued(cfg, t, n, found[k - 1], ByTick, through);
    }
  }

  lemma NextKeepsQueued(cfg: Config, w: World, s: Step)
    requires LiveQueued(cfg, w.store.log) && Enabled(w, s)
    ensures LiveQueued(cfg, Next(cfg, w, s).store.log)
  {
    hide RecordedAll, TickRecorded, LiveQueued;
    match s
    case Append(event, _) =>
      AppendExtends(w.store.log, event);
      GrownByOther(cfg, w.store.log, event);
    case Commit(n) =>
      var phase := w.phases[n];
      AllQueued(cfg, w.store, n, phase.detections, phase.through, |phase.detections|);
    case TickCommit(n) =>
      var found := if w.cursor == w.phases[n].cursor then w.phases[n].found else [];
      TickQueued(cfg, w.store, w.store, n, found, w.phases[n].through, |found|);
    case _ =>
  }

  lemma GrownByOther(cfg: Config, log: seq<LogEvent>, event: LogEvent)
    requires LiveQueued(cfg, log) && event.body.Other?
    ensures LiveQueued(cfg, Appended(log, event)) && (!Has(log, event.dedupe) ==> LiveQueued(cfg, log + [event]))
  {
    AppendExtends(log, event);
    GrownQueued(cfg, log, Appended(log, event));
  }

  /** In every state a task reported by a process that detects live has its enqueued event in the log. */
  lemma {:induction false} DetectedIsQueued(cfg: Config, worlds: seq<World>, steps: seq<Step>, n: nat)
    requires IsRun(cfg, worlds, steps) && n < |worlds|
    ensures LiveQueued(cfg, worlds[n].store.log)
  {
    hide Next, Enabled;
    if n > 0 {
      DetectedIsQueued(cfg, worlds, steps, n - 1);
      assert Goes(cfg, worlds[n - 1], steps[n - 1], worlds[n]);
      NextKeepsQueued(cfg, worlds[n - 1], steps[n - 1]);
    }
  }

  // ---------- what a delivery reports ----------

  predicate Matching(cfg: Config, log: seq<LogEvent>, id: nat) {
    0 < id <= |log| && cfg.matches(log[id - 1])
  }

  ghost predicate Delivers(cfg: Config, w: World, windows: seq<Window>, id: nat) {
    Matching(cfg, w.store.log, id) && exists i :: 0 <= i < |windows| && Holds(windows[i], id)
  }

  /** Every report of a delivery names a matching event of a committed window; and the detections a process is about
      to commit name matching events of its own. */
  ghost predicate ReportsSound(cfg: Config, w: World) {
    && (forall i :: 0 <= i < |w.store.log| ==> ReportSound(cfg, w, w.store.log[i]))
    && (forall n :: n in w.phases && w.phases[n].Found? ==> DetectionsSound(cfg, w, w.phases[n]))
  }

  ghost predicate ReportSound(cfg: Config, w: World, e: LogEvent) {
    e.body.Report? && e.body.via == ByEvent ==>
      Delivers(cfg, w, w.windows, e.body.eventId) && FitsTheScope(cfg, w.store.log, e.body.eventId, e.card, e.pr)
  }

  /** Where the event has a scope, the pull request and the card it names are those given. */
  predicate FitsTheScope(cfg: Config, log: seq<LogEvent>, id: nat, card: Option<nat>, pr: Option<nat>)
    requires Matching(cfg, log, id)
  {
    var scope := cfg.scopeOf(log[id - 1]);
    scope.WholeQueue? || ((scope.pr.Some? ==> pr == scope.pr) && (scope.card.Some? ==> card == scope.card))
  }

  ghost predicate DetectionsSound(cfg: Config, w: World, phase: Phase)
    requires phase.Found?
  {
    forall d :: d in phase.detections ==>
      After(phase.cursor) < d.eventId <= phase.through && Matching(cfg, w.store.log, d.eventId)
      && FitsTheScope(cfg, w.store.log, d.eventId, Some(d.task.card), d.task.pr)
  }

  lemma {:induction false} ScopedMatch(cfg: Config, log: seq<LogEvent>, after: nat, through: nat)
    requires through <= |log|
    ensures forall k :: 0 <= k < |Scoped(cfg, log, after, through)| ==>
              after < Scoped(cfg, log, after, through)[k].id <= through && Matching(cfg, log, Scoped(cfg, log, after, through)[k].id)
              && Scoped(cfg, log, after, through)[k].scope == cfg.scopeOf(log[Scoped(cfg, log, after, through)[k].id - 1])
  {
    if after < through {
      ScopedMatch(cfg, log, after, through - 1);
    }
  }

  lemma FoundIsSound(cfg: Config, w: World, n: nat, found: seq<Task>)
    requires Enabled(w, ReadEvents(n, found))
    ensures DetectionsSound(cfg, w, Next(cfg, w, ReadEvents(n, found)).phases[n])
  {
    var events := Scoped(cfg, w.store.log, After(w.phases[n].cursor), w.phases[n].through);
    ScopedMatch(cfg, w.store.log, After(w.phases[n].cursor), w.phases[n].through);
    FirstsHold(found, events, |events|);
    forall d | d in Firsts(found, events, |events|)
      ensures After(w.phases[n].cursor) < d.eventId <= w.phases[n].through && Matching(cfg, w.store.log, d.eventId)
      ensures FitsTheScope(cfg, w.store.log, d.eventId, Some(d.task.card), d.task.pr)
    {
      assert IsFirstOf(found, events, |events|, d);
    }
  }

  /** The report says of a task of these that it was detected, and by which event. */
  predicate IsReportOf(e: LogEvent, via: Via, detections: seq<Detection>) {
    e.body.Report? ==> e.body.via == via && exists d :: d in detections && IsReport(e, d)
  }

  predicate IsReport(e: LogEvent, d: Detection)
    requires e.body.Report?
  {
    e.body.eventId == d.eventId && e.body.key == d.task.key && e.card == Some(d.task.card) && e.pr == d.task.pr
  }

  lemma RecordedReports(s: Store, actor: string, live: bool, task: Task, via: Via, eventId: nat)
    ensures var t := Recorded(s, actor, live, task, via, eventId);
            |s.log| <= |t.log| && forall i :: |s.log| <= i < |t.log| ==> IsReportOf(t.log[i], via, [Detection(task, eventId)])
  {
    assert Detection(task, eventId) in [Detection(task, eventId)];
    assert forall e: LogEvent :: e.body == Report(task.key, via, eventId) && e.card == Some(task.card) && e.pr == task.pr ==>
             IsReport(e, Detection(task, eventId));
  }

  lemma {:induction false} AllReports(s: Store, actor: string, live: bool, detections: seq<Detection>, through: nat, k: nat)
    requires k <= |detections|
    ensures var t := RecordedAll(s, actor, live, detections, ByEvent, through, k);
            |s.log| <= |t.log| && forall i :: |s.log| <= i < |t.log| ==> IsReportOf(t.log[i], ByEvent, detections)
  {
    hide Recorded, StillStands;
    if k > 0 {
      AllReports(s, actor, live, detections, through, k - 1);
      var t, d := RecordedAll(s, actor, live, detections, ByEvent, through, k - 1), detections[k - 1];
      RecordedReports(t, actor, live, d.task, ByEvent, d.eventId);
      RecordedExtends(t, actor, live, d.task, ByEvent, d.eventId);
      assert Detection(d.task, d.eventId) == d && d in detections;
      KeepsEarlier(t.log, Recorded(t, actor, live, d.task, ByEvent, d.eventId).log);
    }
  }

  lemma KeepsEarlier(log: seq<LogEvent>, later: seq<LogEvent>)
    requires Extends(log, later)
    ensures forall i :: 0 <= i < |log| ==> later[i] == log[i]
  {
    assert forall i :: 0 <= i < |log| ==> later[..|log|][i] == log[i];
  }

  lemma {:induction false} TickReports(s: Store, before: Store, actor: string, live: bool, found: seq<Task>, through: nat, k: nat)
    requires k <= |found|
    ensures var t := TickRecorded(s, before, actor, live, found, through, k);
            |s.log| <= |t.log| && forall i :: |s.log| <= i < |t.log| ==> t.log[i].body.Report? ==> t.log[i].body.via == ByTick
  {
    hide Recorded, StillStands;
    if k > 0 {
      TickReports(s, before, actor, live, found, through, k - 1);
      var t := TickRecorded(s, before, actor, live, found, through, k - 1);
      RecordedReports(t, actor, live, found[k - 1], ByTick, through);
      RecordedExtends(t, actor, live, found[k - 1], ByTick, through);
      KeepsEarlier(t.log, Recorded(t, actor, live, found[k - 1], ByTick, through).log);
    }
  }

  /** What a step appends to the log reports, by event, only matching events of the window it commits. */
  lemma NewReports(cfg: Config, w: World, s: Step)
    requires Sound(w) && ReportsSound(cfg, w) && Enabled(w, s)
    ensures var v := Next(cfg, w, s);
            forall i :: |w.store.log| <= i < |v.store.log| && v.store.log[i].body.Report? && v.store.log[i].body.via == ByEvent ==>
              Matching(cfg, w.store.log, v.store.log[i].body.eventId) && v.windows != [] && Holds(v.windows[|v.windows| - 1], v.store.log[i].body.eventId)
              && FitsTheScope(cfg, w.store.log, v.store.log[i].body.eventId, v.store.log[i].card, v.store.log[i].pr)
  {
    hide RecordedAll, TickRecorded, Scoped, Firsts;
    if s.Commit? {
      var phase := w.phases[s.n];
      AllReports(w.store, cfg.actor(s.n), cfg.live(s.n), phase.detections, phase.through, |phase.detections|);
    }
    if s.TickCommit? {
      var found := if w.cursor == w.phases[s.n].cursor then w.phases[s.n].found else [];
      TickReports(w.store, w.store, cfg.actor(s.n), cfg.live(s.n), found, w.phases[s.n].through, |found|);
    }
  }

  lemma NextKeepsReports(cfg: Config, w: World, s: Step)
    requires Sound(w) && ReportsSound(cfg, w) && Enabled(w, s)
    ensures ReportsSound(cfg, Next(cfg, w, s))
  {
    hide RecordedAll, TickRecorded, Scoped, Firsts;
    var v := Next(cfg, w, s);
    NextExtends(cfg, w, s);
    KeepsEarlier(w.store.log, v.store.log);
    MatchingStays(cfg, w.store.log, v.store.log);
    ReportsStay(cfg, w, s);
    if s.ReadEvents? {
      FoundIsSound(cfg, w, s.n, s.found);
    }
  }

  lemma ReportsStay(cfg: Config, w: World, s: Step)
    requires Sound(w) && ReportsSound(cfg, w) && Enabled(w, s)
    ensures var v := Next(cfg, w, s); forall i :: 0 <= i < |v.store.log| ==> ReportSound(cfg, v, v.store.log[i])
  {
    var v := Next(cfg, w, s);
    NextExtends(cfg, w, s);
    KeepsEarlier(w.store.log, v.store.log);
    NewReports(cfg, w, s);
    NextKeepsSound(cfg, w, s);
    hide Next;
    MatchingStays(cfg, w.store.log, v.store.log);
    forall i | 0 <= i < |v.store.log| ensures ReportSound(cfg, v, v.store.log[i]) {
      if i < |w.store.log| {
        assert ReportSound(cfg, w, w.store.log[i]);
        WindowsStay(cfg, w, v, v.store.log[i]);
      }
    }
  }

  /** What an event asks of the tasks does not change while the log grows. */
  lemma MatchingStays(cfg: Config, log: seq<LogEvent>, later: seq<LogEvent>)
    requires Extends(log, later)
    ensures forall id :: Matching(cfg, log, id) ==> Matching(cfg, later, id)
    ensures forall id, card, pr :: Matching(cfg, log, id) && FitsTheScope(cfg, log, id, card, pr) ==> FitsTheScope(cfg, later, id, card, pr)
  {
    KeepsEarlier(log, later);
  }

  lemma WindowsStay(cfg: Config, w: World, v: World, e: LogEvent)
    requires ReportSound(cfg, w, e) && w.windows <= v.windows
    requires Extends(w.store.log, v.store.log)
    ensures ReportSound(cfg, v, e)
  {
    MatchingStays(cfg, w.store.log, v.store.log);
    if e.body.Report? && e.body.via == ByEvent {
      var i :| 0 <= i < |w.windows| && Holds(w.windows[i], e.body.eventId);
      assert Holds(v.windows[i], e.body.eventId);
    }
  }

  /** A detection recorded by event names an event the kind subscribes to, of a window that was delivered, and one
      whose scope has the pull request and the card of the task. */
  lemma {:induction false} ReportsAreDelivered(cfg: Config, worlds: seq<World>, steps: seq<Step>, n: nat)
    requires IsRun(cfg, worlds, steps) && n < |worlds|
    ensures ReportsSound(cfg, worlds[n])
  {
    hide Next, Sound, Enabled;
    if n > 0 {
      ReportsAreDelivered(cfg, worlds, steps, n - 1);
      EveryStateSound(cfg, worlds, steps, n - 1);
      assert Goes(cfg, worlds[n - 1], steps[n - 1], worlds[n]);
      NextKeepsReports(cfg, worlds[n - 1], steps[n - 1]);
    }
  }
}
