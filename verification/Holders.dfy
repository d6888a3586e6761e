/** Judging the holders of leases, judgeHolders of scripts/core/lease.ts: leases and processes are read outside any
    transaction, and a lease whose holder is judged dead is freed inside one. */
module Holders {
  import opened Options
  import opened Tasks
  import opened LeaseSpec
  import opened LeaseProtocol

  const SAME_START_MS: nat := 2_000

  /** worker.started: what a worker recorded about its own process. */
  datatype HolderStart = HolderStart(pid: nat, started: nat)

  /** What the system says about a pid. */
  datatype HolderProcess = Gone | Running(started: nat) | Unreadable

  datatype HolderVerdict = Dead | Alive | Unproven

  predicate SameStart(recorded: nat, running: nat) {
    recorded < running + SAME_START_MS && running < recorded + SAME_START_MS
  }

  function VerdictOn(start: Option<HolderStart>, reading: HolderProcess): HolderVerdict {
    if start == None then Unproven
    else if reading.Unreadable? then Unproven
    else if reading.Running? && SameStart(start.value.started, reading.started) then Alive
    else Dead
  }

  // ---------- processes, workers and judges side by side ----------

  datatype Process = Process(pid: nat, started: nat)

  /** A lease as the judge read it, with the recorded start of its holder. */
  datatype HeldRow = HeldRow(key: string, gen: nat, holder: string, start: Option<HolderStart>)

  /** One call of judgeHolders: the rows it read, and its verdicts on those it has probed. */
  datatype Judge = Judge(rows: seq<HeldRow>, verdicts: map<nat, HolderVerdict>)

  /** alive and ended are the processes of the machine; recorded holds the first worker.started of each worker and
      runs the process that recorded it. */
  datatype World = World(bus: Bus, alive: set<Process>, ended: set<Process>, recorded: map<string, HolderStart>,
                         runs: map<string, Process>, judges: map<nat, Judge>)

  datatype Step =
    | OnBus(action: Action)
    | Spawn(process: Process)
    | End(process: Process)
    | RecordStart(worker: string, process: Process, start: HolderStart)
    | Read(judge: nat, keys: seq<string>)
    | Probe(judge: nat, row: nat, readable: bool)
    | Free(judge: nat, row: nat, ts: nat, readings: Readings)

  predicate WasGranted(log: seq<Event>, key: string, gen: nat) {
    Has(log, LeasedOnce(key, gen))
  }

  /** The actor of the task.leased event of the generation: the dedupe key names at most one. */
  function HolderOf(log: seq<Event>, key: string, gen: nat): string
    requires WasGranted(log, key, gen)
  {
    if log[0].dedupe == LeasedOnce(key, gen) then log[0].actor
    else
      assert exists i :: 0 < i < |log| && log[i].dedupe == LeasedOnce(key, gen);
      HolderIn(log, key, gen);
      HolderOf(log[1..], key, gen)
  }

  lemma HolderIn(log: seq<Event>, key: string, gen: nat)
    requires WasGranted(log, key, gen) && log[0].dedupe != LeasedOnce(key, gen)
    ensures WasGranted(log[1..], key, gen)
  {
    var i :| 0 <= i < |log| && log[i].dedupe == LeasedOnce(key, gen);
    assert log[1..][i - 1].dedupe == LeasedOnce(key, gen);
  }

  /** The row is leased, and joins with the event of its grant. */
  predicate LeasedNow(b: Bus, key: string) {
    key in b.tasks && b.tasks[key].state == Leased && WasGranted(b.log, key, b.tasks[key].gen)
  }

  /** LEASES_WITH_THEIR_HOLDER, for one leased row. */
  function RowRead(w: World, key: string): HeldRow
    requires LeasedNow(w.bus, key)
  {
    var gen := w.bus.tasks[key].gen;
    var holder := HolderOf(w.bus.log, key, gen);
    HeldRow(key, gen, holder, if holder in w.recorded then Some(w.recorded[holder]) else None)
  }

  /** startOf: at most one living process has a pid, and reading it may fail. */
  ghost predicate ReadingOf(w: World, pid: nat, readable: bool, reading: HolderProcess) {
    if !readable then reading == Unreadable
    else if exists p :: p in w.alive && p.pid == pid then exists p :: p in w.alive && p.pid == pid && reading == Running(p.started)
    else reading == Gone
  }

  ghost predicate ProbeVerdict(w: World, row: HeldRow, readable: bool, verdict: HolderVerdict) {
    if row.start == None then verdict == Unproven
    else exists reading :: ReadingOf(w, row.start.value.pid, readable, reading) && verdict == VerdictOn(row.start, reading)
  }

  const HOLDER_DEAD := Failure("holder_dead", false)

  /** releasedFromTheDead: the transaction looks at the row again. */
  ghost function Freed(b: Bus, ts: nat, row: HeldRow, readings: Readings): Bus {
    FailedLease(b, ts, POLICY, true, row.key, row.gen, HOLDER_DEAD, readings, [])
  }

  ghost predicate Next(w: World, s: Step, v: World) {
    match s
    case OnBus(action) => Proper(action) && v == w.(bus := LeaseProtocol.Next(w.bus, action))
    case Spawn(p) =>
      && p !in w.alive && p !in w.ended && (forall q :: q in w.alive ==> q.pid != p.pid)
      && v == w.(alive := w.alive + {p})
    case End(p) => p in w.alive && v == w.(alive := w.alive - {p}, ended := w.ended + {p})
    case RecordStart(worker, p, start) =>
      && p in w.alive && start.pid == p.pid && SameStart(start.started, p.started)
      && v == if worker in w.recorded then w else w.(recorded := w.recorded[worker := start], runs := w.runs[worker := p])
    case Read(j, keys) =>
      && (forall i :: 0 <= i < |keys| ==> LeasedNow(w.bus, keys[i]))
      && v == w.(judges := w.judges[j := Judge(seq(|keys|, i requires 0 <= i < |keys| && LeasedNow(w.bus, keys[i]) => RowRead(w, keys[i])), map[])])
    case Probe(j, r, readable) =>
      && j in w.judges && r < |w.judges[j].rows|
      && exists verdict :: ProbeVerdict(w, w.judges[j].rows[r], readable, verdict)
           && v == w.(judges := w.judges[j := w.judges[j].(verdicts := w.judges[j].verdicts[r := verdict])])
    case Free(j, r, ts, readings) =>
      && j in w.judges && r < |w.judges[j].rows| && r in w.judges[j].verdicts && w.judges[j].verdicts[r] == Dead
      && v == w.(bus := Freed(w.bus, ts, w.judges[j].rows[r], readings))
  }

  // ---------- what every state keeps ----------

  ghost predicate ProcessesSound(w: World) {
    && w.alive !! w.ended
    && (forall p, q :: p in w.alive && q in w.alive && p.pid == q.pid ==> p == q)
  }

  ghost predicate StartsSound(w: World) {
    w.recorded.Keys == w.runs.Keys
    && forall worker :: worker in w.recorded ==>
         && w.runs[worker] in w.alive + w.ended
         && w.recorded[worker].pid == w.runs[worker].pid
         && SameStart(w.recorded[worker].started, w.runs[worker].started)
  }

  /** What a judge read about the holder stays true: grants and starts are recorded once. */
  ghost predicate RowSound(w: World, row: HeldRow) {
    && WasGranted(w.bus.log, row.key, row.gen) && HolderOf(w.bus.log, row.key, row.gen) == row.holder
    && (row.start.Some? ==> row.holder in w.recorded && w.recorded[row.holder] == row.start.value)
  }

  ghost predicate HolderEnded(w: World, holder: string) {
    holder in w.runs && w.runs[holder] in w.ended
  }

  ghost predicate JudgesSound(w: World) {
    forall j :: j in w.judges ==> JudgeSound(w, w.judges[j])
  }

  ghost predicate JudgeSound(w: World, judge: Judge) {
    && (forall r :: 0 <= r < |judge.rows| ==> RowSound(w, judge.rows[r]))
    && (forall r :: r in judge.verdicts && judge.verdicts[r] == Dead ==> r < |judge.rows| && HolderEnded(w, judge.rows[r].holder))
  }

  ghost predicate Sound(w: World) {
    ProcessesSound(w) && StartsSound(w) && JudgesSound(w)
  }

  /** The log only grows, so the holder of a generation stays the same. */
  lemma {:induction false} HolderStays(log: seq<Event>, later: seq<Event>, key: string, gen: nat)
    requires |log| <= |later| && later[..|log|] == log && WasGranted(log, key, gen)
    ensures WasGranted(later, key, gen) && HolderOf(later, key, gen) == HolderOf(log, key, gen)
    decreases |log|
  {
    assert later[0] == later[..|log|][0] == log[0];
    if log[0].dedupe == LeasedOnce(key, gen) {
      assert later[0].dedupe == LeasedOnce(key, gen);
    } else {
      HolderIn(log, key, gen);
      assert later[1..][..|log| - 1] == later[..|log|][1..] == log[1..];
      HolderStays(log[1..], later[1..], key, gen);
      var i :| 0 <= i < |later[1..]| && later[1..][i].dedupe == LeasedOnce(key, gen);
      assert later[i + 1].dedupe == LeasedOnce(key, gen);
    }
  }

  ghost predicate Extends(w: World, v: World) {
    && |w.bus.log| <= |v.bus.log| && v.bus.log[..|w.bus.log|] == w.bus.log
    && (forall worker :: worker in w.recorded ==> worker in v.recorded && v.recorded[worker] == w.recorded[worker])
    && (forall worker :: worker in w.runs ==> worker in v.runs && v.runs[worker] == w.runs[worker])
    && w.ended <= v.ended
  }

  lemma JudgeStaysSound(w: World, v: World, judge: Judge)
    requires Extends(w, v) && JudgeSound(w, judge)
    ensures JudgeSound(v, judge)
  {
    forall r | 0 <= r < |judge.rows|
      ensures RowSound(v, judge.rows[r])
    {
      var row := judge.rows[r];
      assert RowSound(w, row);
      HolderStays(w.bus.log, v.bus.log, row.key, row.gen);
    }
    forall r | r in judge.verdicts && judge.verdicts[r] == Dead
      ensures r < |judge.rows| && HolderEnded(v, judge.rows[r].holder)
    {
      assert HolderEnded(w, judge.rows[r].holder);
    }
  }

  lemma AppendGrows(log: seq<Event>, e: Event)
    ensures |log| <= |Append(log, e)| && Append(log, e)[..|log|] == log
  {
  }

  lemma {:induction false} AppendAllGrows(log: seq<Event>, events: seq<Event>)
    ensures |log| <= |AppendAll(log, events)| && AppendAll(log, events)[..|log|] == log
  {
    if events == [] {
      assert log[..|log|] == log;
    } else {
      AppendAllGrows(log, events[..|events| - 1]);
      var mid := AppendAll(log, events[..|events| - 1]);
      AppendGrows(mid, events[|events| - 1]);
      var end := AppendAll(log, events);
      assert end[..|log|] == end[..|mid|][..|log|];
    }
  }

  lemma WroteGrows(b: Bus, context: seq<Event>, e: Event)
    ensures |b.log| <= |Wrote(WithContext(b, context), e).log| && Wrote(WithContext(b, context), e).log[..|b.log|] == b.log
  {
    AppendAllGrows(b.log, context);
    var c := WithContext(b, context);
    var d := Wrote(c, e);
    AppendGrows(c.log + [e], Record(e));
    if d.log != c.log {
      assert d.log[..|c.log| + 1] == c.log + [e];
      assert d.log[..|c.log|] == d.log[..|c.log| + 1][..|c.log|] == c.log;
    }
    assert c.log[..|c.log|] == c.log;
    assert d.log[..|b.log|] == d.log[..|c.log|][..|b.log|];
  }

  lemma WithContextOfNothing(b: Bus)
    ensures WithContext(b, []) == b
  {
  }

  lemma NextGrows(b: Bus, a: Action)
    requires Proper(a)
    ensures |b.log| <= |LeaseProtocol.Next(b, a).log| && LeaseProtocol.Next(b, a).log[..|b.log|] == b.log
  {
    WithContextOfNothing(b);
    assert b.log[..|b.log|] == b.log;
    if Queueing(a) {
      WroteGrows(b, [], QueueingEvent(a));
    } else if UnderALease(a) {
      LeaseActionGrows(b, a);
    } else {
      OtherGrows(b, a);
    }
  }

  lemma OtherGrows(b: Bus, a: Action)
    requires Proper(a) && !Queueing(a) && !UnderALease(a)
    ensures |b.log| <= |LeaseProtocol.Next(b, a).log| && LeaseProtocol.Next(b, a).log[..|b.log|] == b.log
  {
    WithContextOfNothing(b);
    assert b.log[..|b.log|] == b.log;
    match a
    case SettingAgain(ts, key, subject, cause, readFailures, accepted) =>
      AppendAllGrows(b.log, [Alarm(key, subject, ts)]);
      WroteGrows(b, [], FaultEvent(ts, key, subject, cause, accepted));
    case Granting(ts, key, actor) =>
      if key in b.tasks {
        WroteGrows(b, [], GrantEvent(b, ts, key, actor));
      }
    case Beating(e) => WroteGrows(b, [], e);
    case Appending(events) => AppendAllGrows(b.log, events);
  }

  lemma LeaseActionGrows(b: Bus, a: Action)
    requires Proper(a) && UnderALease(a)
    ensures |b.log| <= |LeaseProtocol.Next(b, a).log| && LeaseProtocol.Next(b, a).log[..|b.log|] == b.log
  {
    assert b.log[..|b.log|] == b.log;
    if Holding(b, LeaseKey(a), LeaseGen(a)) {
      WithContextOfNothing(b);
      WroteGrows(b, ContextOf(a), LeaseEvent(b, a));
      var c := Wrote(WithContext(b, ContextOf(a)), LeaseEvent(b, a));
      var records := StopRecords(b, a.ts, if a.Expiring? then POLICY else a.lease.actor, LeaseKey(a));
      AppendAllGrows(c.log, records);
      assert AppendAll(c.log, records)[..|b.log|] == AppendAll(c.log, records)[..|c.log|][..|b.log|];
    }
  }

  /** A dead verdict is right when it is given: a living process is found under its pid with its own start. */
  lemma DeadVerdictIsSound(w: World, row: HeldRow, readable: bool)
    requires ProcessesSound(w) && StartsSound(w) && RowSound(w, row) && ProbeVerdict(w, row, readable, Dead)
    ensures HolderEnded(w, row.holder)
  {
    var p := w.runs[row.holder];
    assert p in w.alive + w.ended && p.pid == row.start.value.pid;
  }

  /** What a judge reads: of each row that it is leased, its generation, the worker the grant of that generation names,
      and the start that worker recorded, if any. */
  lemma ReadSays(w: World, j: nat, keys: seq<string>, v: World, i: nat)
    requires Next(w, Read(j, keys), v) && i < |keys|
    ensures j in v.judges && |v.judges[j].rows| == |keys| && v.judges[j].verdicts == map[] && keys[i] in w.bus.tasks
    ensures
      var row, task := v.judges[j].rows[i], w.bus.tasks[keys[i]];
      && task.state == Leased && row.key == keys[i] && row.gen == task.gen
      && (exists k :: 0 <= k < |w.bus.log| && w.bus.log[k].dedupe == LeasedOnce(keys[i], task.gen) && w.bus.log[k].actor == row.holder)
      && row.start == if row.holder in w.recorded then Some(w.recorded[row.holder]) else None
  {
    HolderGranted(w.bus.log, keys[i], w.bus.tasks[keys[i]].gen);
  }

  lemma {:induction false} HolderGranted(log: seq<Event>, key: string, gen: nat)
    requires WasGranted(log, key, gen)
    ensures exists k :: 0 <= k < |log| && log[k].dedupe == LeasedOnce(key, gen) && log[k].actor == HolderOf(log, key, gen)
    decreases |log|
  {
    if log[0].dedupe != LeasedOnce(key, gen) {
      HolderIn(log, key, gen);
      HolderGranted(log[1..], key, gen);
      var k :| 0 <= k < |log[1..]| && log[1..][k].dedupe == LeasedOnce(key, gen) && log[1..][k].actor == HolderOf(log[1..], key, gen);
      assert log[k + 1] == log[1..][k];
    }
  }

  /** A start read within two seconds of the recorded one. */
  predicate WithinTwoSeconds(recorded: nat, read: nat) {
    -2_000 < recorded - read < 2_000
  }

  /** What a probe that can read the pid of a recorded start finds: the holder is judged alive if and only if a living
      process has the pid and started within two seconds of the record, and dead if none does. Without a record, or
      where the pid cannot be read, nothing is proven. */
  lemma ProbeSays(w: World, row: HeldRow, readable: bool, verdict: HolderVerdict)
    requires ProcessesSound(w) && ProbeVerdict(w, row, readable, verdict)
    ensures
      verdict == if row.start.None? || !readable then Unproven
                 else if exists p :: p in w.alive && p.pid == row.start.value.pid && WithinTwoSeconds(row.start.value.started, p.started) then Alive
                 else Dead
  {
  }

  lemma NextKeepsSound(w: World, s: Step, v: World)
    requires Sound(w) && Next(w, s, v)
    ensures Sound(v)
  {
    match s
    case Read(j, keys) => ReadIsSound(w, j, keys, v);
    case Probe(j, r, readable) => ProbeIsSound(w, j, r, readable, v);
    case _ =>
      OthersExtend(w, s, v);
      AllStaySound(w, v);
  }

  lemma OthersExtend(w: World, s: Step, v: World)
    requires ProcessesSound(w) && StartsSound(w) && Next(w, s, v) && !s.Read? && !s.Probe?
    ensures Extends(w, v) && v.judges == w.judges && ProcessesSound(v) && StartsSound(v)
  {
    hide LeaseProtocol.Next, Freed, Proper;
    if s.OnBus? {
      NextGrows(w.bus, s.action);
      BusExtends(w, v.bus);
    } else if s.Free? {
      FreeGrows(w.bus, s.ts, w.judges[s.judge].rows[s.row], s.readings);
      BusExtends(w, v.bus);
    } else {
      ProcessStepExtends(w, s, v);
    }
  }

  lemma ProcessStepExtends(w: World, s: Step, v: World)
    requires ProcessesSound(w) && StartsSound(w) && Next(w, s, v) && (s.Spawn? || s.End? || s.RecordStart?)
    ensures Extends(w, v) && v.judges == w.judges && ProcessesSound(v) && StartsSound(v)
  {
    hide ProcessesSound, StartsSound, Extends;
    if s.Spawn? {
      SpawnExtends(w, s.process);
    } else if s.End? {
      EndExtends(w, s.process);
    } else if s.worker in w.recorded {
      BusExtends(w, w.bus);
    } else {
      RecordExtends(w, s.worker, s.process, s.start);
    }
  }

  lemma SpawnExtends(w: World, p: Process)
    requires ProcessesSound(w) && StartsSound(w) && p !in w.ended && forall q :: q in w.alive ==> q.pid != p.pid
    ensures var v := w.(alive := w.alive + {p}); Extends(w, v) && ProcessesSound(v) && StartsSound(v)
  {
    assert w.bus.log[..|w.bus.log|] == w.bus.log;
  }

  lemma EndExtends(w: World, p: Process)
    requires ProcessesSound(w) && StartsSound(w) && p in w.alive
    ensures var v := w.(alive := w.alive - {p}, ended := w.ended + {p}); Extends(w, v) && ProcessesSound(v) && StartsSound(v)
  {
    assert w.bus.log[..|w.bus.log|] == w.bus.log;
  }

  lemma RecordExtends(w: World, worker: string, p: Process, start: HolderStart)
    requires ProcessesSound(w) && StartsSound(w) && worker !in w.recorded
    requires p in w.alive && start.pid == p.pid && SameStart(start.started, p.started)
    ensures
      var v := w.(recorded := w.recorded[worker := start], runs := w.runs[worker := p]);
      Extends(w, v) && ProcessesSound(v) && StartsSound(v)
  {
    assert w.bus.log[..|w.bus.log|] == w.bus.log;
  }

  lemma BusExtends(w: World, b: Bus)
    requires ProcessesSound(w) && StartsSound(w) && (b == w.bus || (|w.bus.log| <= |b.log| && b.log[..|w.bus.log|] == w.bus.log))
    ensures var v := w.(bus := b); Extends(w, v) && ProcessesSound(v) && StartsSound(v)
  {
    assert w.bus.log[..|w.bus.log|] == w.bus.log;
  }

  lemma FreeGrows(b: Bus, ts: nat, row: HeldRow, readings: Readings)
    ensures |b.log| <= |Freed(b, ts, row, readings).log| && Freed(b, ts, row, readings).log[..|b.log|] == b.log
  {
    LeaseActionGrows(b, Expiring(ts, row.key, row.gen, HOLDER_DEAD, readings));
  }

  lemma AllStaySound(w: World, v: World)
    requires JudgesSound(w) && Extends(w, v) && v.judges == w.judges
    ensures JudgesSound(v)
  {
    forall j | j in v.judges ensures JudgeSound(v, v.judges[j]) {
      JudgeStaysSound(w, v, w.judges[j]);
    }
  }

  lemma ReadIsSound(w: World, j: nat, keys: seq<string>, v: World)
    requires Sound(w) && Next(w, Read(j, keys), v)
    ensures Sound(v)
  {
    forall k | k in v.judges ensures JudgeSound(v, v.judges[k]) {
      if k == j {
        forall r | 0 <= r < |keys| ensures RowSound(v, v.judges[j].rows[r]) {
          assert v.judges[j].rows[r] == RowRead(w, keys[r]);
        }
      } else {
        assert w.bus.log[..|w.bus.log|] == w.bus.log;
        JudgeStaysSound(w, v, w.judges[k]);
      }
    }
  }

  lemma ProbeIsSound(w: World, j: nat, r: nat, readable: bool, v: World)
    requires Sound(w) && Next(w, Probe(j, r, readable), v)
    ensures Sound(v)
  {
    assert w.bus.log[..|w.bus.log|] == w.bus.log;
    forall k | k in v.judges ensures JudgeSound(v, v.judges[k]) {
      JudgeStaysSound(w, v, w.judges[k]);
      if k == j && v.judges[j].verdicts[r] == Dead {
        DeadVerdictIsSound(w, w.judges[j].rows[r], readable);
      }
    }
  }

  const QUIET := World(EMPTY_BUS, {}, {}, map[], map[], map[])

  ghost predicate IsRun(states: seq<World>, steps: seq<Step>) {
    && |states| == |steps| + 1 && states[0] == QUIET
    && forall i :: 0 <= i < |steps| ==> Next(states[i], steps[i], states[i + 1])
  }

  lemma {:induction false} EveryRunSound(states: seq<World>, steps: seq<Step>, i: nat)
    requires IsRun(states, steps) && i < |states|
    ensures Sound(states[i])
  {
    if i > 0 {
      EveryRunSound(states, steps, i - 1);
      NextKeepsSound(states[i - 1], steps[i - 1], states[i]);
    }
  }

  /** The lease the step ends is one the judge read, the process that recorded the start of its holder is not
      alive, and if the lease is no longer held the step does nothing. */
  ghost predicate FreedSafely(w: World, s: Step, v: World) {
    && s.Free? && s.judge in w.judges && s.row < |w.judges[s.judge].rows|
    && var row := w.judges[s.judge].rows[s.row];
       && WasGranted(w.bus.log, row.key, row.gen)
       && var holder := HolderOf(w.bus.log, row.key, row.gen);
          && HolderEnded(w, holder) && w.runs[holder] !in w.alive
          && (!Holding(w.bus, row.key, row.gen) ==> v == w)
  }

  /** Whatever happens between a judge's reading, its probe and its transaction - leases ended and granted again,
      processes started and ended, pids used again, other judges at work - it never ends the lease of a holder
      whose recorded process is alive. */
  lemma NeverFreesALivingHolder(states: seq<World>, steps: seq<Step>, i: nat)
    requires IsRun(states, steps) && i < |steps| && steps[i].Free?
    ensures FreedSafely(states[i], steps[i], states[i + 1])
  {
    EveryRunSound(states, steps, i);
    FreeIsSafe(states[i], steps[i], states[i + 1]);
  }

  lemma FreeIsSafe(w: World, s: Step, v: World)
    requires Sound(w) && Next(w, s, v) && s.Free?
    ensures FreedSafely(w, s, v)
  {
    var judge := w.judges[s.judge];
    assert JudgeSound(w, judge);
    assert RowSound(w, judge.rows[s.row]);
  }
}
