/** The machine-wide session limit, scripts/core/machine-sessions.ts: processes of several buses claim a session
    by a file each, with no lock. A claim sweeps dead files, counts, writes its own file and counts again; a count
    lists the files, reads them one at a time and then probes the process each of them names. The steps of all
    claims interleave. */
module MachineSessions {

  /** A claimant: bus, role and card, as its file name has them. */
  type Claimant = nat
  type Pid = nat

  /** The content of a claim file. The ticket says which write it stems from; no program reads it. */
  datatype Record = Record(pid: Pid, ticket: nat)

  /** A count under way: the names a listing has to return, the names read so far, the records read and not yet
      probed, and the names whose process was found alive. */
  datatype Count = Count(listed: set<Claimant>, visited: set<Claimant>, read: map<Claimant, Record>, seen: set<Claimant>)

  /** Where the one call of a claimant stands. */
  datatype Phase =
    | Out
    | Sweeping(pid: Pid, found: map<Claimant, Record>)
    | Before(pid: Pid, count: Count)
    | Ready(pid: Pid)
    | After(pid: Pid, count: Count, ticket: nat)
    | Yielding(pid: Pid)
    | Told(pid: Pid)

  datatype World = World(files: map<Claimant, Record>, alive: set<Pid>, gone: set<Pid>, phases: map<Claimant, Phase>, clock: nat)

  datatype Step =
    | Spawn(p: Pid)
    | Die(p: Pid)
    | Again(c: Claimant)
    | Begin(c: Claimant, p: Pid)
    | SweepRead(c: Claimant, d: Claimant)
    | SweepRemove(c: Claimant, d: Claimant)
    | EndSweep(c: Claimant)
    | Visit(c: Claimant, d: Claimant)
    | Probe(c: Claimant, d: Claimant)
    | Decide(c: Claimant)
    | Write(c: Claimant)
    | Yield(c: Claimant)
    | Started(c: Claimant, p: Pid)
    | Release(c: Claimant)
    | Crash(c: Claimant)

  predicate Live(w: World, c: Claimant) {
    c in w.files && w.files[c].pid in w.alive
  }

  function PhaseOf(w: World, c: Claimant): Phase {
    if c in w.phases then w.phases[c] else Out
  }

  predicate Counting(phase: Phase) {
    phase.Before? || phase.After?
  }

  predicate Resting(phase: Phase) {
    phase.Out? || phase.Told?
  }

  /** Every listed name is read and every record read is probed. */
  predicate Counted(count: Count) {
    count.listed <= count.visited && count.read == map[]
  }

  /** The steps of one call in their order; a sweep removes a record only when its process is dead, wherever
      between reading and removing the process was probed. */
  predicate Enabled(w: World, s: Step) {
    match s
    case Spawn(p) => p !in w.alive && p !in w.gone
    case Die(p) => p in w.alive
    case Again(c) => Resting(PhaseOf(w, c)) && Live(w, c)
    case Begin(c, p) => Resting(PhaseOf(w, c)) && !Live(w, c) && p in w.alive
    case SweepRead(c, d) => PhaseOf(w, c).Sweeping? && d in w.files
    case SweepRemove(c, d) => PhaseOf(w, c).Sweeping? && d in PhaseOf(w, c).found && PhaseOf(w, c).found[d].pid !in w.alive
    case EndSweep(c) => PhaseOf(w, c).Sweeping?
    case Visit(c, d) => Counting(PhaseOf(w, c)) && d !in PhaseOf(w, c).count.visited
    case Probe(c, d) => Counting(PhaseOf(w, c)) && d in PhaseOf(w, c).count.read
    case Decide(c) => Counting(PhaseOf(w, c)) && Counted(PhaseOf(w, c).count)
    case Write(c) => PhaseOf(w, c).Ready?
    case Yield(c) => PhaseOf(w, c).Yielding?
    case Started(c, p) => PhaseOf(w, c).Told? && PhaseOf(w, c).pid in w.alive && p in w.alive
    case Release(c) => Resting(PhaseOf(w, c))
    case Crash(c) => !Resting(PhaseOf(w, c)) && PhaseOf(w, c).pid !in w.alive
  }

  function InPhase(w: World, c: Claimant, phase: Phase): World {
    w.(phases := w.phases[c := phase])
  }

  /** A file that is gone when it comes to be read counts for nothing. */
  function Visited(w: World, count: Count, d: Claimant): Count {
    count.(visited := count.visited + {d}, read := if d in w.files then count.read[d := w.files[d]] else count.read)
  }

  function Probed(w: World, count: Count, d: Claimant): Count
    requires d in count.read
  {
    count.(read := count.read - {d}, seen := if count.read[d].pid in w.alive then count.seen + {d} else count.seen)
  }

  function Fresh(w: World): Count {
    Count(w.files.Keys, {}, map[], {})
  }

  function Decided(limit: nat, phase: Phase): Phase
    requires Counting(phase)
  {
    if phase.Before? then
      if |phase.count.seen| >= limit then Out else Ready(phase.pid)
    else
      if |phase.count.seen| > limit then Yielding(phase.pid) else Told(phase.pid)
  }

  function Next(limit: nat, w: World, s: Step): World
    requires Enabled(w, s)
  {
    match s
    case Spawn(p) => w.(alive := w.alive + {p})
    case Die(p) => w.(alive := w.alive - {p}, gone := w.gone + {p})
    case Again(c) => InPhase(w, c, Told(w.files[c].pid))
    case Begin(c, p) => InPhase(w, c, Sweeping(p, map[]))
    case SweepRead(c, d) => InPhase(w, c, w.phases[c].(found := w.phases[c].found[d := w.files[d]]))
    case SweepRemove(c, d) => InPhase(w.(files := w.files - {d}), c, w.phases[c].(found := w.phases[c].found - {d}))
    case EndSweep(c) => InPhase(w, c, Before(w.phases[c].pid, Fresh(w)))
    case Visit(c, d) => InPhase(w, c, w.phases[c].(count := Visited(w, w.phases[c].count, d)))
    case Probe(c, d) => InPhase(w, c, w.phases[c].(count := Probed(w, w.phases[c].count, d)))
    case Decide(c) => InPhase(w, c, Decided(limit, w.phases[c]))
    case Write(c) =>
      var v := w.(files := w.files[c := Record(w.phases[c].pid, w.clock)], clock := w.clock + 1);
      InPhase(v, c, After(w.phases[c].pid, Fresh(v), w.clock))
    case Yield(c) => InPhase(w.(files := w.files - {c}), c, Out)
    case Started(c, p) =>
      var ticket := if c in w.files then w.files[c].ticket else w.clock;
      InPhase(w.(files := w.files[c := Record(p, ticket)], clock := w.clock + 1), c, Told(p))
    case Release(c) => InPhase(w.(files := w.files - {c}), c, Out)
    case Crash(c) => InPhase(w, c, Out)
  }

  /** The live claim of d, as old as the count of phase or older, is about to be forgotten: d was read, has not been
      seen alive, and stands behind the same write. */
  predicate Counts(w: World, phase: Phase, d: Claimant) {
    && phase.After? && d in phase.count.read && d in phase.count.visited && d !in phase.count.seen
    && Live(w, d) && w.files[d].ticket <= phase.ticket && w.files[d].ticket == phase.count.read[d].ticket
  }

  /** The two races the protocol does not close, left out. A sweep removes no live claim, unless its claimant is about
      to give it up. And a recount finds the process it read alive, where the claim it read still stands. */
  predicate Intact(w: World, s: Step)
    requires Enabled(w, s)
  {
    match s
    case SweepRemove(c, d) => Live(w, d) ==> PhaseOf(w, d).Yielding?
    case Probe(c, d) => Counts(w, w.phases[c], d) ==> w.phases[c].count.read[d].pid in w.alive
    case _ => true
  }

  // ---------- what every state keeps ----------

  /** The claimants told `claimed` whose process is alive. */
  ghost function LiveTold(w: World): set<Claimant> {
    set c | c in w.phases && w.phases[c].Told? && w.phases[c].pid in w.alive
  }

  /** The live claims written no later than the ticket. */
  ghost function LiveUpTo(w: World, ticket: nat): set<Claimant> {
    set c | c in w.files && w.files[c].pid in w.alive && w.files[c].ticket <= ticket
  }

  ghost predicate FilesSound(w: World) {
    && (forall c :: c in w.files ==> w.files[c].ticket < w.clock && w.files[c].pid in w.alive + w.gone)
    && w.alive !! w.gone
  }

  /** A counting claimant: its listing began after its write, and every live claim as old as its own that it has
      visited is among those seen, or waits to be probed. */
  ghost predicate CountSound(w: World, c: Claimant, phase: Phase)
    requires phase.After?
  {
    && phase.ticket < w.clock
    && (c in w.files ==> w.files[c].ticket == phase.ticket)
    && (phase.pid in w.alive ==> c in w.files && w.files[c].pid == phase.pid)
    && (forall d :: d in w.files && w.files[d].ticket <= phase.ticket ==> d in phase.count.listed)
    && (forall d :: d in LiveUpTo(w, phase.ticket) && d in phase.count.visited ==> Remembered(w, phase.count, d))
  }

  ghost predicate Remembered(w: World, count: Count, d: Claimant)
    requires d in w.files
  {
    d in count.seen || (d in count.read && count.read[d].ticket == w.files[d].ticket)
  }

  /** A claimant told `claimed`: while its process lives, its file stands, and the live claims no younger than it
      are within the limit. */
  ghost predicate ToldSound(limit: nat, w: World, c: Claimant, phase: Phase)
    requires phase.Told?
  {
    phase.pid in w.alive ==>
      (c in w.files && w.files[c].pid == phase.pid && |LiveUpTo(w, w.files[c].ticket)| <= limit)
  }

  /** Only a call that has written, or what it was told, stands behind a live file. */
  ghost predicate OwnerSound(w: World, c: Claimant) {
    var phase := PhaseOf(w, c);
    && (phase.Out? || phase.pid in w.alive + w.gone)
    && (Live(w, c) ==> (phase.After? || phase.Yielding? || phase.Told?) && phase.pid == w.files[c].pid)
  }

  ghost predicate PhaseSound(limit: nat, w: World, c: Claimant) {
    var phase := PhaseOf(w, c);
    && OwnerSound(w, c)
    && (phase.After? ==> CountSound(w, c, phase))
    && (phase.Told? ==> ToldSound(limit, w, c, phase))
  }

  ghost predicate Sound(limit: nat, w: World) {
    FilesSound(w) && forall c :: PhaseSound(limit, w, c)
  }

  // ---------- claimants that take no part in a step ----------

  lemma SubsetSize(a: set<Claimant>, b: set<Claimant>)
    requires a <= b
    ensures |a| <= |b|
  {
    if a != {} {
      var x :| x in a;
      SubsetSize(a - {x}, b - {x});
    }
  }

  /** v has no older live claim than w had, and no file of w changed its ticket but by being written anew. */
  ghost predicate Shrinks(w: World, v: World) {
    && w.clock <= v.clock
    && (forall d :: d in v.files && v.files[d].ticket < w.clock ==> d in w.files && w.files[d].ticket == v.files[d].ticket)
    && (forall d :: Live(v, d) && v.files[d].ticket < w.clock ==> Live(w, d))
  }

  lemma FewerUpTo(w: World, v: World, ticket: nat)
    requires Shrinks(w, v) && ticket < w.clock
    ensures LiveUpTo(v, ticket) <= LiveUpTo(w, ticket) && |LiveUpTo(v, ticket)| <= |LiveUpTo(w, ticket)|
  {
    forall c | c in LiveUpTo(v, ticket) ensures c in LiveUpTo(w, ticket) {
      assert Live(v, c);
    }
    SubsetSize(LiveUpTo(v, ticket), LiveUpTo(w, ticket));
  }

  /** What a step leaves of claimant c: its phase, and its file unless its process is dead or it gives up; and no
      dead process comes back. */
  ghost predicate Leaves(w: World, v: World, c: Claimant) {
    && PhaseOf(v, c) == PhaseOf(w, c)
    && w.gone <= v.gone && w.alive + w.gone <= v.alive + v.gone
    && (c in v.files ==> c in w.files && v.files[c] == w.files[c])
    && (Live(w, c) && w.files[c].pid in v.alive ==> c in v.files || PhaseOf(w, c).Yielding?)
  }

  lemma BystanderStaysSound(limit: nat, w: World, v: World, c: Claimant)
    requires FilesSound(w) && FilesSound(v) && PhaseSound(limit, w, c) && Shrinks(w, v) && Leaves(w, v, c)
    ensures PhaseSound(limit, v, c)
  {
    var phase := PhaseOf(w, c);
    if phase.After? {
      FewerUpTo(w, v, phase.ticket);
    }
    if phase.Told? && phase.pid in v.alive {
      assert phase.pid in w.alive;
      FewerUpTo(w, v, w.files[c].ticket);
    }
  }

  /** The claimant whose call takes a step. */
  predicate Acts(s: Step, c: Claimant) {
    !s.Spawn? && !s.Die? && s.c == c
  }

  lemma StepShrinks(limit: nat, w: World, s: Step)
    requires Sound(limit, w) && Enabled(w, s) && Intact(w, s)
    ensures FilesSound(Next(limit, w, s)) && Shrinks(w, Next(limit, w, s))
  {
    if s.Started? {
      assert PhaseSound(limit, w, s.c);
    }
    if s.Write? {
      assert PhaseSound(limit, w, s.c);
    }
  }

  lemma StepLeaves(limit: nat, w: World, s: Step, c: Claimant)
    requires Sound(limit, w) && Enabled(w, s) && Intact(w, s) && !Acts(s, c)
    ensures Leaves(w, Next(limit, w, s), c)
  {
  }

  // ---------- the claimant that acts ----------

  /** A claimant that has just written has visited nothing, and lists all that is there. */
  lemma WriteSound(limit: nat, w: World, c: Claimant)
    requires Sound(limit, w) && Enabled(w, Write(c))
    ensures PhaseSound(limit, Next(limit, w, Write(c)), c)
  {
    assert PhaseSound(limit, w, c);
  }

  lemma VisitSound(limit: nat, w: World, c: Claimant, d: Claimant)
    requires Sound(limit, w) && Enabled(w, Visit(c, d))
    ensures PhaseSound(limit, Next(limit, w, Visit(c, d)), c)
  {
    assert PhaseSound(limit, w, c);
    var v := Next(limit, w, Visit(c, d));
    if v.phases[c].After? {
      assert LiveUpTo(v, v.phases[c].ticket) == LiveUpTo(w, v.phases[c].ticket);
    }
  }

  lemma ProbeSound(limit: nat, w: World, c: Claimant, d: Claimant)
    requires Sound(limit, w) && Enabled(w, Probe(c, d)) && Intact(w, Probe(c, d))
    ensures PhaseSound(limit, Next(limit, w, Probe(c, d)), c)
  {
    assert PhaseSound(limit, w, c);
    var v := Next(limit, w, Probe(c, d));
    if v.phases[c].After? {
      assert LiveUpTo(v, v.phases[c].ticket) == LiveUpTo(w, v.phases[c].ticket);
    }
  }

  /** A recount within the limit saw every live claim no younger than the counting one. */
  lemma DecideSound(limit: nat, w: World, c: Claimant)
    requires Sound(limit, w) && Enabled(w, Decide(c))
    ensures PhaseSound(limit, Next(limit, w, Decide(c)), c)
  {
    assert PhaseSound(limit, w, c);
    var v, phase := Next(limit, w, Decide(c)), w.phases[c];
    if v.phases[c].Told? && phase.pid in w.alive {
      assert LiveUpTo(v, phase.ticket) == LiveUpTo(w, phase.ticket);
      forall d | d in LiveUpTo(w, phase.ticket) ensures d in phase.count.seen {
        assert Remembered(w, phase.count, d);
      }
      SubsetSize(LiveUpTo(w, phase.ticket), phase.count.seen);
    }
  }

  /** Handing a session over to another live process leaves every live claim as old as it was. */
  lemma StartedSound(limit: nat, w: World, c: Claimant, p: Pid)
    requires Sound(limit, w) && Enabled(w, Started(c, p))
    ensures PhaseSound(limit, Next(limit, w, Started(c, p)), c)
  {
    assert PhaseSound(limit, w, c);
    StepShrinks(limit, w, Started(c, p));
    FewerUpTo(w, Next(limit, w, Started(c, p)), w.files[c].ticket);
  }

  lemma AgainSound(limit: nat, w: World, c: Claimant)
    requires Sound(limit, w) && Enabled(w, Again(c))
    ensures PhaseSound(limit, Next(limit, w, Again(c)), c)
  {
    assert PhaseSound(limit, w, c);
    var v := Next(limit, w, Again(c));
    assert LiveUpTo(v, w.files[c].ticket) == LiveUpTo(w, w.files[c].ticket);
  }

  lemma ActorSound(limit: nat, w: World, s: Step, c: Claimant)
    requires Sound(limit, w) && Enabled(w, s) && Intact(w, s) && Acts(s, c)
    ensures PhaseSound(limit, Next(limit, w, s), c)
  {
    assert PhaseSound(limit, w, c);
    if s.Write? {
      WriteSound(limit, w, c);
    } else if s.Visit? {
      VisitSound(limit, w, c, s.d);
    } else if s.Probe? {
      ProbeSound(limit, w, c, s.d);
    } else if s.Decide? {
      DecideSound(limit, w, c);
    } else if s.Started? {
      StartedSound(limit, w, c, s.p);
    } else if s.Again? {
      AgainSound(limit, w, c);
    }
  }

  lemma StepStaysSound(limit: nat, w: World, s: Step)
    requires Sound(limit, w) && Enabled(w, s) && Intact(w, s)
    ensures Sound(limit, Next(limit, w, s))
  {
    var v := Next(limit, w, s);
    StepShrinks(limit, w, s);
    forall c ensures PhaseSound(limit, v, c) {
      if Acts(s, c) {
        ActorSound(limit, w, s, c);
      } else {
        StepLeaves(limit, w, s, c);
        BystanderStaysSound(limit, w, v, c);
      }
    }
  }

  /** A race leaves a claimant without its file, or a count that forgot a claim. */
  lemma RaceIsUnsound(limit: nat, w: World, s: Step)
    requires Sound(limit, w) && Enabled(w, s) && !Intact(w, s)
    ensures !Sound(limit, Next(limit, w, s))
  {
    var v := Next(limit, w, s);
    if s.SweepRemove? {
      assert PhaseSound(limit, w, s.d);
      assert PhaseOf(v, s.d) == PhaseOf(w, s.d) && s.d !in v.files;
      assert !PhaseSound(limit, v, s.d);
    } else {
      var phase := PhaseOf(v, s.c);
      assert s.d in LiveUpTo(v, phase.ticket) && s.d in phase.count.visited && !Remembered(v, phase.count, s.d);
      assert !PhaseSound(limit, v, s.c);
    }
  }

  /** Every step of any claim keeps the state sound exactly unless it is one of the two races. */
  lemma StepKeepsSound(limit: nat, w: World, s: Step)
    requires Sound(limit, w) && Enabled(w, s)
    ensures Sound(limit, Next(limit, w, s)) <==> Intact(w, s)
  {
    if Intact(w, s) {
      StepStaysSound(limit, w, s);
    } else {
      RaceIsUnsound(limit, w, s);
    }
  }

  /** In a sound state the youngest of the live claimants told `claimed` counted all the others. */
  lemma ToldWithinLimit(limit: nat, w: World)
    requires Sound(limit, w)
    ensures |LiveTold(w)| <= limit
  {
    if LiveTold(w) != {} {
      forall c | c in LiveTold(w) ensures c in w.files && PhaseSound(limit, w, c) {
        assert PhaseSound(limit, w, c);
      }
      var c := Youngest(w, LiveTold(w));
      assert PhaseSound(limit, w, c);
      forall d | d in LiveTold(w) ensures d in LiveUpTo(w, w.files[c].ticket) {
        assert PhaseSound(limit, w, d);
      }
      SubsetSize(LiveTold(w), LiveUpTo(w, w.files[c].ticket));
    }
  }

  ghost predicate IsYoungest(w: World, told: set<Claimant>, c: Claimant)
    requires forall d :: d in told ==> d in w.files
  {
    c in told && forall d :: d in told ==> w.files[d].ticket <= w.files[c].ticket
  }

  lemma {:induction false} Youngest(w: World, told: set<Claimant>) returns (c: Claimant)
    requires told != {} && forall d :: d in told ==> d in w.files
    ensures IsYoungest(w, told, c)
  {
    var first :| first in told;
    c := first;
    if told - {first} != {} {
      var rest := Youngest(w, told - {first});
      c := if w.files[rest].ticket > w.files[first].ticket then rest else first;
      assert forall d :: d in told ==> d == first || d in told - {first};
    } else {
      assert told == {first};
    }
  }

  // ---------- runs ----------

  /** No call is under way and no live process is behind a file; dead files may lie about. */
  ghost predicate Start(w: World) {
    && w.phases == map[] && w.alive !! w.gone
    && forall c :: c in w.files ==> w.files[c].ticket < w.clock && w.files[c].pid in w.gone
  }

  /** The steps lead from w to v. */
  ghost predicate Path(limit: nat, w: World, steps: seq<Step>, v: World)
    decreases |steps|
  {
    if steps == [] then w == v else Enabled(w, steps[0]) && Path(limit, Next(limit, w, steps[0]), steps[1..], v)
  }

  ghost predicate AllIntact(limit: nat, w: World, steps: seq<Step>)
    decreases |steps|
  {
    steps == [] || (Enabled(w, steps[0]) && Intact(w, steps[0]) && AllIntact(limit, Next(limit, w, steps[0]), steps[1..]))
  }

  ghost predicate AllSound(limit: nat, w: World, steps: seq<Step>)
    decreases |steps|
  {
    Sound(limit, w) && (steps == [] || (Enabled(w, steps[0]) && AllSound(limit, Next(limit, w, steps[0]), steps[1..])))
  }

  /** The states of a run are all sound exactly when none of its steps is one of the races. */
  lemma {:induction false} SoundWithoutRaces(limit: nat, w: World, steps: seq<Step>, v: World)
    requires Sound(limit, w) && Path(limit, w, steps, v)
    ensures AllSound(limit, w, steps) <==> AllIntact(limit, w, steps)
    decreases |steps|
  {
    if steps != [] {
      StepKeepsSound(limit, w, steps[0]);
      if Intact(w, steps[0]) {
        SoundWithoutRaces(limit, Next(limit, w, steps[0]), steps[1..], v);
      }
    }
  }

  lemma {:induction false} PathKeepsSound(limit: nat, w: World, steps: seq<Step>, v: World)
    requires Sound(limit, w) && Path(limit, w, steps, v) && AllIntact(limit, w, steps)
    ensures Sound(limit, v)
    decreases |steps|
  {
    if steps != [] {
      StepKeepsSound(limit, w, steps[0]);
      PathKeepsSound(limit, Next(limit, w, steps[0]), steps[1..], v);
    }
  }

  /** However the steps of the claims interleave, at no moment do more live claimants hold a session than the
      limit. Every prefix of a run is a run, so this speaks of every moment. */
  lemma NeverOverTheLimit(limit: nat, w: World, steps: seq<Step>, v: World)
    requires Start(w) && Path(limit, w, steps, v) && AllIntact(limit, w, steps)
    ensures |LiveTold(v)| <= limit
  {
    PathKeepsSound(limit, w, steps, v);
    ToldWithinLimit(limit, v);
  }

  // ---------- a call that nobody interrupts ----------

  ghost function LiveClaims(w: World): set<Claimant> {
    set d | d in w.files && w.files[d].pid in w.alive
  }

  lemma {:induction false} PathJoins(limit: nat, w: World, a: seq<Step>, u: World, b: seq<Step>, v: World)
    requires Path(limit, w, a, u) && Path(limit, u, b, v)
    ensures Path(limit, w, a + b, v)
    decreases |a|
  {
    if a == [] {
      assert a + b == b;
    } else {
      PathJoins(limit, Next(limit, w, a[0]), a[1..], u, b, v);
      assert (a + b)[0] == a[0] && (a + b)[1..] == a[1..] + b;
    }
  }

  lemma PathOfOne(limit: nat, w: World, s: Step)
    requires Enabled(w, s)
    ensures Path(limit, w, [s], Next(limit, w, s))
  {
    assert [s][1..] == [];
  }

  lemma OneBefore(limit: nat, w: World, s: Step, b: seq<Step>, v: World)
    requires Enabled(w, s) && Path(limit, Next(limit, w, s), b, v)
    ensures Path(limit, w, [s] + b, v)
  {
    assert ([s] + b)[1..] == b;
  }

  lemma OneMore(limit: nat, w: World, a: seq<Step>, u: World, s: Step)
    requires Path(limit, w, a, u) && Enabled(u, s)
    ensures Path(limit, w, a + [s], Next(limit, u, s))
  {
    PathOfOne(limit, u, s);
    PathJoins(limit, w, a, u, [s], Next(limit, u, s));
  }

  /** The count of c as far as it has come when nobody interrupts it: the names in visited are read, those in
      probed are probed. */
  ghost function Uninterrupted(w: World, visited: set<Claimant>, probed: set<Claimant>): Count {
    Count(w.files.Keys, visited, map d | d in visited && d in w.files && d !in probed :: w.files[d], LiveClaims(w) * probed)
  }

  ghost predicate CountsAlone(w: World, c: Claimant, visited: set<Claimant>, probed: set<Claimant>) {
    Counting(PhaseOf(w, c)) && PhaseOf(w, c).count == Uninterrupted(w, visited, probed) && probed <= visited <= w.files.Keys
  }

  ghost function WithCount(w: World, c: Claimant, visited: set<Claimant>, probed: set<Claimant>): World
    requires Counting(PhaseOf(w, c))
  {
    InPhase(w, c, w.phases[c].(count := Uninterrupted(w, visited, probed)))
  }

  lemma VisitsAlone(limit: nat, w: World, c: Claimant, visited: set<Claimant>, d: Claimant)
    requires CountsAlone(w, c, visited, {}) && d in w.files.Keys - visited
    ensures Enabled(w, Visit(c, d)) && Next(limit, w, Visit(c, d)) == WithCount(w, c, visited + {d}, {})
  {
    assert Visited(w, w.phases[c].count, d).read == Uninterrupted(w, visited + {d}, {}).read;
    assert Visited(w, w.phases[c].count, d) == Uninterrupted(w, visited + {d}, {});
  }

  lemma ProbesAlone(limit: nat, w: World, c: Claimant, probed: set<Claimant>, d: Claimant)
    requires CountsAlone(w, c, w.files.Keys, probed) && d in w.files.Keys - probed
    ensures Enabled(w, Probe(c, d)) && Next(limit, w, Probe(c, d)) == WithCount(w, c, w.files.Keys, probed + {d})
  {
    assert Probed(w, w.phases[c].count, d).read == Uninterrupted(w, w.files.Keys, probed + {d}).read;
    assert Probed(w, w.phases[c].count, d).seen == Uninterrupted(w, w.files.Keys, probed + {d}).seen;
    assert Probed(w, w.phases[c].count, d) == Uninterrupted(w, w.files.Keys, probed + {d});
  }

  lemma WithCountTwice(w: World, c: Claimant, visited: set<Claimant>, probed: set<Claimant>, more: set<Claimant>, further: set<Claimant>)
    requires Counting(PhaseOf(w, c)) && probed <= visited <= w.files.Keys
    ensures CountsAlone(WithCount(w, c, visited, probed), c, visited, probed)
    ensures WithCount(WithCount(w, c, visited, probed), c, more, further) == WithCount(w, c, more, further)
  {
    var v := WithCount(w, c, visited, probed);
    assert Uninterrupted(v, visited, probed) == Uninterrupted(w, visited, probed);
    assert Uninterrupted(v, more, further) == Uninterrupted(w, more, further);
    assert WithCount(v, c, more, further).phases == WithCount(w, c, more, further).phases;
  }

  lemma WithItsCount(w: World, c: Claimant, visited: set<Claimant>, probed: set<Claimant>)
    requires CountsAlone(w, c, visited, probed)
    ensures WithCount(w, c, visited, probed) == w
  {
    assert w.phases[c := w.phases[c]] == w.phases;
  }

  lemma {:induction false} ReadsAll(limit: nat, w: World, c: Claimant, visited: set<Claimant>) returns (steps: seq<Step>)
    requires CountsAlone(w, c, visited, {})
    ensures Path(limit, w, steps, WithCount(w, c, w.files.Keys, {}))
    decreases |w.files.Keys - visited|
  {
    if d :| d in w.files && d !in visited {
      VisitsAlone(limit, w, c, visited, d);
      WithCountTwice(w, c, visited + {d}, {}, w.files.Keys, {});
      SmallerSet(w.files.Keys - (visited + {d}), w.files.Keys - visited);
      var rest := ReadsAll(limit, WithCount(w, c, visited + {d}, {}), c, visited + {d});
      OneBefore(limit, w, Visit(c, d), rest, WithCount(w, c, w.files.Keys, {}));
      steps := [Visit(c, d)] + rest;
    } else {
      steps := [];
      assert visited == w.files.Keys;
      WithItsCount(w, c, visited, {});
    }
  }

  lemma SmallerSet(a: set<Claimant>, b: set<Claimant>)
    requires a < b
    ensures |a| < |b|
  {
    var x :| x in b && x !in a;
    SubsetSize(a, b - {x});
  }

  lemma {:induction false} ProbesAll(limit: nat, w: World, c: Claimant, probed: set<Claimant>) returns (steps: seq<Step>)
    requires CountsAlone(w, c, w.files.Keys, probed)
    ensures Path(limit, w, steps, WithCount(w, c, w.files.Keys, w.files.Keys))
    decreases |w.files.Keys - probed|
  {
    if d :| d in w.files && d !in probed {
      ProbesAlone(limit, w, c, probed, d);
      WithCountTwice(w, c, w.files.Keys, probed + {d}, w.files.Keys, w.files.Keys);
      SmallerSet(w.files.Keys - (probed + {d}), w.files.Keys - probed);
      var rest := ProbesAll(limit, WithCount(w, c, w.files.Keys, probed + {d}), c, probed + {d});
      OneBefore(limit, w, Probe(c, d), rest, WithCount(w, c, w.files.Keys, w.files.Keys));
      steps := [Probe(c, d)] + rest;
    } else {
      steps := [];
      assert probed == w.files.Keys;
      WithItsCount(w, c, w.files.Keys, probed);
    }
  }

  /** A count nobody interrupts sees exactly the live claims. */
  lemma CountsTheLive(limit: nat, w: World, c: Claimant) returns (steps: seq<Step>)
    requires Counting(PhaseOf(w, c)) && PhaseOf(w, c).count == Fresh(w)
    ensures Path(limit, w, steps, HavingCounted(w, c))
  {
    assert Fresh(w) == Uninterrupted(w, {}, {});
    var reading := ReadsAll(limit, w, c, {});
    var v := WithCount(w, c, w.files.Keys, {});
    WithCountTwice(w, c, w.files.Keys, {}, w.files.Keys, w.files.Keys);
    var probing := ProbesAll(limit, v, c, {});
    assert Uninterrupted(w, w.files.Keys, w.files.Keys) == Count(w.files.Keys, w.files.Keys, map[], LiveClaims(w));
    steps := reading + probing;
    PathJoins(limit, w, reading, v, probing, HavingCounted(w, c));
  }

  ghost function HavingCounted(w: World, c: Claimant): World
    requires Counting(PhaseOf(w, c))
  {
    InPhase(w, c, w.phases[c].(count := Count(w.files.Keys, w.files.Keys, map[], LiveClaims(w))))
  }

  /** Counting without interruption and deciding on it. */
  lemma CountsAndDecides(limit: nat, w: World, c: Claimant) returns (steps: seq<Step>)
    requires Counting(PhaseOf(w, c)) && PhaseOf(w, c).count == Fresh(w)
    ensures Path(limit, w, steps, InPhase(w, c, Decided(limit, HavingCounted(w, c).phases[c])))
  {
    var counting := CountsTheLive(limit, w, c);
    var v := HavingCounted(w, c);
    OneMore(limit, w, counting, v, Decide(c));
    assert Next(limit, v, Decide(c)).phases == InPhase(w, c, Decided(limit, v.phases[c])).phases;
    steps := counting + [Decide(c)];
  }

  /** What a call leaves that has swept and is interrupted no more: with room for one more live claim it has written
      its file and is told `claimed`, else it is refused and has written nothing. */
  ghost function Settled(limit: nat, w: World, c: Claimant, p: Pid): World {
    if |LiveClaims(w)| >= limit then InPhase(w, c, Out)
    else InPhase(w.(files := w.files[c := Record(p, w.clock)], clock := w.clock + 1), c, Told(p))
  }

  lemma OneMoreLive(w: World, c: Claimant, p: Pid)
    requires !Live(w, c) && p in w.alive
    ensures |LiveClaims(w.(files := w.files[c := Record(p, w.clock)]))| == |LiveClaims(w)| + 1
  {
    assert LiveClaims(w.(files := w.files[c := Record(p, w.clock)])) == LiveClaims(w) + {c};
  }

  lemma SweptCallSettles(limit: nat, w: World, c: Claimant, p: Pid) returns (steps: seq<Step>)
    requires PhaseOf(w, c).Sweeping? && PhaseOf(w, c).pid == p && p in w.alive && !Live(w, c)
    ensures Path(limit, w, steps, Settled(limit, w, c, p))
  {
    var listed := Next(limit, w, EndSweep(c));
    var counting := CountsAndDecides(limit, listed, c);
    assert LiveClaims(listed) == LiveClaims(w);
    if |LiveClaims(w)| >= limit {
      assert InPhase(listed, c, Out).phases == InPhase(w, c, Out).phases;
      steps := [EndSweep(c)] + counting;
    } else {
      var ready := InPhase(w, c, Ready(p));
      assert InPhase(listed, c, Ready(p)).phases == ready.phases;
      assert LiveClaims(ready) == LiveClaims(w);
      var more := ReadyCallSettles(limit, ready, c, p);
      assert Settled(limit, ready, c, p).phases == Settled(limit, w, c, p).phases;
      PathJoins(limit, listed, counting, ready, more, Settled(limit, w, c, p));
      steps := [EndSweep(c)] + (counting + more);
    }
    OneBefore(limit, w, EndSweep(c), steps[1..], Settled(limit, w, c, p));
  }

  lemma ReadyCallSettles(limit: nat, w: World, c: Claimant, p: Pid) returns (steps: seq<Step>)
    requires PhaseOf(w, c) == Ready(p) && p in w.alive && !Live(w, c) && |LiveClaims(w)| < limit
    ensures Path(limit, w, steps, Settled(limit, w, c, p))
  {
    var written := Next(limit, w, Write(c));
    var counting := CountsAndDecides(limit, written, c);
    OneMoreLive(w, c, p);
    assert LiveClaims(written) == LiveClaims(w.(files := w.files[c := Record(p, w.clock)]));
    assert InPhase(written, c, Told(p)).phases == Settled(limit, w, c, p).phases;
    OneBefore(limit, w, Write(c), counting, Settled(limit, w, c, p));
    steps := [Write(c)] + counting;
  }

  /** The files a sweep nobody interrupts leaves. */
  ghost function Swept(w: World): World {
    w.(files := map d | d in w.files && w.files[d].pid in w.alive :: w.files[d])
  }

  /** Reading a dead file and removing it at once. */
  lemma SweepsOne(limit: nat, w: World, c: Claimant, d: Claimant) returns (v: World)
    requires PhaseOf(w, c).Sweeping? && PhaseOf(w, c).found == map[] && d in w.files && w.files[d].pid !in w.alive
    ensures v == w.(files := w.files - {d}) && Path(limit, w, [SweepRead(c, d), SweepRemove(c, d)], v)
  {
    var read := Next(limit, w, SweepRead(c, d));
    v := Next(limit, read, SweepRemove(c, d));
    assert v.phases == w.phases by {
      assert v.phases[c] == w.phases[c];
    }
    PathOfOne(limit, read, SweepRemove(c, d));
    OneBefore(limit, w, SweepRead(c, d), [SweepRemove(c, d)], v);
    assert [SweepRead(c, d)] + [SweepRemove(c, d)] == [SweepRead(c, d), SweepRemove(c, d)];
  }

  lemma {:induction false} SweepsTheDead(limit: nat, w: World, c: Claimant) returns (steps: seq<Step>)
    requires PhaseOf(w, c).Sweeping? && PhaseOf(w, c).found == map[]
    ensures Path(limit, w, steps, Swept(w))
    decreases |w.files.Keys|
  {
    if d :| d in w.files && w.files[d].pid !in w.alive {
      var v := SweepsOne(limit, w, c, d);
      SmallerSet(v.files.Keys, w.files.Keys);
      var rest := SweepsTheDead(limit, v, c);
      assert Swept(v).files == Swept(w).files;
      steps := [SweepRead(c, d), SweepRemove(c, d)] + rest;
      PathJoins(limit, w, [SweepRead(c, d), SweepRemove(c, d)], v, rest, Swept(w));
    } else {
      steps := [];
      assert Swept(w).files == w.files;
    }
  }

  lemma CallSettles(limit: nat, w: World, c: Claimant, p: Pid) returns (steps: seq<Step>)
    requires Resting(PhaseOf(w, c)) && !Live(w, c) && p in w.alive
    ensures Path(limit, w, steps, Settled(limit, Swept(InPhase(w, c, Sweeping(p, map[]))), c, p))
  {
    var begun := Next(limit, w, Begin(c, p));
    var sweeping := SweepsTheDead(limit, begun, c);
    var rest := SweptCallSettles(limit, Swept(begun), c, p);
    PathJoins(limit, begun, sweeping, Swept(begun), rest, Settled(limit, Swept(begun), c, p));
    steps := [Begin(c, p)] + (sweeping + rest);
    OneBefore(limit, w, Begin(c, p), sweeping + rest, Settled(limit, Swept(begun), c, p));
  }

  /** What an uninterrupted call of a claimant that holds nothing leaves. */
  ghost predicate Called(limit: nat, w: World, c: Claimant, p: Pid, v: World) {
    && PhaseOf(v, c) == (if |LiveClaims(w)| < limit then Told(p) else Out)
    && v.files.Keys == (if |LiveClaims(w)| < limit then LiveClaims(w) + {c} else LiveClaims(w))
    && (forall d :: d in LiveClaims(w) ==> v.files[d] == w.files[d])
    && (|LiveClaims(w)| < limit ==> v.files[c] == Record(p, w.clock))
    && (forall d :: d != c ==> PhaseOf(v, d) == PhaseOf(w, d))
    && v.alive == w.alive && v.gone == w.gone
  }

  lemma SettledIsCalled(limit: nat, u: World, c: Claimant, p: Pid)
    requires c !in u.files && u.files.Keys == LiveClaims(u)
    ensures Called(limit, u, c, p, Settled(limit, u, c, p))
  {
    var v := Settled(limit, u, c, p);
    if |LiveClaims(u)| >= limit {
      assert v.files == u.files && PhaseOf(v, c) == Out;
    } else {
      assert PhaseOf(v, c) == Told(p) && v.files == u.files[c := Record(p, u.clock)];
    }
  }

  lemma SweptKeepsTheLive(w: World, c: Claimant, p: Pid)
    requires !Live(w, c)
    ensures var u := Swept(InPhase(w, c, Sweeping(p, map[]))); c !in u.files && u.files.Keys == LiveClaims(u) == LiveClaims(w)
    ensures var u := Swept(InPhase(w, c, Sweeping(p, map[]))); forall d :: d in LiveClaims(w) ==> u.files[d] == w.files[d]
    ensures var u := Swept(InPhase(w, c, Sweeping(p, map[]))); forall d :: d != c ==> PhaseOf(u, d) == PhaseOf(w, d)
  {
  }

  lemma CalledBeforeTheSweep(limit: nat, w: World, u: World, c: Claimant, p: Pid, v: World)
    requires Called(limit, u, c, p, v) && LiveClaims(u) == LiveClaims(w) && u.clock == w.clock && u.alive == w.alive && u.gone == w.gone
    requires u.files.Keys == LiveClaims(w) && forall d :: d in LiveClaims(w) ==> u.files[d] == w.files[d]
    requires forall d :: d != c ==> PhaseOf(u, d) == PhaseOf(w, d)
    ensures Called(limit, w, c, p, v)
  {
    forall d | d in LiveClaims(w) ensures v.files[d] == w.files[d] {
      assert d in LiveClaims(u);
    }
  }

  /** A call of a claimant that holds nothing, interrupted by nobody: it is told `claimed` exactly when fewer live
      claims than the limit stand, and leaves the live files, its own among them when it was told so. */
  lemma UninterruptedCall(limit: nat, w: World, c: Claimant, p: Pid) returns (steps: seq<Step>, v: World)
    requires Resting(PhaseOf(w, c)) && !Live(w, c) && p in w.alive
    ensures Path(limit, w, steps, v) && Called(limit, w, c, p, v)
  {
    steps := CallSettles(limit, w, c, p);
    var swept := Swept(InPhase(w, c, Sweeping(p, map[])));
    v := Settled(limit, swept, c, p);
    SweptKeepsTheLive(w, c, p);
    SettledIsCalled(limit, swept, c, p);
    CalledBeforeTheSweep(limit, w, swept, c, p, v);
  }

  // ---------- how a slot is handed on and comes free ----------

  /** Nothing of any other claimant has changed. */
  ghost predicate OthersStay(w: World, v: World, c: Claimant) {
    && (forall d :: d != c ==> (d in v.files <==> d in w.files) && (d in w.files ==> v.files[d] == w.files[d]))
    && (forall d :: d != c ==> PhaseOf(v, d) == PhaseOf(w, d))
  }

  /** A release leaves no file of the claimant, and the live claims of all the others. */
  lemma ReleaseFrees(limit: nat, w: World, c: Claimant)
    requires Enabled(w, Release(c))
    ensures
      var v := Next(limit, w, Release(c));
      && c !in v.files && PhaseOf(v, c) == Out && LiveClaims(v) == LiveClaims(w) - {c}
      && OthersStay(w, v, c) && v.alive == w.alive && v.gone == w.gone
  {
  }

  /** So does giving up after a recount. */
  lemma YieldFrees(limit: nat, w: World, c: Claimant)
    requires Enabled(w, Yield(c))
    ensures
      var v := Next(limit, w, Yield(c));
      && c !in v.files && PhaseOf(v, c) == Out && LiveClaims(v) == LiveClaims(w) - {c}
      && OthersStay(w, v, c) && v.alive == w.alive && v.gone == w.gone
  {
  }

  /** A session handed over to a live process is a live claim, and as old as the claim was. */
  lemma StartedHandsOver(limit: nat, w: World, c: Claimant, p: Pid)
    requires Enabled(w, Started(c, p))
    ensures
      var v := Next(limit, w, Started(c, p));
      && c in v.files && v.files[c].pid == p && PhaseOf(v, c) == Told(p) && LiveClaims(v) == LiveClaims(w) + {c}
      && (c in w.files ==> v.files[c].ticket == w.files[c].ticket)
      && OthersStay(w, v, c) && v.alive == w.alive && v.gone == w.gone
  {
  }

  /** A claimant whose live claim stands is told `claimed` for it, and nothing else happens. */
  lemma AgainIsTold(limit: nat, w: World, c: Claimant)
    requires Enabled(w, Again(c))
    ensures
      var v := Next(limit, w, Again(c));
      && c in w.files && w.files[c].pid in w.alive && PhaseOf(v, c) == Told(w.files[c].pid)
      && v.files == w.files && LiveClaims(v) == LiveClaims(w) && OthersStay(w, v, c) && v.alive == w.alive && v.gone == w.gone
  {
  }

  /** A call that dies with its process leaves the files as they are. */
  lemma CrashLeavesTheFiles(limit: nat, w: World, c: Claimant)
    requires Enabled(w, Crash(c))
    ensures
      var v := Next(limit, w, Crash(c));
      && PhaseOf(v, c) == Out && v.files == w.files && LiveClaims(v) == LiveClaims(w)
      && OthersStay(w, v, c) && v.alive == w.alive && v.gone == w.gone
  {
  }

  /** The claims of a process end with it. */
  lemma DeathEndsItsClaims(limit: nat, w: World, p: Pid)
    requires Enabled(w, Die(p)) && w.alive !! w.gone
    ensures
      var v := Next(limit, w, Die(p));
      && v.files == w.files && v.phases == w.phases && p !in v.alive && p in v.gone
      && LiveClaims(v) == set d | d in LiveClaims(w) && w.files[d].pid != p
      && v.alive + v.gone == w.alive + w.gone
  {
  }

  /** While one slot is left it goes to the first that calls; the second is refused, and told `claimed` once the first
      has released it. */
  lemma ReleasedSlotIsClaimed(limit: nat, w: World, a: Claimant, b: Claimant, p: Pid, q: Pid)
    returns (steps: seq<Step>, held: World, refused: World, freed: World, v: World)
    requires a != b && |LiveClaims(w)| + 1 == limit && p in w.alive && q in w.alive
    requires Resting(PhaseOf(w, a)) && !Live(w, a) && Resting(PhaseOf(w, b)) && !Live(w, b)
    ensures Path(limit, w, steps, v)
    ensures PhaseOf(held, a) == Told(p) && PhaseOf(refused, b) == Out
    ensures Enabled(refused, Release(a)) && freed == Next(limit, refused, Release(a)) && a !in freed.files
    ensures LiveClaims(held) == LiveClaims(refused) == LiveClaims(w) + {a} && LiveClaims(freed) == LiveClaims(w)
    ensures PhaseOf(v, b) == Told(q) && LiveClaims(v) == LiveClaims(w) + {b}
  {
    var first, second, third;
    first, held := UninterruptedCall(limit, w, a, p);
    CalledLive(limit, w, a, p, held);
    second, refused := UninterruptedCall(limit, held, b, q);
    CalledLive(limit, held, b, q, refused);
    assert |LiveClaims(held)| == limit;
    PathJoins(limit, w, first, held, second, refused);
    freed := Next(limit, refused, Release(a));
    ReleaseFrees(limit, refused, a);
    OneMore(limit, w, first + second, refused, Release(a));
    third, v := UninterruptedCall(limit, freed, b, q);
    CalledLive(limit, freed, b, q, v);
    PathJoins(limit, w, first + second + [Release(a)], freed, third, v);
    steps := first + second + [Release(a)] + third;
  }

  lemma CalledLive(limit: nat, w: World, c: Claimant, p: Pid, v: World)
    requires Called(limit, w, c, p, v) && p in w.alive
    ensures LiveClaims(v) == if |LiveClaims(w)| < limit then LiveClaims(w) + {c} else LiveClaims(w)
    ensures forall d :: d != c ==> (Live(v, d) <==> Live(w, d))
  {
    forall d ensures Live(v, d) <==> (Live(w, d) || (d == c && |LiveClaims(w)| < limit)) {
      assert Live(w, d) <==> d in LiveClaims(w);
    }
  }

  // ---------- the two races ----------

  /** Three processes and nothing claimed. */
  const QUIET := World(map[], {1, 2, 3}, {}, map[], 0)
  const A: Claimant := 0
  const B: Claimant := 1

  lemma BothTold(w: World, p: Pid, q: Pid)
    requires PhaseOf(w, A) == Told(p) && PhaseOf(w, B) == Told(q) && p in w.alive && q in w.alive
    ensures |LiveTold(w)| > 1
  {
    SubsetSize({A, B}, LiveTold(w));
  }

  /** A is told `claimed` for process 1, which dies; B begins to sweep and reads the dead file. */
  lemma DeadFileRead() returns (steps: seq<Step>, v: World)
    ensures Path(1, QUIET, steps, v) && v.alive == {2, 3} && LiveClaims(v) == {} && PhaseOf(v, A) == Told(1)
    ensures A in v.files && PhaseOf(v, B) == Sweeping(2, map[A := v.files[A]]) && v.files.Keys == {A} && v.files[A].pid == 1
  {
    var held;
    steps, held := UninterruptedCall(1, QUIET, A, 1);
    assert LiveClaims(QUIET) == {};
    OneMore(1, QUIET, steps, held, Die(1));
    v, steps := Next(1, held, Die(1)), steps + [Die(1)];
    assert PhaseOf(held, B) == PhaseOf(QUIET, B) == Out;
    assert PhaseOf(v, B) == Out;
    OneMore(1, QUIET, steps, v, Begin(B, 2));
    v, steps := Next(1, v, Begin(B, 2)), steps + [Begin(B, 2)];
    OneMore(1, QUIET, steps, v, SweepRead(B, A));
    v, steps := Next(1, v, SweepRead(B, A)), steps + [SweepRead(B, A)];
  }

  /** A sweep that reads a dead claim, and removes the file after its claimant has claimed anew, leaves two sessions
      under a limit of one. */
  lemma SweepRace() returns (steps: seq<Step>, v: World)
    ensures Start(QUIET) && Path(1, QUIET, steps, v) && |LiveTold(v)| > 1
  {
    var read;
    steps, read := DeadFileRead();
    var more, again := UninterruptedCall(1, read, A, 3);
    PathJoins(1, QUIET, steps, read, more, again);
    OneMore(1, QUIET, steps + more, again, SweepRemove(B, A));
    var removed := Next(1, again, SweepRemove(B, A));
    assert LiveClaims(removed) == {};
    var last := SweptCallSettles(1, removed, B, 2);
    v := Settled(1, removed, B, 2);
    PathJoins(1, QUIET, steps + more + [SweepRemove(B, A)], removed, last, v);
    steps := steps + more + [SweepRemove(B, A)] + last;
    BothTold(v, 3, 2);
  }

  lemma Then(steps: seq<Step>, v: World, s: Step) returns (u: World, more: seq<Step>)
    requires Path(1, QUIET, steps, v) && Enabled(v, s)
    ensures u == Next(1, v, s) && Path(1, QUIET, more, u)
  {
    OneMore(1, QUIET, steps, v, s);
    u, more := Next(1, v, s), steps + [s];
  }

  /** B has counted nothing and is about to write. */
  lemma BReady() returns (v: World, steps: seq<Step>)
    ensures Path(1, QUIET, steps, v) && v.alive == {1, 2, 3} && v.files == map[] && v.phases == map[B := Ready(2)]
  {
    assert Path(1, QUIET, [], QUIET);
    v, steps := Then([], QUIET, Begin(B, 2));
    v, steps := Then(steps, v, EndSweep(B));
    v, steps := Then(steps, v, Decide(B));
  }

  ghost predicate BReads(v: World, first: Pid, alive: set<Pid>, told: Pid) {
    && v.alive == alive && v.files.Keys == {A, B} && v.files[A].pid == told && v.files[B].pid == 2
    && PhaseOf(v, A) == Told(told) && PhaseOf(v, B).After? && PhaseOf(v, B).pid == 2
    && var count := PhaseOf(v, B).count;
    && count.listed == count.visited == {A, B} && count.seen == {}
    && count.read.Keys == {A, B} && count.read[A].pid == first && count.read[B].pid == 2
  }

  /** A is told `claimed` for process 1 before B writes. */
  lemma AHolds() returns (v: World, steps: seq<Step>)
    ensures Path(1, QUIET, steps, v) && v.alive == {1, 2, 3} && v.files.Keys == {A} && v.files[A].pid == 1
    ensures PhaseOf(v, A) == Told(1) && PhaseOf(v, B) == Ready(2)
  {
    var ready, first := BReady();
    assert LiveClaims(ready) == {};
    var more, held := UninterruptedCall(1, ready, A, 1);
    assert PhaseOf(held, B) == PhaseOf(ready, B);
    PathJoins(1, QUIET, first, ready, more, held);
    v, steps := held, first + more;
  }

  /** B writes, lists and reads both files. */
  lemma BothRead() returns (v: World, steps: seq<Step>)
    ensures Path(1, QUIET, steps, v) && BReads(v, 1, {1, 2, 3}, 1)
  {
    v, steps := AHolds();
    v, steps := Then(steps, v, Write(B));
    v, steps := Then(steps, v, Visit(B, A));
    v, steps := Then(steps, v, Visit(B, B));
  }

  /** The session of A is handed over to process 3, and process 1 dies. */
  lemma HandedOver() returns (v: World, steps: seq<Step>)
    ensures Path(1, QUIET, steps, v) && BReads(v, 1, {2, 3}, 3)
  {
    v, steps := BothRead();
    v, steps := Then(steps, v, Started(A, 3));
    v, steps := Then(steps, v, Die(1));
  }

  /** A count that reads a claim, and probes the process it read after the session was handed over to another
      process and the first one died, misses a live claim: two sessions under a limit of one. */
  lemma HandoverRace() returns (v: World, steps: seq<Step>)
    ensures Start(QUIET) && Path(1, QUIET, steps, v) && |LiveTold(v)| > 1
  {
    v, steps := HandedOver();
    v, steps := Then(steps, v, Probe(B, A));
    v, steps := Then(steps, v, Probe(B, B));
    assert PhaseOf(v, B).count.seen == {B} && PhaseOf(v, B).count.read == map[];
    v, steps := Then(steps, v, Decide(B));
    BothTold(v, 3, 2);
  }
}
