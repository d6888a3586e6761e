/** Which tests a change runs: the import graph turned round, the files that depend on a set of files, and the
    selection built on them. scripts/ci/layers.ts. */
module Layers {

  /** One file of the graph with the files it imports, in the order of the map that holds them. */
  datatype Entry = Entry(file: string, imports: seq<string>)

  type Graph = seq<Entry>

  type Reverse = map<string, seq<string>>

  // ---------- paths ----------

  ghost predicate Imports(graph: Graph, from: string, target: string) {
    exists i :: 0 <= i < |graph| && graph[i].file == from && target in graph[i].imports
  }

  /** Each file of the path imports the next, and the last one is a seed. */
  ghost predicate IsPath(graph: Graph, path: seq<string>, seeds: set<string>) {
    && |path| > 0 && path[|path| - 1] in seeds
    && forall i :: 0 <= i < |path| - 1 ==> Imports(graph, path[i], path[i + 1])
  }

  ghost predicate DependsOn(graph: Graph, file: string, seeds: set<string>) {
    exists path: seq<string> :: IsPath(graph, path, seeds) && path[0] == file
  }

  function Files(graph: Graph): set<string> {
    set i | 0 <= i < |graph| :: graph[i].file
  }

  /** The seeds and every file with an import path to one. */
  ghost function Reach(graph: Graph, seeds: set<string>): set<string> {
    set file | file in Files(graph) + seeds && DependsOn(graph, file, seeds)
  }

  lemma SeedsDepend(graph: Graph, seeds: set<string>)
    ensures seeds <= Reach(graph, seeds)
  {
    forall file | file in seeds ensures DependsOn(graph, file, seeds) {
      assert IsPath(graph, [file], seeds);
    }
  }

  lemma ReachIsDepends(graph: Graph, seeds: set<string>, file: string)
    ensures file in Reach(graph, seeds) <==> DependsOn(graph, file, seeds)
  {
    if DependsOn(graph, file, seeds) {
      var path: seq<string> :| IsPath(graph, path, seeds) && path[0] == file;
      assert |path| > 1 ==> Imports(graph, path[0], path[1]);
    }
  }

  lemma ImporterDepends(graph: Graph, from: string, file: string, seeds: set<string>)
    requires Imports(graph, from, file) && DependsOn(graph, file, seeds)
    ensures DependsOn(graph, from, seeds)
  {
    var path: seq<string> :| IsPath(graph, path, seeds) && path[0] == file;
    assert IsPath(graph, [from] + path, seeds);
  }

  ghost predicate ClosedUnderImporters(graph: Graph, files: set<string>) {
    forall from, file :: file in files && Imports(graph, from, file) ==> from in files
  }

  lemma {:induction false} ClosedHoldsPaths(graph: Graph, files: set<string>, path: seq<string>, seeds: set<string>)
    requires ClosedUnderImporters(graph, files) && seeds <= files && IsPath(graph, path, seeds)
    ensures path[0] in files
    decreases |path|
  {
    if |path| > 1 {
      assert Imports(graph, path[0], path[1]);
      assert path[1..][|path| - 2] == path[|path| - 1];
      assert forall i :: 0 <= i < |path[1..]| - 1 ==> Imports(graph, path[1..][i], path[1..][i + 1]);
      ClosedHoldsPaths(graph, files, path[1..], seeds);
    }
  }

  /** A closed set around the seeds whose files all depend on them is exactly the files that do. */
  lemma ClosedIsReach(graph: Graph, files: set<string>, seeds: set<string>)
    requires ClosedUnderImporters(graph, files) && seeds <= files
    requires forall file :: file in files ==> DependsOn(graph, file, seeds)
    ensures files == Reach(graph, seeds)
  {
    forall file | file in Reach(graph, seeds) ensures file in files {
      var path: seq<string> :| IsPath(graph, path, seeds) && path[0] == file;
      ClosedHoldsPaths(graph, files, path, seeds);
    }
    forall file | file in files ensures file in Reach(graph, seeds) {
      ReachIsDepends(graph, seeds, file);
    }
  }

  lemma ReachGrows(graph: Graph, seeds: set<string>, more: set<string>)
    requires seeds <= more
    ensures Reach(graph, seeds) <= Reach(graph, more)
  {
    forall file | file in Reach(graph, seeds) ensures file in Reach(graph, more) {
      var path: seq<string> :| IsPath(graph, path, seeds) && path[0] == file;
      assert IsPath(graph, path, more);
      ReachIsDepends(graph, more, file);
    }
  }

  // ---------- the two loops ----------

  ghost predicate IsReverse(reverse: Reverse, graph: Graph) {
    forall from, target :: target in reverse && from in reverse[target] <==> Imports(graph, from, target)
  }

  ghost predicate IsReverseOfPart(reverse: Reverse, graph: Graph, i: nat, j: nat)
    requires i < |graph| && j <= |graph[i].imports|
  {
    forall from, target ::
      target in reverse && from in reverse[target] <==>
      Imports(graph[..i], from, target) || (from == graph[i].file && target in graph[i].imports[..j])
  }

  lemma OneMoreImport(reverse: Reverse, graph: Graph, i: nat, j: nat)
    requires i < |graph| && j < |graph[i].imports| && IsReverseOfPart(reverse, graph, i, j)
    ensures
      var target := graph[i].imports[j];
      var known := if target in reverse then reverse[target] else [];
      IsReverseOfPart(reverse[target := known + [graph[i].file]], graph, i, j + 1)
  {
    var added := graph[i].imports[j];
    var more := reverse[added := (if added in reverse then reverse[added] else []) + [graph[i].file]];
    assert graph[i].imports[..j + 1] == graph[i].imports[..j] + [added];
    forall from, target
      ensures target in more && from in more[target] <==>
              Imports(graph[..i], from, target) || (from == graph[i].file && target in graph[i].imports[..j + 1])
    {
      OneMoreMember(graph[i].imports[..j], added, target);
      OneMoreListed(reverse, added, graph[i].file, from, target);
      assert target in reverse && from in reverse[target] <==>
             Imports(graph[..i], from, target) || (from == graph[i].file && target in graph[i].imports[..j]);
    }
    assert IsReverseOfPart(more, graph, i, j + 1);
  }

  /** Listing one more importer of a file. */
  lemma OneMoreListed(reverse: Reverse, added: string, importer: string, from: string, target: string)
    ensures
      var more := reverse[added := (if added in reverse then reverse[added] else []) + [importer]];
      target in more && from in more[target] <==> (target in reverse && from in reverse[target]) || (target == added && from == importer)
  {
    OneMoreMember(if added in reverse then reverse[added] else [], importer, from);
  }

  lemma OneMoreMember(files: seq<string>, last: string, file: string)
    ensures file in files + [last] <==> file in files || file == last
  {
    assert (files + [last])[|files|] == last;
  }

  lemma OneMoreEntry(graph: Graph, i: nat, from: string, target: string)
    requires i < |graph|
    ensures Imports(graph[..i + 1], from, target) <==>
            Imports(graph[..i], from, target) || (from == graph[i].file && target in graph[i].imports)
  {
    if Imports(graph[..i], from, target) {
      var k :| 0 <= k < i && graph[..i][k].file == from && target in graph[..i][k].imports;
      assert graph[..i + 1][k] == graph[..i][k];
    }
    if from == graph[i].file && target in graph[i].imports {
      assert graph[..i + 1][i] == graph[i];
    }
    if Imports(graph[..i + 1], from, target) {
      var k :| 0 <= k < i + 1 && graph[..i + 1][k].file == from && target in graph[..i + 1][k].imports;
      assert k < i ==> graph[..i][k] == graph[..i + 1][k];
    }
  }

  /** reverseGraph: the importers of every imported file. */
  method ReverseGraph(graph: Graph) returns (reverse: Reverse)
    ensures IsReverse(reverse, graph)
  {
    reverse := map[];
    for i := 0 to |graph|
      invariant IsReverse(reverse, graph[..i])
    {
      for j := 0 to |graph[i].imports|
        invariant IsReverseOfPart(reverse, graph, i, j)
      {
        OneMoreImport(reverse, graph, i, j);
        var target := graph[i].imports[j];
        reverse := reverse[target := (if target in reverse then reverse[target] else []) + [graph[i].file]];
      }
      assert graph[i].imports[..|graph[i].imports|] == graph[i].imports;
      forall from, target ensures target in reverse && from in reverse[target] <==> Imports(graph[..i + 1], from, target) {
        OneMoreEntry(graph, i, from, target);
      }
    }
    assert graph[..|graph|] == graph;
  }

  function SetOf(files: seq<string>): set<string> {
    set i | 0 <= i < |files| :: files[i]
  }

  /** Every file seen whose importers are still to be looked at is in the queue. */
  ghost predicate QueueCovers(graph: Graph, seen: set<string>, queue: seq<string>) {
    forall from, file :: file in seen && file !in queue && Imports(graph, from, file) ==> from in seen
  }

  lemma {:induction false} SetSizes(a: set<string>, b: set<string>)
    requires a <= b
    ensures |a| <= |b| && (a != b ==> |a| < |b|)
  {
    if a != {} {
      var x :| x in a;
      SetSizes(a - {x}, b - {x});
    }
  }

  ghost function Unseen(graph: Graph, seen: set<string>): nat {
    |Files(graph) - seen|
  }

  lemma OneMoreSeen(graph: Graph, seen: set<string>, from: string, file: string)
    requires Imports(graph, from, file) && from !in seen
    ensures Unseen(graph, seen + {from}) < Unseen(graph, seen)
  {
    assert from in Files(graph) - seen;
    SetSizes(Files(graph) - (seen + {from}), Files(graph) - seen);
  }

  ghost predicate AllDepend(graph: Graph, files: set<string>, seeds: set<string>) {
    forall file :: file in files ==> DependsOn(graph, file, seeds)
  }

  /** While the first file of waiting is looked at: i of its importers are seen, and those new are in the queue. */
  ghost predicate Looking(graph: Graph, before: set<string>, waiting: seq<string>, seen: set<string>, queue: seq<string>, importers: seq<string>, i: nat) {
    && waiting != [] && i <= |importers| && seen == before + SetOf(importers[..i])
    && waiting[1..] <= queue
    && (forall each :: each in seen && each !in before ==> each in queue)
    && (seen == before ==> queue == waiting[1..])
    && (seen != before ==> Unseen(graph, seen) < Unseen(graph, before))
  }

  lemma LookedAt(graph: Graph, before: set<string>, waiting: seq<string>, seen: set<string>, queue: seq<string>, importers: seq<string>, i: nat, file: string)
    requires Looking(graph, before, waiting, seen, queue, importers, i) && i < |importers| && Imports(graph, importers[i], file)
    ensures
      var from := importers[i];
      if from in seen then Looking(graph, before, waiting, seen, queue, importers, i + 1)
      else Looking(graph, before, waiting, seen + {from}, queue + [from], importers, i + 1)
  {
    hide Unseen, Imports, SetOf;
    var from := importers[i];
    SetOfOneMore(importers, i);
    if from !in seen {
      OneMoreSeen(graph, seen, from, file);
      assert from !in before && from in seen + {from};
      forall each | each in seen + {from} && each !in before ensures each in queue + [from] {
        OneMoreMember(queue, from, each);
      }
    }
  }

  lemma SetOfOneMore(files: seq<string>, i: nat)
    requires i < |files|
    ensures SetOf(files[..i + 1]) == SetOf(files[..i]) + {files[i]}
  {
    assert forall k :: 0 <= k < i ==> files[..i + 1][k] == files[..i][k];
    assert files[..i + 1][i] == files[i];
  }

  /** dependents: exactly the changed files and the files with an import path to one; it ends on cyclic graphs too,
      as a file is queued once. */
  method Dependents(changed: seq<string>, reverse: Reverse, ghost graph: Graph) returns (seen: set<string>)
    requires IsReverse(reverse, graph)
    ensures seen == Reach(graph, SetOf(changed))
  {
    hide DependsOn, Imports, Unseen;
    seen := SetOf(changed);
    var queue := changed;
    ghost var seeds := SetOf(changed);
    StartDepends(graph, changed);
    while queue != []
      invariant seeds <= seen && AllDepend(graph, seen, seeds) && QueueCovers(graph, seen, queue)
      invariant forall i :: 0 <= i < |queue| ==> queue[i] in seen
      decreases Unseen(graph, seen), |queue|
    {
      ghost var before, waiting := seen, queue;
      var file := queue[0];
      queue := queue[1..];
      var importers := if file in reverse then reverse[file] else [];
      for i := 0 to |importers|
        invariant Looking(graph, before, waiting, seen, queue, importers, i)
        invariant AllDepend(graph, seen, seeds) && forall k :: 0 <= k < |queue| ==> queue[k] in seen
      {
        var from := importers[i];
        assert Imports(graph, from, file);
        ImporterDepends(graph, from, file, seeds);
        LookedAt(graph, before, waiting, seen, queue, importers, i, file);
        if from !in seen {
          seen := seen + {from};
          queue := queue + [from];
        }
      }
      Covered(graph, reverse, before, waiting, seen, queue, importers);
    }
    assert ClosedUnderImporters(graph, seen);
    ClosedIsReach(graph, seen, seeds);
  }

  lemma StartDepends(graph: Graph, changed: seq<string>)
    ensures AllDepend(graph, SetOf(changed), SetOf(changed)) && QueueCovers(graph, SetOf(changed), changed)
  {
    SeedsDepend(graph, SetOf(changed));
    forall file | file in SetOf(changed) ensures DependsOn(graph, file, SetOf(changed)) {
      assert file in Reach(graph, SetOf(changed));
    }
  }

  lemma Covered(graph: Graph, reverse: Reverse, before: set<string>, waiting: seq<string>, seen: set<string>, queue: seq<string>, importers: seq<string>)
    requires IsReverse(reverse, graph) && waiting != [] && QueueCovers(graph, before, waiting)
    requires importers == (if waiting[0] in reverse then reverse[waiting[0]] else [])
    requires seen == before + SetOf(importers[..|importers|])
    requires waiting[1..] <= queue && forall each :: each in seen && each !in before ==> each in queue
    ensures QueueCovers(graph, seen, queue)
  {
    forall file | file in waiting && file != waiting[0] ensures file in queue {
      StaysQueued(waiting, queue, file);
    }
    forall from, file | file in seen && file !in queue && Imports(graph, from, file) ensures from in seen {
      assert file in before;
      assert file == waiting[0] ==> from in importers[..|importers|];
    }
  }

  lemma StaysQueued(waiting: seq<string>, queue: seq<string>, file: string)
    requires waiting != [] && waiting[1..] <= queue && file in waiting && file != waiting[0]
    ensures file in queue
  {
    var k :| 0 <= k < |waiting| && waiting[k] == file;
    assert waiting[1..][k - 1] == file && queue[k - 1] == waiting[1..][k - 1];
  }

  // ---------- the selection ----------

  /** What the selection reads besides the graph: path patterns, the layer map and the texts of the tests. mentions
      says that a test's text holds the path or the name of a file; seeds and layers read the layer map. */
  datatype Repo = Repo(graph: Graph, isTest: string -> bool, isNote: string -> bool, isInfrastructure: string -> bool,
                       isResolved: string -> bool, seeds: string -> set<string>, layers: string -> set<string>,
                       isReader: string -> bool, mentions: (string, string) -> bool, scanners: string -> set<string>,
                       scansATree: string -> bool, isBusShared: string -> bool, isBusTest: string -> bool,
                       namedReaders: string -> set<string>, isRecord: string -> bool, isRecordTest: string -> bool,
                       noteReaders: set<string>)

  datatype Run = Full | Layers(layers: set<string>, tests: set<string>)

  function Changed(repo: Repo, given: set<string>): set<string> {
    set file | file in given && !repo.isNote(file)
  }

  function NoteReaders(repo: Repo, given: set<string>): set<string> {
    if exists file :: file in given && repo.isNote(file) then repo.noteReaders * Files(repo.graph) else {}
  }

  predicate NeedsAll(repo: Repo, changed: set<string>) {
    exists file :: file in changed && (repo.isInfrastructure(file) || (!repo.isTest(file) && !repo.isResolved(file)))
  }

  function Tests(repo: Repo, files: set<string>): set<string> {
    set file | file in files && repo.isTest(file)
  }

  function Seeds(repo: Repo, changed: set<string>): set<string> {
    changed + set file, seed | file in changed && seed in repo.seeds(file) :: seed
  }

  /** The tests that run for another reason than an import. */
  function Spawning(repo: Repo, changed: set<string>, reached: set<string>): set<string> {
    var files := Files(repo.graph);
    var tests := Tests(repo, files);
    (set reader | reader in files && repo.isReader(reader) && exists file :: file in reached && repo.mentions(reader, file))
    + (set file, test | file in changed && test in repo.scanners(file) && test in tests :: test)
    + (set test | test in tests && repo.scansATree(test))
    + (if exists file :: file in changed && repo.isBusShared(file) then set test | test in tests && repo.isBusTest(test) else {})
    + (set file, test | file in changed && test in repo.namedReaders(file) && test in files :: test)
    + (if exists file :: file in changed && repo.isRecord(file) then set test | test in tests && repo.isRecordTest(test) else {})
  }

  function LayersOf(repo: Repo, files: set<string>): set<string> {
    set file, layer | file in files && layer in repo.layers(file) :: layer
  }

  ghost function Closure(repo: Repo, given: set<string>): set<string> {
    var changed := Changed(repo, given);
    var reached := Reach(repo.graph, Seeds(repo, changed));
    Reach(repo.graph, reached + Spawning(repo, changed, reached) + NoteReaders(repo, given))
  }

  ghost function Selected(repo: Repo, given: set<string>): Run {
    var changed := Changed(repo, given);
    if given == {} then Full
    else if changed == {} then Layers({}, NoteReaders(repo, given))
    else if NeedsAll(repo, changed) then Full
    else Layers(LayersOf(repo, Closure(repo, given)), Tests(repo, Closure(repo, given)))
  }

  /** A list of the files of a set: the order of a Set that is spread. */
  method Listed(files: set<string>) returns (list: seq<string>)
    ensures SetOf(list) == files
  {
    list := [];
    var left := files;
    while left != {}
      invariant left <= files && SetOf(list) == files - left
    {
      var file :| file in left;
      assert SetOf(list + [file]) == SetOf(list) + {file} by {
        assert forall k :: 0 <= k < |list| ==> (list + [file])[k] == list[k];
        assert (list + [file])[|list|] == file;
      }
      left, list := left - {file}, list + [file];
    }
  }

  /** selectRun */
  method SelectRun(given: seq<string>, repo: Repo) returns (run: Run)
    ensures run == Selected(repo, SetOf(given))
  {
    if given == [] {
      return Full;
    }
    assert given[0] in SetOf(given);
    var changed := Changed(repo, SetOf(given));
    var noteReaders := NoteReaders(repo, SetOf(given));
    if changed == {} {
      return Layers({}, noteReaders);
    }
    if NeedsAll(repo, changed) {
      return Full;
    }
    var reverse := ReverseGraph(repo.graph);
    var seeds := Listed(Seeds(repo, changed));
    var reached := Dependents(seeds, reverse, repo.graph);
    var spawning := Listed(reached + Spawning(repo, changed, reached) + noteReaders);
    var closure := Dependents(spawning, reverse, repo.graph);
    run := Layers(LayersOf(repo, closure), Tests(repo, closure));
  }

  /** A run that is not full contains every test that imports a changed file, however far. */
  lemma SelectionIsClosed(repo: Repo, given: set<string>, file: string, test: string)
    requires Selected(repo, given).Layers? && file in Changed(repo, given)
    requires repo.isTest(test) && DependsOn(repo.graph, test, {file})
    ensures test in Selected(repo, given).tests
  {
    hide Spawning, DependsOn;
    var changed := Changed(repo, given);
    var seeds := Seeds(repo, changed);
    var reached := Reach(repo.graph, seeds);
    ReachIsDepends(repo.graph, {file}, test);
    ReachGrows(repo.graph, {file}, seeds);
    SeedsDepend(repo.graph, reached + Spawning(repo, changed, reached) + NoteReaders(repo, given));
  }

  // ---------- the selection, cause by cause ----------

  /** The file is changed, and no changeset note; or the layer map counts it as changed with such a file. */
  ghost predicate StartsFrom(repo: Repo, given: set<string>, file: string) {
    exists c :: c in given && !repo.isNote(c) && (file == c || file in repo.seeds(c))
  }

  /** The tests of the graph. */
  predicate TestOfTheGraph(repo: Repo, file: string) {
    repo.isTest(file) && exists i :: 0 <= i < |repo.graph| && repo.graph[i].file == file
  }

  predicate InTheGraph(repo: Repo, file: string) {
    exists i :: 0 <= i < |repo.graph| && repo.graph[i].file == file
  }

  /** Why a file is looked at beside the changed ones and those that import them: it names one of these, it scans the
      tree of a changed file, or trees at all, it is a test of the bus or of the contract records and one of their files
      has changed, it is named as a reader of a changed file, or it reads changeset notes and one has changed. */
  ghost predicate Summoned(repo: Repo, given: set<string>, file: string) {
    || (InTheGraph(repo, file) && repo.isReader(file)
        && exists hit, start :: StartsFrom(repo, given, start) && DependsOn(repo.graph, hit, {start}) && repo.mentions(file, hit))
    || (TestOfTheGraph(repo, file) && repo.scansATree(file))
    || (TestOfTheGraph(repo, file) && exists c :: c in given && !repo.isNote(c) && file in repo.scanners(c))
    || (TestOfTheGraph(repo, file) && repo.isBusTest(file) && exists c :: c in given && !repo.isNote(c) && repo.isBusShared(c))
    || (InTheGraph(repo, file) && exists c :: c in given && !repo.isNote(c) && file in repo.namedReaders(c))
    || (TestOfTheGraph(repo, file) && repo.isRecordTest(file) && exists c :: c in given && !repo.isNote(c) && repo.isRecord(c))
    || (InTheGraph(repo, file) && file in repo.noteReaders && exists c :: c in given && repo.isNote(c))
  }

  lemma FilesOfTheGraph(repo: Repo, file: string)
    ensures file in Files(repo.graph) <==> InTheGraph(repo, file)
    ensures file in Tests(repo, Files(repo.graph)) <==> TestOfTheGraph(repo, file)
  {
  }

  lemma SeedsStart(repo: Repo, given: set<string>, file: string)
    ensures file in Seeds(repo, Changed(repo, given)) <==> StartsFrom(repo, given, file)
  {
    var changed := Changed(repo, given);
    if StartsFrom(repo, given, file) {
      var c :| c in given && !repo.isNote(c) && (file == c || file in repo.seeds(c));
      assert c in changed;
    }
  }

  lemma {:induction false} OnePathOfMany(graph: Graph, file: string, seeds: set<string>)
    ensures DependsOn(graph, file, seeds) <==> exists seed :: seed in seeds && DependsOn(graph, file, {seed})
  {
    if DependsOn(graph, file, seeds) {
      var path: seq<string> :| IsPath(graph, path, seeds) && path[0] == file;
      assert IsPath(graph, path, {path[|path| - 1]});
      assert DependsOn(graph, file, {path[|path| - 1]});
    }
    if seed :| seed in seeds && DependsOn(graph, file, {seed}) {
      var path: seq<string> :| IsPath(graph, path, {seed}) && path[0] == file;
      assert IsPath(graph, path, seeds);
    }
  }

  lemma ReachedFrom(repo: Repo, given: set<string>, hit: string)
    ensures hit in Reach(repo.graph, Seeds(repo, Changed(repo, given))) <==>
            exists start :: StartsFrom(repo, given, start) && DependsOn(repo.graph, hit, {start})
  {
    hide DependsOn, StartsFrom, Seeds;
    var seeds := Seeds(repo, Changed(repo, given));
    ReachIsDepends(repo.graph, seeds, hit);
    OnePathOfMany(repo.graph, hit, seeds);
    forall start ensures start in seeds <==> StartsFrom(repo, given, start) {
      SeedsStart(repo, given, start);
    }
  }

  lemma SpawnedIsSummoned(repo: Repo, given: set<string>, file: string)
    ensures
      var changed := Changed(repo, given);
      file in Spawning(repo, changed, Reach(repo.graph, Seeds(repo, changed))) + NoteReaders(repo, given) <==> Summoned(repo, given, file)
  {
    hide DependsOn, StartsFrom, Seeds, Reach;
    var changed := Changed(repo, given);
    var reached := Reach(repo.graph, Seeds(repo, changed));
    FilesOfTheGraph(repo, file);
    forall hit ensures hit in reached <==> exists start :: StartsFrom(repo, given, start) && DependsOn(repo.graph, hit, {start}) {
      ReachedFrom(repo, given, hit);
    }
    assert forall c :: c in changed <==> c in given && !repo.isNote(c);
    SpawningParts(repo, given, changed, reached, file);
  }

  lemma SpawningParts(repo: Repo, given: set<string>, changed: set<string>, reached: set<string>, file: string)
    requires forall c :: c in changed <==> c in given && !repo.isNote(c)
    requires file in Files(repo.graph) <==> InTheGraph(repo, file)
    requires file in Tests(repo, Files(repo.graph)) <==> TestOfTheGraph(repo, file)
    requires forall hit :: hit in reached <==> exists start :: StartsFrom(repo, given, start) && DependsOn(repo.graph, hit, {start})
    ensures file in Spawning(repo, changed, reached) + NoteReaders(repo, given) <==> Summoned(repo, given, file)
  {
    hide DependsOn, StartsFrom, Files, Tests;
    if InTheGraph(repo, file) && repo.isReader(file)
       && exists hit, start :: StartsFrom(repo, given, start) && DependsOn(repo.graph, hit, {start}) && repo.mentions(file, hit) {
      var hit, start :| StartsFrom(repo, given, start) && DependsOn(repo.graph, hit, {start}) && repo.mentions(file, hit);
      assert hit in reached;
    }
    if file in Files(repo.graph) && repo.isReader(file) && exists hit :: hit in reached && repo.mentions(file, hit) {
      var hit :| hit in reached && repo.mentions(file, hit);
      var start :| StartsFrom(repo, given, start) && DependsOn(repo.graph, hit, {start});
    }
  }

  lemma {:induction false} DependsTwice(graph: Graph, file: string, mid: string, seeds: set<string>)
    requires DependsOn(graph, file, {mid}) && DependsOn(graph, mid, seeds)
    ensures DependsOn(graph, file, seeds)
  {
    var path: seq<string> :| IsPath(graph, path, {mid}) && path[0] == file;
    PathDepends(graph, path, mid, seeds);
  }

  lemma {:induction false} PathDepends(graph: Graph, path: seq<string>, mid: string, seeds: set<string>)
    requires IsPath(graph, path, {mid}) && DependsOn(graph, mid, seeds)
    ensures DependsOn(graph, path[0], seeds)
    decreases |path|
  {
    if |path| > 1 {
      assert path[1..][|path| - 2] == path[|path| - 1];
      assert Imports(graph, path[0], path[1]);
      assert forall i :: 0 <= i < |path[1..]| - 1 ==> Imports(graph, path[1..][i], path[1..][i + 1]);
      PathDepends(graph, path[1..], mid, seeds);
      ImporterDepends(graph, path[0], path[1], seeds);
    }
  }

  /** The run takes in the file: it is, or imports however far, a file the change starts from or summons. */
  ghost predicate TakenIn(repo: Repo, given: set<string>, file: string) {
    exists cause :: (StartsFrom(repo, given, cause) || Summoned(repo, given, cause)) && DependsOn(repo.graph, file, {cause})
  }

  lemma ClosureIsTakenIn(repo: Repo, given: set<string>, file: string)
    ensures file in Closure(repo, given) <==> TakenIn(repo, given, file)
  {
    hide DependsOn, StartsFrom, Summoned, Spawning, NoteReaders, Seeds;
    var changed := Changed(repo, given);
    var reached := Reach(repo.graph, Seeds(repo, changed));
    var roots := reached + (Spawning(repo, changed, reached) + NoteReaders(repo, given));
    assert roots == reached + Spawning(repo, changed, reached) + NoteReaders(repo, given);
    ReachIsDepends(repo.graph, roots, file);
    OnePathOfMany(repo.graph, file, roots);
    if file in Closure(repo, given) {
      var root :| root in roots && DependsOn(repo.graph, file, {root});
      RootIsCaused(repo, given, root, file);
    }
    if TakenIn(repo, given, file) {
      var cause :| (StartsFrom(repo, given, cause) || Summoned(repo, given, cause)) && DependsOn(repo.graph, file, {cause});
      SpawnedIsSummoned(repo, given, cause);
      SeedsStart(repo, given, cause);
      SeedsDepend(repo.graph, Seeds(repo, changed));
      assert cause in roots;
    }
  }

  lemma RootIsCaused(repo: Repo, given: set<string>, root: string, file: string)
    requires DependsOn(repo.graph, file, {root})
    requires
      var changed := Changed(repo, given);
      var reached := Reach(repo.graph, Seeds(repo, changed));
      root in reached || root in Spawning(repo, changed, reached) + NoteReaders(repo, given)
    ensures TakenIn(repo, given, file)
  {
    hide DependsOn, StartsFrom, Summoned, Spawning, NoteReaders, Seeds, Reach;
    if root in Reach(repo.graph, Seeds(repo, Changed(repo, given))) {
      ReachedFrom(repo, given, root);
      var start :| StartsFrom(repo, given, start) && DependsOn(repo.graph, root, {start});
      DependsTwice(repo.graph, file, root, {start});
    } else {
      SpawnedIsSummoned(repo, given, root);
    }
  }

  /** Every run: it is full exactly for no path at all, for a file of the test infrastructure, and for one that is no
      test and belongs to no layer. For changeset notes alone it is their readers. Else its tests are exactly the tests
      that are taken in, and its layers those of the files taken in. */
  lemma SelectedSays(repo: Repo, given: set<string>)
    ensures
      Selected(repo, given).Full? <==>
      given == {} || exists c :: c in given && !repo.isNote(c) && (repo.isInfrastructure(c) || (!repo.isTest(c) && !repo.isResolved(c)))
    ensures
      given != {} && (forall c :: c in given ==> repo.isNote(c)) ==>
      Selected(repo, given) == Layers({}, set reader | reader in repo.noteReaders && InTheGraph(repo, reader))
    ensures
      Selected(repo, given).Layers? && (exists c :: c in given && !repo.isNote(c)) ==>
      && (forall test :: test in Selected(repo, given).tests <==> repo.isTest(test) && TakenIn(repo, given, test))
      && (forall layer :: layer in Selected(repo, given).layers <==> exists file :: TakenIn(repo, given, file) && layer in repo.layers(file))
  {
    hide Closure, TakenIn;
    var changed := Changed(repo, given);
    if given != {} && (forall c :: c in given ==> repo.isNote(c)) {
      assert changed == {};
      assert NoteReaders(repo, given) == set reader | reader in repo.noteReaders && InTheGraph(repo, reader) by {
        forall reader ensures reader in Files(repo.graph) <==> InTheGraph(repo, reader) {
          FilesOfTheGraph(repo, reader);
        }
        var c :| c in given;
      }
    }
    if c :| c in given && !repo.isNote(c) {
      assert c in changed;
    }
    forall file ensures file in Closure(repo, given) <==> TakenIn(repo, given, file) {
      ClosureIsTakenIn(repo, given, file);
    }
  }

  /** The readers of a changeset note are tests. */
  ghost predicate NoteReadersAreTests(repo: Repo) {
    forall reader :: reader in repo.noteReaders ==> repo.isTest(reader)
  }

  /** A full run, or a run of at least the same tests. */
  ghost predicate AtLeast(larger: Run, run: Run) {
    larger.Full? || (run.Layers? && run.tests <= larger.tests)
  }

  lemma SpawningGrows(repo: Repo, changed: set<string>, more: set<string>, reached: set<string>, further: set<string>)
    requires changed <= more && reached <= further
    ensures Spawning(repo, changed, reached) <= Spawning(repo, more, further)
  {
  }

  lemma {:induction false} ClosureGrows(repo: Repo, given: set<string>, more: set<string>)
    requires given <= more
    ensures Closure(repo, given) <= Closure(repo, more)
  {
    var changed, others := Changed(repo, given), Changed(repo, more);
    hide DependsOn;
    assert Seeds(repo, changed) <= Seeds(repo, others);
    ReachGrows(repo.graph, Seeds(repo, changed), Seeds(repo, others));
    var reached, further := Reach(repo.graph, Seeds(repo, changed)), Reach(repo.graph, Seeds(repo, others));
    SpawningGrows(repo, changed, others, reached, further);
    assert NoteReaders(repo, given) <= NoteReaders(repo, more);
    ReachGrows(repo.graph, reached + Spawning(repo, changed, reached) + NoteReaders(repo, given),
               further + Spawning(repo, others, further) + NoteReaders(repo, more));
  }

  lemma NoteReadersInClosure(repo: Repo, given: set<string>)
    ensures NoteReaders(repo, given) <= Closure(repo, given)
  {
    hide Spawning, DependsOn;
    var changed := Changed(repo, given);
    var reached := Reach(repo.graph, Seeds(repo, changed));
    SeedsDepend(repo.graph, reached + Spawning(repo, changed, reached) + NoteReaders(repo, given));
  }

  /** Adding changed paths to some never shrinks the selection. */
  lemma {:induction false} SelectionGrows(repo: Repo, given: set<string>, more: set<string>)
    requires given != {} && given <= more && NoteReadersAreTests(repo)
    ensures AtLeast(Selected(repo, more), Selected(repo, given))
  {
    hide Closure;
    assert Changed(repo, given) <= Changed(repo, more);
    ClosureGrows(repo, given, more);
    NoteReadersInClosure(repo, more);
    assert NoteReaders(repo, given) <= NoteReaders(repo, more);
  }

  // ---------- the gate of a window ----------

  /** windowGate: a change of the package manifest alone runs the tests that read its scripts. */
  ghost function Gated(repo: Repo, manifest: string, scriptReaders: set<string>, given: set<string>): Run {
    if manifest !in given then Selected(repo, given)
    else
      var rest := given - {manifest};
      var run := if rest == {} then Layers({}, {}) else Selected(repo, rest);
      if run.Full? then Full else Layers(run.layers, run.tests + scriptReaders * Files(repo.graph))
  }

  method WindowGate(given: seq<string>, repo: Repo, manifest: string, scriptReaders: set<string>) returns (run: Run)
    ensures run == Gated(repo, manifest, scriptReaders, SetOf(given))
  {
    if manifest !in given {
      run := SelectRun(given, repo);
      return;
    }
    var rest := Listed(SetOf(given) - {manifest});
    if rest == [] {
      run := Layers({}, {});
    } else {
      assert rest[0] in SetOf(rest);
      run := SelectRun(rest, repo);
    }
    if run.Layers? {
      run := Layers(run.layers, run.tests + scriptReaders * Files(repo.graph));
    }
  }

  /** The gate keeps growing with the changed paths too. */
  lemma {:induction false} GateGrows(repo: Repo, manifest: string, scriptReaders: set<string>, given: set<string>, more: set<string>)
    requires given != {} && given <= more && NoteReadersAreTests(repo)
    ensures AtLeast(Gated(repo, manifest, scriptReaders, more), Gated(repo, manifest, scriptReaders, given))
  {
    var rest, others := given - {manifest}, more - {manifest};
    if rest != {} {
      SelectionGrows(repo, rest, others);
      assert manifest !in given ==> rest == given;
      assert manifest !in more ==> others == more;
    }
  }

  /** The package manifest is set aside: without it the gate is the run of the paths, and with it the run of the others,
      or no test for none, with the tests that read its scripts. */
  lemma GateSays(repo: Repo, manifest: string, scriptReaders: set<string>, given: set<string>, test: string)
    ensures manifest !in given ==> Gated(repo, manifest, scriptReaders, given) == Selected(repo, given)
    ensures
      manifest in given ==>
      var rest, run := given - {manifest}, Gated(repo, manifest, scriptReaders, given);
      && (run.Full? <==> rest != {} && Selected(repo, rest).Full?)
      && (run.Layers? ==>
            && (test in run.tests <==>
                  (rest != {} && test in Selected(repo, rest).tests) || (test in scriptReaders && InTheGraph(repo, test)))
            && run.layers == if rest == {} then {} else Selected(repo, rest).layers)
  {
    hide Selected;
    FilesOfTheGraph(repo, test);
  }
}
