/** The event log and the folds that project tables from it: scripts/core/db.ts, rejection.ts, stored.ts.
    Event i of the log has the id i + 1, so "id > from AND id <= to" is the index range from..to. */
module Projections {
  import opened Options

  datatype Event = Event(kind: string, dedupeKey: string, legacy: bool, payload: string)

  /** A projection row is named by its table and its key columns; its other columns are kept as text. */
  datatype RowKey = RowKey(table: string, key: string)

  /** All projection tables, with the AUTOINCREMENT sequences of those that have one. */
  datatype Tables = Tables(rows: map<RowKey, string>, sequences: map<string, nat>)

  const EMPTY := Tables(map[], map[])

  datatype Write =
    | Put(key: RowKey, row: string)
    | Erase(key: RowKey)
    | Advance(table: string, last: nat)

  /** A fold reads the tables and the log through its own event, the last one given; it rejects the
      event or says what it writes. */
  type Fold = (Tables, seq<Event>) -> Option<seq<Write>>

  /** The folds of a set of event types. */
  datatype Projector = Projector(kinds: set<string>, fold: Fold)

  const REJECTED := "reducer.rejected"

  function Applied(tables: Tables, write: Write): Tables {
    match write
    case Put(key, row) => tables.(rows := tables.rows[key := row])
    case Erase(key) => tables.(rows := tables.rows - {key})
    case Advance(table, last) => tables.(sequences := tables.sequences[table := last])
  }

  function AppliedAll(tables: Tables, writes: seq<Write>): Tables {
    if writes == [] then tables
    else Applied(AppliedAll(tables, writes[..|writes| - 1]), writes[|writes| - 1])
  }

  /** The row keys the write triggers note. */
  function Touched(writes: seq<Write>): set<RowKey> {
    if writes == [] then {}
    else
      var last := writes[|writes| - 1];
      Touched(writes[..|writes| - 1]) + (if last.Advance? then {} else {last.key})
  }

  // ---------- the log ----------

  predicate Holds(log: seq<Event>, dedupeKey: string) {
    exists i :: 0 <= i < |log| && log[i].dedupeKey == dedupeKey
  }

  /** INSERT ... ON CONFLICT (dedupe_key) DO NOTHING */
  function Append(log: seq<Event>, event: Event): seq<Event> {
    if Holds(log, event.dedupeKey) then log else log + [event]
  }

  function RejectionOf(event: Event): Event {
    Event(REJECTED, REJECTED + ":" + event.dedupeKey, false, event.kind)
  }

  predicate Concerns(projector: Projector, event: Event) {
    !event.legacy && event.kind in projector.kinds
  }

  /** Nobody folds the records of rejections. */
  predicate LeavesRejections(projector: Projector) {
    REJECTED !in projector.kinds
  }

  /** later is log with nothing but records of rejections added. */
  ghost predicate OnlyRejectionsAdded(log: seq<Event>, later: seq<Event>) {
    && |log| <= |later|
    && later[..|log|] == log
    && forall i :: |log| <= i < |later| ==> later[i].kind == "reducer.rejected"
  }

  lemma RejectionsAddUp(a: seq<Event>, b: seq<Event>, c: seq<Event>)
    requires OnlyRejectionsAdded(a, b) && OnlyRejectionsAdded(b, c)
    ensures OnlyRejectionsAdded(a, c)
  {
    assert c[..|a|] == c[..|b|][..|a|];
    forall i | |a| <= i < |c| ensures c[i].kind == "reducer.rejected" {
      if i < |b| {
        assert c[i] == c[..|b|][i] == b[i];
      }
    }
  }

  // ---------- plain folding ----------

  /** What the fold makes of event i of the log: the writes, or None. */
  function Verdict(projector: Projector, log: seq<Event>, tables: Tables, i: nat): Option<seq<Write>>
    requires i < |log|
  {
    projector.fold(tables, log[..i + 1])
  }

  function Step(projector: Projector, log: seq<Event>, tables: Tables, i: nat): Tables
    requires i < |log|
  {
    if !Concerns(projector, log[i]) then tables
    else
      match Verdict(projector, log, tables, i)
      case None => tables
      case Some(writes) => AppliedAll(tables, writes)
  }

  /** The plain left fold of the log from one id through another. */
  ghost function Run(projector: Projector, log: seq<Event>, tables: Tables, from: nat, end: nat): Tables
    requires from <= end <= |log|
    decreases end
  {
    if from == end then tables
    else Step(projector, log, Run(projector, log, tables, from, end - 1), end - 1)
  }

  lemma {:induction false} RunSplits(projector: Projector, log: seq<Event>, tables: Tables, from: nat, mid: nat, end: nat)
    requires from <= mid <= end <= |log|
    ensures Run(projector, log, tables, from, end) == Run(projector, log, Run(projector, log, tables, from, mid), mid, end)
    decreases end
  {
    if mid < end {
      RunSplits(projector, log, tables, from, mid, end - 1);
    }
  }

  /** A run depends on nothing after its last event. */
  lemma {:induction false} RunReadsThePrefix(projector: Projector, log: seq<Event>, later: seq<Event>, tables: Tables, from: nat, end: nat)
    requires from <= end <= |log| && end <= |later| && log[..end] == later[..end]
    ensures Run(projector, log, tables, from, end) == Run(projector, later, tables, from, end)
    decreases end
  {
    if from < end {
      assert log[..end - 1] == log[..end][..end - 1] == later[..end - 1];
      assert log[end - 1] == log[..end][end - 1] == later[end - 1];
      RunReadsThePrefix(projector, log, later, tables, from, end - 1);
    }
  }

  lemma {:induction false} RunSkips(projector: Projector, log: seq<Event>, tables: Tables, from: nat, end: nat)
    requires from <= end <= |log|
    requires forall i :: from <= i < end ==> !Concerns(projector, log[i])
    ensures Run(projector, log, tables, from, end) == tables
    decreases end
  {
    if from < end {
      RunSkips(projector, log, tables, from, end - 1);
    }
  }

  // ---------- the events a reduction reads ----------

  predicate Within(ids: seq<nat>, n: nat) {
    forall k :: 0 <= k < |ids| ==> ids[k] < n
  }

  /** The indices in from..end of the events the projector folds. */
  function Pending(projector: Projector, log: seq<Event>, from: nat, end: nat): (ids: seq<nat>)
    requires from <= end <= |log|
    ensures Within(ids, end)
    decreases end
  {
    if from == end then []
    else Pending(projector, log, from, end - 1) + (if Concerns(projector, log[end - 1]) then [end - 1] else [])
  }

  /** The first n pending events are all the pending events up to just after the n-th. */
  lemma {:induction false} PendingThrough(projector: Projector, log: seq<Event>, from: nat, end: nat, n: nat)
    requires from <= end <= |log| && 0 < n <= |Pending(projector, log, from, end)|
    ensures
      var pending := Pending(projector, log, from, end);
      from <= pending[n - 1] < end && Pending(projector, log, from, pending[n - 1] + 1) == pending[..n]
    decreases end
  {
    var pending, before := Pending(projector, log, from, end), Pending(projector, log, from, end - 1);
    if n <= |before| {
      PendingThrough(projector, log, from, end - 1, n);
      assert pending[..n] == before[..n] && pending[n - 1] == before[n - 1];
    } else {
      assert pending[..n] == pending && pending[n - 1] == end - 1;
    }
  }

  // ---------- folding with savepoints ----------

  /** What a fold can change: the log, by a record of its rejection, the tables, and the rows noted dirty. */
  datatype Store = Store(log: seq<Event>, tables: Tables, dirty: set<RowKey>)

  /** appliedOrRejected on the event with index i; rows are noted only where the triggers stand. */
  function AppliedOrRejected(projector: Projector, s: Store, i: nat, tracked: bool): Store
    requires i < |s.log|
  {
    match Verdict(projector, s.log, s.tables, i)
    case None => s.(log := Append(s.log, RejectionOf(s.log[i])))
    case Some(writes) =>
      s.(tables := AppliedAll(s.tables, writes), dirty := if tracked then s.dirty + Touched(writes) else s.dirty)
  }

  ghost function FoldedAll(projector: Projector, s: Store, ids: seq<nat>, tracked: bool): (r: Store)
    requires Within(ids, |s.log|)
    ensures |s.log| <= |r.log|
  {
    if ids == [] then s
    else
      AppliedOrRejected(projector, FoldedAll(projector, s, ids[..|ids| - 1], tracked), ids[|ids| - 1], tracked)
  }

  ghost predicate AgreeOutside(a: Tables, b: Tables, dirty: set<RowKey>) {
    forall key :: key !in dirty ==> (key in a.rows <==> key in b.rows) && (key in a.rows ==> a.rows[key] == b.rows[key])
  }

  lemma {:induction false} WritesAreNoted(tables: Tables, writes: seq<Write>)
    ensures AgreeOutside(AppliedAll(tables, writes), tables, Touched(writes))
  {
    if writes != [] {
      WritesAreNoted(tables, writes[..|writes| - 1]);
    }
  }

  lemma AgreementChains(a: Tables, b: Tables, c: Tables, d: set<RowKey>, e: set<RowKey>)
    requires AgreeOutside(a, b, d) && AgreeOutside(b, c, e)
    ensures AgreeOutside(a, c, d + e)
  {
    forall key | key !in d + e
      ensures (key in a.rows <==> key in c.rows) && (key in a.rows ==> a.rows[key] == c.rows[key])
    {
      assert key !in d && key !in e;
      assert key in a.rows <==> key in b.rows;
    }
  }

  /** The plain fold rejects event i of the range. */
  ghost predicate RejectedInRun(projector: Projector, log: seq<Event>, tables: Tables, from: nat, i: nat)
    requires from <= i < |log|
  {
    Concerns(projector, log[i]) && Verdict(projector, log, Run(projector, log, tables, from, i), i) == None
  }

  /** An event of the log is named as the record of the rejection of the event with this key is. */
  predicate HasRecord(log: seq<Event>, dedupeKey: string) {
    exists k :: 0 <= k < |log| && log[k].dedupeKey == "reducer.rejected:" + dedupeKey
  }

  lemma HasRecordLater(log: seq<Event>, later: seq<Event>, dedupeKey: string)
    requires |log| <= |later| && later[..|log|] == log && HasRecord(log, dedupeKey)
    ensures HasRecord(later, dedupeKey)
  {
    HoldsLater(log, later, "reducer.rejected:" + dedupeKey);
  }

  /** Every event of the range that the plain fold rejects has its record in the later log. */
  ghost predicate RejectionsRecorded(projector: Projector, log: seq<Event>, tables: Tables, from: nat, end: nat, later: seq<Event>)
    requires from <= end <= |log|
  {
    forall i :: from <= i < end ==> RejectedInRun(projector, log, tables, from, i) ==> HasRecord(later, log[i].dedupeKey)
  }

  /** What folding from..end with savepoints makes of s: the tables of the plain fold; a log with records of
      rejections added, one for each rejected event; and a note of every changed row where the triggers stand. */
  ghost predicate Faithful(projector: Projector, s: Store, r: Store, from: nat, end: nat, tracked: bool)
    requires from <= end <= |s.log|
  {
    && r.tables == Run(projector, s.log, s.tables, from, end)
    && OnlyRejectionsAdded(s.log, r.log)
    && s.dirty <= r.dirty
    && (tracked ==> AgreeOutside(r.tables, s.tables, r.dirty))
    && (!tracked ==> r.dirty == s.dirty)
    && RejectionsRecorded(projector, s.log, s.tables, from, end, r.log)
  }

  lemma NothingFolded(projector: Projector, s: Store, from: nat, tracked: bool)
    requires from <= |s.log|
    ensures Faithful(projector, s, FoldedAll(projector, s, Pending(projector, s.log, from, from), tracked), from, from, tracked)
  {
    assert s.log[..|s.log|] == s.log;
  }

  /** The last event of the range is folded after the others, if it is folded at all. */
  lemma FoldedNext(projector: Projector, s: Store, from: nat, end: nat, tracked: bool)
    requires from < end <= |s.log|
    ensures
      var r := FoldedAll(projector, s, Pending(projector, s.log, from, end - 1), tracked);
      FoldedAll(projector, s, Pending(projector, s.log, from, end), tracked) ==
      if Concerns(projector, s.log[end - 1]) then AppliedOrRejected(projector, r, end - 1, tracked) else r
  {
    var ids, before := Pending(projector, s.log, from, end), Pending(projector, s.log, from, end - 1);
    if Concerns(projector, s.log[end - 1]) {
      assert ids == before + [end - 1] && ids[..|ids| - 1] == before && ids[|ids| - 1] == end - 1;
    } else {
      assert ids == before;
    }
  }

  lemma {:induction false} FoldedAllIsFaithful(projector: Projector, s: Store, from: nat, end: nat, tracked: bool)
    requires LeavesRejections(projector) && from <= end <= |s.log|
    ensures Faithful(projector, s, FoldedAll(projector, s, Pending(projector, s.log, from, end), tracked), from, end, tracked)
    decreases end
  {
    hide Faithful, FoldedAll, Pending, AppliedOrRejected;
    if from == end {
      NothingFolded(projector, s, from, tracked);
    } else {
      FoldedAllIsFaithful(projector, s, from, end - 1, tracked);
      FoldedNext(projector, s, from, end, tracked);
      var r := FoldedAll(projector, s, Pending(projector, s.log, from, end - 1), tracked);
      if Concerns(projector, s.log[end - 1]) {
        OneMore(projector, s, r, from, end, tracked);
      } else {
        OneMoreSkipped(projector, s, r, from, end, tracked);
      }
    }
  }

  lemma OneMoreSkipped(projector: Projector, s: Store, r: Store, from: nat, end: nat, tracked: bool)
    requires from < end <= |s.log| && !Concerns(projector, s.log[end - 1])
    requires Faithful(projector, s, r, from, end - 1, tracked)
    ensures Faithful(projector, s, r, from, end, tracked)
  {
    forall i | from <= i < end && RejectedInRun(projector, s.log, s.tables, from, i)
      ensures HasRecord(r.log, s.log[i].dedupeKey)
    {
      assert i < end - 1;
    }
  }

  lemma OneMore(projector: Projector, s: Store, r: Store, from: nat, end: nat, tracked: bool)
    requires from < end <= |s.log| <= |r.log| && Concerns(projector, s.log[end - 1])
    requires Faithful(projector, s, r, from, end - 1, tracked)
    ensures Faithful(projector, s, AppliedOrRejected(projector, r, end - 1, tracked), from, end, tracked)
  {
    assert r.log[..end] == r.log[..|s.log|][..end] == s.log[..end];
    assert r.log[end - 1] == r.log[..end][end - 1] == s.log[end - 1];
    match Verdict(projector, s.log, r.tables, end - 1)
    case None => OneMoreRejected(projector, s, r, from, end, tracked);
    case Some(writes) => OneMoreApplied(projector, s, r, from, end, tracked, writes);
  }

  lemma OneMoreApplied(projector: Projector, s: Store, r: Store, from: nat, end: nat, tracked: bool, writes: seq<Write>)
    requires from < end <= |s.log| && Concerns(projector, s.log[end - 1])
    requires Faithful(projector, s, r, from, end - 1, tracked)
    requires Verdict(projector, s.log, r.tables, end - 1) == Some(writes)
    ensures Faithful(projector, s,
                     Store(r.log, AppliedAll(r.tables, writes), if tracked then r.dirty + Touched(writes) else r.dirty),
                     from, end, tracked)
  {
    WritesAreNoted(r.tables, writes);
    if tracked {
      AgreementChains(AppliedAll(r.tables, writes), r.tables, s.tables, Touched(writes), r.dirty);
      assert Touched(writes) + r.dirty == r.dirty + Touched(writes);
    }
  }

  lemma OneMoreRejected(projector: Projector, s: Store, r: Store, from: nat, end: nat, tracked: bool)
    requires from < end <= |s.log| && Concerns(projector, s.log[end - 1])
    requires Faithful(projector, s, r, from, end - 1, tracked)
    requires Verdict(projector, s.log, r.tables, end - 1) == None
    ensures Faithful(projector, s, r.(log := Append(r.log, RejectionOf(s.log[end - 1]))), from, end, tracked)
  {
    var later := Append(r.log, RejectionOf(s.log[end - 1]));
    AppendHolds(r.log, RejectionOf(s.log[end - 1]));
    RejectionsAddUp(s.log, r.log, later);
    forall i | from <= i < end && RejectedInRun(projector, s.log, s.tables, from, i)
      ensures HasRecord(later, s.log[i].dedupeKey)
    {
      if i < end - 1 {
        HasRecordLater(r.log, later, s.log[i].dedupeKey);
      }
    }
  }

  lemma AppendHolds(log: seq<Event>, event: Event)
    ensures Holds(Append(log, event), event.dedupeKey)
    ensures |log| <= |Append(log, event)| && Append(log, event)[..|log|] == log
  {
    var later := Append(log, event);
    if later != log {
      assert later[|log|].dedupeKey == event.dedupeKey;
    }
  }

  lemma HoldsLater(log: seq<Event>, later: seq<Event>, dedupeKey: string)
    requires |log| <= |later| && later[..|log|] == log && Holds(log, dedupeKey)
    ensures Holds(later, dedupeKey)
  {
    var i :| 0 <= i < |log| && log[i].dedupeKey == dedupeKey;
    assert later[i] == later[..|log|][i];
  }

  // ---------- what a fold does, spelled out ----------

  /** An event that is legacy, or of a type the projector has no fold for, changes nothing; any other makes the writes
      its fold gives, or none when the fold rejects it. */
  lemma RunGoesOn(projector: Projector, log: seq<Event>, tables: Tables, from: nat, n: nat)
    requires from <= n < |log|
    ensures
      var before, after := Run(projector, log, tables, from, n), Run(projector, log, tables, from, n + 1);
      if log[n].legacy || log[n].kind !in projector.kinds then after == before
      else match projector.fold(before, log[..n + 1])
           case None => after == before
           case Some(writes) => LastWritesStand(before, writes, after)
  {
    match projector.fold(Run(projector, log, tables, from, n), log[..n + 1])
    case None =>
    case Some(writes) => WritesStand(Run(projector, log, tables, from, n), writes);
  }

  function RowOf(tables: Tables, key: RowKey): Option<string> {
    if key in tables.rows then Some(tables.rows[key]) else None
  }

  function SequenceOf(tables: Tables, table: string): Option<nat> {
    if table in tables.sequences then Some(tables.sequences[table]) else None
  }

  /** What the last write to a row makes of it, or what it was. */
  function LastRow(before: Option<string>, writes: seq<Write>, key: RowKey): Option<string> {
    if writes == [] then before
    else
      match writes[|writes| - 1]
      case Put(k, row) => if k == key then Some(row) else LastRow(before, writes[..|writes| - 1], key)
      case Erase(k) => if k == key then None else LastRow(before, writes[..|writes| - 1], key)
      case Advance(_, _) => LastRow(before, writes[..|writes| - 1], key)
  }

  function LastSequence(before: Option<nat>, writes: seq<Write>, table: string): Option<nat> {
    if writes == [] then before
    else
      match writes[|writes| - 1]
      case Advance(t, last) => if t == table then Some(last) else LastSequence(before, writes[..|writes| - 1], table)
      case _ => LastSequence(before, writes[..|writes| - 1], table)
  }

  /** Of each row and each sequence the last write stands, and what nothing wrote is as it was. */
  ghost predicate LastWritesStand(before: Tables, writes: seq<Write>, after: Tables) {
    && (forall key :: RowOf(after, key) == LastRow(RowOf(before, key), writes, key))
    && (forall table :: SequenceOf(after, table) == LastSequence(SequenceOf(before, table), writes, table))
  }

  lemma {:induction false} WritesStand(before: Tables, writes: seq<Write>)
    ensures LastWritesStand(before, writes, AppliedAll(before, writes))
  {
    if writes != [] {
      var first, last := writes[..|writes| - 1], writes[|writes| - 1];
      var mid := AppliedAll(before, first);
      WritesStand(before, first);
      forall key ensures RowOf(Applied(mid, last), key) == LastRow(RowOf(before, key), writes, key) {
        assert RowOf(mid, key) == LastRow(RowOf(before, key), first, key);
      }
      forall table ensures SequenceOf(Applied(mid, last), table) == LastSequence(SequenceOf(before, table), writes, table) {
        assert SequenceOf(mid, table) == LastSequence(SequenceOf(before, table), first, table);
      }
    }
  }

  // ---------- the records of rejections ----------

  /** Nothing but records of rejections takes a key of theirs. */
  predicate KeysKept(log: seq<Event>) {
    forall k :: 0 <= k < |log| ==> KeyKept(log[k])
  }

  predicate KeyKept(event: Event) {
    "reducer.rejected:" <= event.dedupeKey ==> event.kind == "reducer.rejected"
  }

  lemma KeysStayKept(log: seq<Event>, later: seq<Event>)
    requires KeysKept(log) && OnlyRejectionsAdded(log, later)
    ensures KeysKept(later)
  {
    forall k | 0 <= k < |later| ensures KeyKept(later[k]) {
      if k < |log| {
        assert later[k] == later[..|log|][k];
      }
    }
  }

  /** Every event of the first n that a plain fold rejects has an event of its own in the later log: of the type of
      rejections, under its dedupe key. */
  ghost predicate EachHasItsRecord(projector: Projector, log: seq<Event>, tables: Tables, from: nat, end: nat, later: seq<Event>)
    requires from <= end <= |log|
  {
    forall i :: from <= i < end && RejectedInRun(projector, log, tables, from, i) ==>
      exists k :: 0 <= k < |later| && later[k].kind == "reducer.rejected" && later[k].dedupeKey == "reducer.rejected:" + log[i].dedupeKey
  }

  lemma RecordedIsNamed(projector: Projector, log: seq<Event>, tables: Tables, from: nat, end: nat, later: seq<Event>)
    requires from <= end <= |log| && RejectionsRecorded(projector, log, tables, from, end, later) && KeysKept(later)
    ensures EachHasItsRecord(projector, log, tables, from, end, later)
  {
    forall i | from <= i < end && RejectedInRun(projector, log, tables, from, i)
      ensures exists k :: 0 <= k < |later| && later[k].kind == "reducer.rejected" && later[k].dedupeKey == "reducer.rejected:" + log[i].dedupeKey
    {
      assert HasRecord(later, log[i].dedupeKey);
      var k :| 0 <= k < |later| && later[k].dedupeKey == "reducer.rejected:" + log[i].dedupeKey;
      assert KeyKept(later[k]);
    }
  }

  /** Two rejected events with different dedupe keys have two different records. */
  lemma DifferentRecords(projector: Projector, log: seq<Event>, tables: Tables, from: nat, end: nat, later: seq<Event>, i: nat, j: nat)
    returns (k: nat, l: nat)
    requires from <= i < end <= |log| && from <= j < end && EachHasItsRecord(projector, log, tables, from, end, later)
    requires RejectedInRun(projector, log, tables, from, i) && RejectedInRun(projector, log, tables, from, j)
    requires log[i].dedupeKey != log[j].dedupeKey
    ensures k < |later| && l < |later| && k != l && later[k].kind == later[l].kind == "reducer.rejected"
    ensures later[k].dedupeKey == "reducer.rejected:" + log[i].dedupeKey
    ensures later[l].dedupeKey == "reducer.rejected:" + log[j].dedupeKey
  {
    k :| 0 <= k < |later| && later[k].kind == "reducer.rejected" && later[k].dedupeKey == "reducer.rejected:" + log[i].dedupeKey;
    l :| 0 <= l < |later| && later[l].kind == "reducer.rejected" && later[l].dedupeKey == "reducer.rejected:" + log[j].dedupeKey;
    assert ("reducer.rejected:" + log[i].dedupeKey)[17..] == log[i].dedupeKey;
    assert ("reducer.rejected:" + log[j].dedupeKey)[17..] == log[j].dedupeKey;
  }

  /** The event is the record of the rejection of an event of the range. */
  ghost predicate RecordsARejection(projector: Projector, log: seq<Event>, tables: Tables, from: nat, end: nat, record: Event)
    requires from <= end <= |log|
  {
    exists i :: from <= i < end && RejectedInRun(projector, log, tables, from, i)
                && record == Event("reducer.rejected", "reducer.rejected:" + log[i].dedupeKey, false, log[i].kind)
  }

  /** Folding with savepoints adds to the log nothing but the records of the events that the plain fold rejects, and
      every one of those has one. */
  lemma {:induction false} RecordsAreOfRejections(projector: Projector, s: Store, from: nat, end: nat, tracked: bool)
    requires LeavesRejections(projector) && from <= end <= |s.log|
    ensures
      var r := FoldedAll(projector, s, Pending(projector, s.log, from, end), tracked);
      && (forall k :: |s.log| <= k < |r.log| ==> RecordsARejection(projector, s.log, s.tables, from, end, r.log[k]))
      && (KeysKept(s.log) ==> EachHasItsRecord(projector, s.log, s.tables, from, end, r.log))
    decreases end
  {
    var r := FoldedAll(projector, s, Pending(projector, s.log, from, end), tracked);
    FoldedAllIsFaithful(projector, s, from, end, tracked);
    if KeysKept(s.log) {
      KeysStayKept(s.log, r.log);
      RecordedIsNamed(projector, s.log, s.tables, from, end, r.log);
    }
    AddedAreRecords(projector, s, from, end, tracked);
  }

  lemma {:induction false} AddedAreRecords(projector: Projector, s: Store, from: nat, end: nat, tracked: bool)
    requires LeavesRejections(projector) && from <= end <= |s.log|
    ensures
      var r := FoldedAll(projector, s, Pending(projector, s.log, from, end), tracked);
      forall k :: |s.log| <= k < |r.log| ==> RecordsARejection(projector, s.log, s.tables, from, end, r.log[k])
    decreases end
  {
    hide FoldedAll, Pending, RecordsARejection, Faithful, AppliedOrRejected;
    if from == end {
      NoneAdded(projector, s, from, tracked);
    } else {
      AddedAreRecords(projector, s, from, end - 1, tracked);
      FoldedAllIsFaithful(projector, s, from, end - 1, tracked);
      FoldedNext(projector, s, from, end, tracked);
      var r := FoldedAll(projector, s, Pending(projector, s.log, from, end - 1), tracked);
      OneMoreAdded(projector, s, r, from, end, tracked);
      assert FoldedAll(projector, s, Pending(projector, s.log, from, end), tracked) ==
             if Concerns(projector, s.log[end - 1]) then AppliedOrRejected(projector, r, end - 1, tracked) else r;
    }
  }

  lemma NoneAdded(projector: Projector, s: Store, from: nat, tracked: bool)
    requires from <= |s.log|
    ensures FoldedAll(projector, s, Pending(projector, s.log, from, from), tracked) == s
  {
  }

  lemma OneMoreAdded(projector: Projector, s: Store, r: Store, from: nat, end: nat, tracked: bool)
    requires from < end <= |s.log| <= |r.log| && Faithful(projector, s, r, from, end - 1, tracked)
    requires forall k :: |s.log| <= k < |r.log| ==> RecordsARejection(projector, s.log, s.tables, from, end - 1, r.log[k])
    ensures
      var t := if Concerns(projector, s.log[end - 1]) then AppliedOrRejected(projector, r, end - 1, tracked) else r;
      forall k :: |s.log| <= k < |t.log| ==> RecordsARejection(projector, s.log, s.tables, from, end, t.log[k])
  {
    assert r.log[..end] == r.log[..|s.log|][..end] == s.log[..end];
    assert r.log[end - 1] == r.log[..end][end - 1] == s.log[end - 1];
    var t := if Concerns(projector, s.log[end - 1]) then AppliedOrRejected(projector, r, end - 1, tracked) else r;
    forall k | |s.log| <= k < |t.log| ensures RecordsARejection(projector, s.log, s.tables, from, end, t.log[k]) {
      if k < |r.log| {
        assert RecordsARejection(projector, s.log, s.tables, from, end - 1, r.log[k]);
        assert t.log[k] == r.log[k];
      } else {
        assert RejectedInRun(projector, s.log, s.tables, from, end - 1);
      }
    }
  }

  // ---------- the unique key ----------

  /** No two events of the log have one dedupe key. */
  ghost predicate DistinctKeys(log: seq<Event>) {
    forall i, j :: 0 <= i < j < |log| ==> log[i].dedupeKey != log[j].dedupeKey
  }

  lemma AppendDistinct(log: seq<Event>, event: Event)
    requires DistinctKeys(log)
    ensures DistinctKeys(Append(log, event))
  {
  }

  lemma {:induction false} FoldedDistinct(projector: Projector, s: Store, ids: seq<nat>, tracked: bool)
    requires Within(ids, |s.log|) && DistinctKeys(s.log)
    ensures DistinctKeys(FoldedAll(projector, s, ids, tracked).log)
  {
    hide DistinctKeys;
    if ids != [] {
      FoldedDistinct(projector, s, ids[..|ids| - 1], tracked);
      var r := FoldedAll(projector, s, ids[..|ids| - 1], tracked);
      AppendDistinct(r.log, RejectionOf(r.log[ids[|ids| - 1]]));
    }
  }
}
