/** One call of judgeHolders, scripts/core/lease.ts, that no other writer interrupts: leases of the dead are freed,
    silent holders that live or cannot be proven to are reported once. */
module Judging {
  import opened Options
  import opened Tasks
  import opened LeaseSpec
  import H = Holders
  import P = LeaseProtocol
  import L = LeaseDb
  import K = TaskKeys
  import O = LeaseOutcomes

  const SILENT_MS: nat := 20 * 60_000

  const WORKER_HUNG := "worker_hung"
  const HOLDER_UNPROVEN := "holder_unproven"

  /** What a call finds beside a row: the process of its holder, when the lease runs out, what the task is about, and
      what the failing of it reads. */
  datatype Finding = Finding(process: H.HolderProcess, until: nat, subject: Subject, readings: Readings)

  datatype Reading = Reading(freed: seq<string>, hung: seq<string>, unproven: seq<string>)

  datatype Judged = Judged(bus: Bus, reading: Reading)

  function VerdictOf(row: H.HeldRow, found: Finding): H.HolderVerdict {
    H.VerdictOn(row.start, found.process)
  }

  /** silentSince */
  predicate Silent(found: Finding, ts: nat) {
    found.until + SILENT_MS < ts + LEASE_MS
  }

  /** holderAlarm: one alarm for each reason, task and generation. */
  function HolderAlarm(row: H.HeldRow, found: Finding, ts: nat, reason: string): Event {
    TaskEvent(Other, row.key, found.subject, 0, ts, POLICY, Text("board.alarm:" + reason + ":" + row.key + ":" + K.Digits(row.gen)))
  }

  function ReasonOf(verdict: H.HolderVerdict): string {
    if verdict.Alive? then WORKER_HUNG else HOLDER_UNPROVEN
  }

  function Reported(reading: Reading, verdict: H.HolderVerdict, key: string): Reading {
    if verdict.Dead? then reading.(freed := reading.freed + [key])
    else if verdict.Alive? then reading.(hung := reading.hung + [key])
    else reading.(unproven := reading.unproven + [key])
  }

  function JudgedOne(j: Judged, ts: nat, row: H.HeldRow, found: Finding): Judged {
    var verdict := VerdictOf(row, found);
    if verdict.Dead? then
      if !Holding(j.bus, row.key, row.gen) then j
      else Judged(FailedLease(j.bus, ts, POLICY, true, row.key, row.gen, H.HOLDER_DEAD, found.readings, []), Reported(j.reading, verdict, row.key))
    else
      var alarm := HolderAlarm(row, found, ts, ReasonOf(verdict));
      if !Silent(found, ts) || Has(j.bus.log, alarm.dedupe) then j
      else Judged(j.bus.(log := j.bus.log + [alarm]), Reported(j.reading, verdict, row.key))
  }

  function JudgedAll(b: Bus, ts: nat, rows: seq<H.HeldRow>, found: seq<Finding>, n: nat): Judged
    requires |found| == |rows| && n <= |rows|
  {
    if n == 0 then Judged(b, Reading([], [], []))
    else JudgedOne(JudgedAll(b, ts, rows, found, n - 1), ts, rows[n - 1], found[n - 1])
  }

  /** judgeHolders */
  method JudgeHolders(db: L.Db, ts: nat, rows: seq<H.HeldRow>, found: seq<Finding>) returns (reading: Reading)
    requires |found| == |rows|
    modifies db
    ensures Judged(db.View(), reading) == JudgedAll(old(db.View()), ts, rows, found, |rows|)
  {
    ghost var before := db.View();
    var freed: seq<string>, hung: seq<string>, unproven: seq<string> := [], [], [];
    for i := 0 to |rows|
      invariant Judged(db.View(), Reading(freed, hung, unproven)) == JudgedAll(before, ts, rows, found, i)
    {
      hide FailedLease;
      var row := rows[i];
      var verdict := VerdictOf(row, found[i]);
      if verdict.Dead? && Holding(db.View(), row.key, row.gen) {
        var next := db.Failed(ts, POLICY, true, row.key, row.gen, H.HOLDER_DEAD, found[i].readings, []);
        freed := freed + [row.key];
      }
      if verdict.Alive? && Silent(found[i], ts) {
        var alarmed := db.AppendEvent(HolderAlarm(row, found[i], ts, WORKER_HUNG));
        hung := if alarmed then hung + [row.key] else hung;
      }
      if verdict.Unproven? && Silent(found[i], ts) {
        var alarmed := db.AppendEvent(HolderAlarm(row, found[i], ts, HOLDER_UNPROVEN));
        unproven := if alarmed then unproven + [row.key] else unproven;
      }
    }
    reading := Reading(freed, hung, unproven);
  }

  // ---------- one row ----------

  /** The holder has not been heard of for twenty minutes: its lease, which runs thirty from its last word, says so. */
  predicate UnheardOf(found: Finding, ts: nat) {
    ts > found.until - 1_800_000 + 1_200_000
  }

  /** Judging one row. The lease of a dead holder ends, if it is still held, and is told as freed. A holder that lives, or
      of which nothing is proven, is reported once for its generation when it was not heard of for long, as hung or as
      unproven, and its lease stands. Anything else does nothing. */
  lemma JudgedSays(j: Judged, ts: nat, row: H.HeldRow, found: Finding)
    requires Inv(j.bus)
    ensures
      var c := JudgedOne(j, ts, row, found);
      var verdict := if row.start.None? || found.process.Unreadable? then H.Unproven
                     else if found.process.Running? && H.WithinTwoSeconds(row.start.value.started, found.process.started) then H.Alive
                     else H.Dead;
      var reason := if verdict.Alive? then "worker_hung" else "holder_unproven";
      var alarm := Text("board.alarm:" + reason + ":" + row.key + ":" + K.Digits(row.gen));
      if verdict.Dead? then
        if Holding(j.bus, row.key, row.gen) then
          && c.reading == j.reading.(freed := j.reading.freed + [row.key])
          && !Holding(c.bus, row.key, row.gen)
          && O.OnlyRow(j.bus.tasks, c.bus.tasks, row.key)
          && O.FailsAs(j.bus.tasks[row.key], "holder_dead", false, found.readings, c.bus.tasks[row.key])
        else c == j
      else if UnheardOf(found, ts) && !Has(j.bus.log, alarm) then
        && c.bus.tasks == j.bus.tasks && |c.bus.log| == |j.bus.log| + 1 && c.bus.log[..|j.bus.log|] == j.bus.log
        && c.bus.log[|j.bus.log|].dedupe == alarm
        && c.reading == (if verdict.Alive? then j.reading.(hung := j.reading.hung + [row.key])
                         else j.reading.(unproven := j.reading.unproven + [row.key]))
      else c == j
  {
    hide Inv, FailedLease, Has;
    if VerdictOf(row, found).Dead? && Holding(j.bus, row.key, row.gen) {
      var a := P.Expiring(ts, row.key, row.gen, H.HOLDER_DEAD, found.readings);
      O.ExpiringSays(j.bus, a);
      assert P.Next(j.bus, a) == FailedLease(j.bus, ts, POLICY, true, row.key, row.gen, H.HOLDER_DEAD, found.readings, []);
    }
  }

  // ---------- which leases are freed ----------

  ghost predicate EachTaskOnce(rows: seq<H.HeldRow>) {
    forall i, k :: 0 <= i < k < |rows| ==> rows[i].key != rows[k].key
  }

  /** Judging one row keeps what ties the log to the rows and moves no other task; its own lease is held afterwards
      exactly if it was and its holder is not dead. */
  lemma JudgingOne(j: Judged, ts: nat, row: H.HeldRow, found: Finding)
    requires Inv(j.bus)
    ensures var c := JudgedOne(j, ts, row, found).bus;
            && Inv(c)
            && (forall key :: key != row.key ==> RowOf(c.tasks, key) == RowOf(j.bus.tasks, key))
            && (Holding(c, row.key, row.gen) <==> Holding(j.bus, row.key, row.gen) && !VerdictOf(row, found).Dead?)
  {
    if VerdictOf(row, found).Dead? {
      if Holding(j.bus, row.key, row.gen) {
        FreeingOne(j.bus, ts, row, found.readings);
      }
    } else {
      var alarm := HolderAlarm(row, found, ts, ReasonOf(VerdictOf(row, found)));
      ForeignKeeps(j.bus, alarm);
    }
  }

  lemma FreeingOne(b: Bus, ts: nat, row: H.HeldRow, readings: Readings)
    requires Inv(b) && Holding(b, row.key, row.gen)
    ensures var c := FailedLease(b, ts, POLICY, true, row.key, row.gen, H.HOLDER_DEAD, readings, []);
            && Inv(c)
            && (forall key :: key != row.key ==> RowOf(c.tasks, key) == RowOf(b.tasks, key))
            && !Holding(c, row.key, row.gen)
  {
    var a := P.Expiring(ts, row.key, row.gen, H.HOLDER_DEAD, readings);
    P.NextKeeps(b, a);
    P.LeaseActionTakes(b, a);
    hide FailedLease, Inv;
    assert P.Next(b, a) == FailedLease(b, ts, POLICY, true, row.key, row.gen, H.HOLDER_DEAD, readings, []);
    assert P.RowUnder(b, a).state != Leased;
  }

  lemma {:induction false} JudgingKeepsOthers(b: Bus, ts: nat, rows: seq<H.HeldRow>, found: seq<Finding>, m: nat, n: nat, key: string)
    requires Inv(b) && |found| == |rows| && m <= n <= |rows| && forall i :: m <= i < n ==> rows[i].key != key
    ensures Inv(JudgedAll(b, ts, rows, found, n).bus)
    ensures RowOf(JudgedAll(b, ts, rows, found, n).bus.tasks, key) == RowOf(JudgedAll(b, ts, rows, found, m).bus.tasks, key)
    decreases n
  {
    hide JudgedOne, Inv;
    if n > 0 {
      JudgingKeepsOthers(b, ts, rows, found, if m < n then m else n - 1, n - 1, key);
      JudgingOne(JudgedAll(b, ts, rows, found, n - 1), ts, rows[n - 1], found[n - 1]);
    }
  }

  /** After a call a lease it read is held exactly if it was held before and its holder was not judged dead: silence
      alone ends no lease. */
  lemma OnlyTheDeadLoseTheirLeases(b: Bus, ts: nat, rows: seq<H.HeldRow>, found: seq<Finding>, i: nat)
    requires Inv(b) && |found| == |rows| && EachTaskOnce(rows) && i < |rows|
    ensures Holding(JudgedAll(b, ts, rows, found, |rows|).bus, rows[i].key, rows[i].gen) <==>
            Holding(b, rows[i].key, rows[i].gen) && !VerdictOf(rows[i], found[i]).Dead?
  {
    hide JudgedOne, Inv;
    JudgingKeepsOthers(b, ts, rows, found, 0, i, rows[i].key);
    JudgingOne(JudgedAll(b, ts, rows, found, i), ts, rows[i], found[i]);
    JudgingKeepsOthers(b, ts, rows, found, i + 1, |rows|, rows[i].key);
  }

  // ---------- what is reported ----------

  predicate FreesAt(b: Bus, rows: seq<H.HeldRow>, found: seq<Finding>, i: nat)
    requires |found| == |rows| && i < |rows|
  {
    VerdictOf(rows[i], found[i]).Dead? && Holding(b, rows[i].key, rows[i].gen)
  }

  /** The keys of the rows that are freed, in their order. */
  function FreedKeys(b: Bus, rows: seq<H.HeldRow>, found: seq<Finding>, n: nat): seq<string>
    requires |found| == |rows| && n <= |rows|
  {
    if n == 0 then [] else FreedKeys(b, rows, found, n - 1) + (if FreesAt(b, rows, found, n - 1) then [rows[n - 1].key] else [])
  }

  lemma FreedOne(j: Judged, ts: nat, row: H.HeldRow, found: Finding)
    ensures JudgedOne(j, ts, row, found).reading.freed ==
            j.reading.freed + (if VerdictOf(row, found).Dead? && Holding(j.bus, row.key, row.gen) then [row.key] else [])
  {
    hide FailedLease;
  }

  /** The call says it freed exactly the leases that were held by a holder judged dead. */
  lemma {:induction false} FreedAreTheDead(b: Bus, ts: nat, rows: seq<H.HeldRow>, found: seq<Finding>, n: nat)
    requires Inv(b) && |found| == |rows| && EachTaskOnce(rows) && n <= |rows|
    ensures JudgedAll(b, ts, rows, found, n).reading.freed == FreedKeys(b, rows, found, n)
  {
    hide JudgedOne, Inv, VerdictOf;
    if n > 0 {
      FreedAreTheDead(b, ts, rows, found, n - 1);
      FreedOne(JudgedAll(b, ts, rows, found, n - 1), ts, rows[n - 1], found[n - 1]);
      JudgingKeepsOthers(b, ts, rows, found, 0, n - 1, rows[n - 1].key);
    }
  }

  /** Nothing is left to free, and every silent holder that is to be reported has been. */
  predicate Quiet(b: Bus, ts: nat, row: H.HeldRow, found: Finding) {
    var verdict := VerdictOf(row, found);
    if verdict.Dead? then !Holding(b, row.key, row.gen)
    else Silent(found, ts) ==> Has(b.log, HolderAlarm(row, found, ts, ReasonOf(verdict)).dedupe)
  }

  lemma {:induction false} QuietRowsChangeNothing(b: Bus, ts: nat, rows: seq<H.HeldRow>, found: seq<Finding>, n: nat)
    requires |found| == |rows| && n <= |rows| && forall i :: 0 <= i < |rows| ==> Quiet(b, ts, rows[i], found[i])
    ensures JudgedAll(b, ts, rows, found, n) == Judged(b, Reading([], [], []))
  {
    if n > 0 {
      QuietRowsChangeNothing(b, ts, rows, found, n - 1);
      assert Quiet(b, ts, rows[n - 1], found[n - 1]);
    }
  }

  lemma LogOnlyGrows(j: Judged, ts: nat, row: H.HeldRow, found: Finding)
    ensures var log := JudgedOne(j, ts, row, found).bus.log; |j.bus.log| <= |log| && log[..|j.bus.log|] == j.bus.log
  {
    if VerdictOf(row, found).Dead? && Holding(j.bus, row.key, row.gen) {
      H.NextGrows(j.bus, P.Expiring(ts, row.key, row.gen, H.HOLDER_DEAD, found.readings));
    }
    assert j.bus.log[..|j.bus.log|] == j.bus.log;
  }

  lemma HasLater(log: seq<Event>, later: seq<Event>, dedupe: Dedupe)
    requires |log| <= |later| && later[..|log|] == log && Has(log, dedupe)
    ensures Has(later, dedupe)
  {
    var i :| 0 <= i < |log| && log[i].dedupe == dedupe;
    assert later[i] == later[..|log|][i];
  }

  lemma {:induction false} ReportedRowsStay(b: Bus, ts: nat, rows: seq<H.HeldRow>, found: seq<Finding>, i: nat, n: nat)
    requires Inv(b) && |found| == |rows| && EachTaskOnce(rows) && i < n <= |rows|
    ensures Quiet(JudgedAll(b, ts, rows, found, n).bus, ts, rows[i], found[i])
    decreases n
  {
    hide JudgedOne, Inv, Quiet;
    var j := JudgedAll(b, ts, rows, found, n - 1);
    JudgingKeepsOthers(b, ts, rows, found, n - 1, n - 1, "");
    if i < n - 1 {
      ReportedRowsStay(b, ts, rows, found, i, n - 1);
      QuietStays(j, ts, rows[n - 1], found[n - 1], rows[i], found[i]);
    } else {
      JudgedIsQuiet(j, ts, rows[i], found[i]);
    }
  }

  lemma JudgedIsQuiet(j: Judged, ts: nat, row: H.HeldRow, found: Finding)
    requires Inv(j.bus)
    ensures Quiet(JudgedOne(j, ts, row, found).bus, ts, row, found)
  {
    JudgingOne(j, ts, row, found);
    hide Inv, FailedLease;
    var alarm := HolderAlarm(row, found, ts, ReasonOf(VerdictOf(row, found)));
    if !Has(j.bus.log, alarm.dedupe) && !VerdictOf(row, found).Dead? && Silent(found, ts) {
      assert JudgedOne(j, ts, row, found).bus.log[|j.bus.log|] == alarm;
    }
  }

  lemma QuietStays(j: Judged, ts: nat, row: H.HeldRow, found: Finding, quiet: H.HeldRow, its: Finding)
    requires Inv(j.bus) && Quiet(j.bus, ts, quiet, its) && quiet.key != row.key
    ensures Quiet(JudgedOne(j, ts, row, found).bus, ts, quiet, its)
  {
    JudgingOne(j, ts, row, found);
    LogOnlyGrows(j, ts, row, found);
    hide Inv, JudgedOne;
    var alarm := HolderAlarm(quiet, its, ts, ReasonOf(VerdictOf(quiet, its)));
    if Has(j.bus.log, alarm.dedupe) {
      HasLater(j.bus.log, JudgedOne(j, ts, row, found).bus.log, alarm.dedupe);
    }
  }

  /** Judging the same findings again frees nothing and raises no alarm: a holder is reported once for a lease. */
  lemma JudgingAgainIsQuiet(b: Bus, ts: nat, rows: seq<H.HeldRow>, found: seq<Finding>)
    requires Inv(b) && |found| == |rows| && EachTaskOnce(rows)
    ensures var c := JudgedAll(b, ts, rows, found, |rows|).bus;
            JudgedAll(c, ts, rows, found, |rows|) == Judged(c, Reading([], [], []))
  {
    var c := JudgedAll(b, ts, rows, found, |rows|).bus;
    forall i | 0 <= i < |rows| ensures Quiet(c, ts, rows[i], found[i]) {
      ReportedRowsStay(b, ts, rows, found, i, |rows|);
    }
    QuietRowsChangeNothing(c, ts, rows, found, |rows|);
  }
}
