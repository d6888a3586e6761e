/** Withdrawing the launch tasks of before, scripts/nodes/launch/launch-withdraw.ts: the rows are read first, and each is
    requeued if it was stopped, leased and failed in a transaction of its own that does not look at it again. */
module LegacyWithdrawal {
  import opened Options
  import opened Tasks
  import opened LeaseSpec
  import opened LeaseProtocol

  /** A row as LAUNCH_TASKS_TO_WITHDRAW gave it: queued, or stopped. */
  datatype Reading = Reading(key: string, subject: Subject, stopped: bool, gen: nat)

  function LegacyRequeue(r: Reading, ts: nat): Event {
    TaskEvent(Requeue(false), r.key, r.subject, 0, ts, POLICY, RequeuedLegacy(r.key, r.gen))
  }

  function LegacyGrant(r: Reading, ts: nat): Event {
    TaskEvent(Kind.Lease, r.key, r.subject, r.gen + 1, ts, POLICY, LeasedOnce(r.key, r.gen + 1))
  }

  function LegacyFailure(r: Reading, ts: nat): Event {
    TaskEvent(Fail(Withdrawn, false), r.key, r.subject, r.gen + 1, ts, POLICY, FailedOnce(r.key, r.gen + 1))
  }

  function Again(b: Bus, r: Reading, ts: nat): Bus {
    if r.stopped then Wrote(b, LegacyRequeue(r, ts)) else b
  }

  /** withdrawn */
  function Withdrawal(b: Bus, r: Reading, ts: nat): Bus {
    Wrote(Wrote(Again(b, r, ts), LegacyGrant(r, ts)), LegacyFailure(r, ts))
  }

  /** The row was read of this state or of an earlier one. */
  ghost predicate ReadEarlier(b: Bus, r: Reading) {
    Inv(b) && r.subject.queue == "launch" && r.key in b.tasks && r.gen <= b.tasks[r.key].gen
  }

  /** The row is queued when the transaction grants it. */
  predicate QueuedForIt(b: Bus, r: Reading)
    requires r.key in b.tasks
  {
    var state := b.tasks[r.key].state;
    state == Queued || (r.stopped && !Has(b.log, RequeuedLegacy(r.key, r.gen)) && Requeuable(state, r.subject.queue))
  }

  /** No grant is recorded that no row carries: the generation has been granted meanwhile, or the grant takes. */
  predicate GrantStands(b: Bus, r: Reading)
    requires r.key in b.tasks
  {
    b.tasks[r.key].gen > r.gen || QueuedForIt(b, r)
  }

  lemma AgainKeeps(b: Bus, r: Reading, ts: nat)
    requires ReadEarlier(b, r)
    ensures var c := Again(b, r, ts); ReadEarlier(c, r) && c.tasks[r.key].gen == b.tasks[r.key].gen
  {
    hide Inv;
    if r.stopped {
      WroteKeeps(b, LegacyRequeue(r, ts));
    }
  }

  lemma AgainQueues(b: Bus, r: Reading, ts: nat)
    requires r.key in b.tasks && r.subject.queue == "launch"
    ensures
      var c := Again(b, r, ts);
      r.key in c.tasks && (c.tasks[r.key].state == Queued <==> QueuedForIt(b, r))
  {
  }

  /** The grant of the generation read: it takes, or is swallowed, or is recorded without a row that carries it. */
  lemma GrantIsKept(b: Bus, r: Reading, ts: nat)
    requires ReadEarlier(b, r) && (b.tasks[r.key].gen > r.gen || b.tasks[r.key].state == Queued)
    ensures var c := Wrote(b, LegacyGrant(r, ts)); Inv(c) && r.key in c.tasks && r.gen < c.tasks[r.key].gen
  {
    if b.tasks[r.key].gen > r.gen {
      assert Has(b.log, LeasedOnce(r.key, r.gen + 1));
    } else {
      GrantFolds(b, r, ts);
      hide Inv;
      WroteKeeps(b, LegacyGrant(r, ts));
    }
  }

  lemma GrantFolds(b: Bus, r: Reading, ts: nat)
    requires Inv(b) && r.key in b.tasks && b.tasks[r.key].gen == r.gen && b.tasks[r.key].state == Queued
    ensures Wrote(b, LegacyGrant(r, ts)) == Bus(b.log + [LegacyGrant(r, ts)], b.tasks[r.key := GrantedRow(b.tasks[r.key], ts, |b.log| + 1)])
  {
    NextGrantIsFresh(b, r.key);
    hide Inv, Has;
  }

  /** An end recorded of a generation that is not held. */
  lemma LateEndKeeps(b: Bus, e: Event, key: string, gen: nat)
    requires Inv(b) && e.kind.Fail? && e.dedupe == FailedOnce(key, gen) && key in b.tasks && gen <= b.tasks[key].gen
    requires !(b.tasks[key].state == Leased && b.tasks[key].gen == gen)
    ensures Inv(b.(log := b.log + [e]))
  {
    hide Has, Ended;
    var c := b.(log := b.log + [e]);
    HasAppended(b.log, e);
    forall k: string, g: nat | Ended(c.log, k, g)
      ensures k in c.tasks && g <= c.tasks[k].gen && (c.tasks[k].state == Leased ==> g < c.tasks[k].gen)
    {
      EndedEarlier(b.log, e, k, g);
    }
  }

  lemma EndedEarlier(log: seq<Event>, e: Event, key: string, gen: nat)
    requires e.dedupe.FailedOnce? && Ended(log + [e], key, gen)
    ensures Ended(log, key, gen) || e.dedupe == FailedOnce(key, gen)
  {
    HasAppended(log, e);
  }

  lemma FailureIsKept(b: Bus, r: Reading, ts: nat)
    requires Inv(b) && r.key in b.tasks && r.gen < b.tasks[r.key].gen
    ensures Inv(Wrote(b, LegacyFailure(r, ts)))
  {
    hide Inv;
    if Holding(b, r.key, r.gen + 1) {
      WroteKeeps(b, LegacyFailure(r, ts));
    } else if !Has(b.log, LegacyFailure(r, ts).dedupe) {
      LateEndKeeps(b, LegacyFailure(r, ts), r.key, r.gen + 1);
      ForeignKeeps(b.(log := b.log + [LegacyFailure(r, ts)]), Record(LegacyFailure(r, ts)));
    }
  }

  /** A grant that the fold rejects stays in the log, and the row never carries its generation. */
  lemma GrantIsLost(b: Bus, r: Reading, ts: nat)
    requires r.key in b.tasks && b.tasks[r.key].gen == r.gen && b.tasks[r.key].state != Queued
    ensures
      var c := Wrote(Wrote(b, LegacyGrant(r, ts)), LegacyFailure(r, ts));
      !GrantsMatch(c) && r.key in c.tasks && Has(c.log, LeasedOnce(r.key, c.tasks[r.key].gen + 1))
  {
    hide Wrote, Outcomes, Has;
    var c := Wrote(b, LegacyGrant(r, ts));
    WroteHas(b, LegacyGrant(r, ts), LeasedOnce(r.key, r.gen + 1));
    WroteHas(c, LegacyFailure(r, ts), LeasedOnce(r.key, r.gen + 1));
    NotGranted(b, r, ts);
    RejectedLeaves(b, LegacyGrant(r, ts));
    NotFailed(c, r, ts);
    RejectedLeaves(c, LegacyFailure(r, ts));
  }

  lemma RejectedLeaves(b: Bus, e: Event)
    requires Outcomes(b.tasks, e, |b.log| + 1) == Rejected
    ensures Wrote(b, e).tasks == b.tasks
  {
  }

  lemma NotGranted(b: Bus, r: Reading, ts: nat)
    requires r.key in b.tasks && b.tasks[r.key].state != Queued
    ensures Outcomes(b.tasks, LegacyGrant(r, ts), |b.log| + 1) == Rejected
  {
  }

  lemma NotFailed(b: Bus, r: Reading, ts: nat)
    requires r.key in b.tasks && b.tasks[r.key].gen == r.gen
    ensures Outcomes(b.tasks, LegacyFailure(r, ts), |b.log| + 1) == Rejected
  {
  }

  lemma WroteHas(b: Bus, e: Event, dedupe: Dedupe)
    requires Has(b.log, dedupe) || dedupe == e.dedupe
    ensures Has(Wrote(b, e).log, dedupe)
  {
    HasAppended(b.log, e);
    HasAppended(b.log + [e], Record(e));
  }

  /** A withdrawal keeps the log and the rows tied to each other exactly if its grant stands. A row read as queued
      that was withdrawn or superseded since gets a grant it never carries, and the key of its next grant is spent. */
  lemma WithdrawalKeepsIff(b: Bus, r: Reading, ts: nat)
    requires ReadEarlier(b, r)
    ensures Inv(Withdrawal(b, r, ts)) <==> GrantStands(b, r)
    ensures var c := Withdrawal(b, r, ts); !GrantStands(b, r) ==> r.key in c.tasks && Has(c.log, LeasedOnce(r.key, c.tasks[r.key].gen + 1))
  {
    hide Wrote, Has, Again;
    var c := Again(b, r, ts);
    AgainKeeps(b, r, ts);
    AgainQueues(b, r, ts);
    if GrantStands(b, r) {
      GrantIsKept(c, r, ts);
      FailureIsKept(Wrote(c, LegacyGrant(r, ts)), r, ts);
    } else {
      GrantIsLost(c, r, ts);
    }
  }

  /** The reading still holds. */
  predicate StillRead(b: Bus, r: Reading) {
    && r.key in b.tasks && b.tasks[r.key].gen == r.gen && b.tasks[r.key].state == (if r.stopped then Stopped else Queued)
    && (r.stopped ==> !Has(b.log, RequeuedLegacy(r.key, r.gen)))
  }

  lemma AgainFolds(b: Bus, r: Reading, ts: nat)
    requires StillRead(b, r) && r.subject.queue == "launch"
    ensures
      var row := b.tasks[r.key];
      Again(b, r, ts).tasks == if r.stopped then b.tasks[r.key := row.(state := Queued, failures := 0, eventId := |b.log| + 1)] else b.tasks
  {
  }

  lemma GrantThenFailure(b: Bus, r: Reading, ts: nat)
    requires Inv(b) && r.key in b.tasks && b.tasks[r.key].gen == r.gen && b.tasks[r.key].state == Queued
    ensures Wrote(Wrote(b, LegacyGrant(r, ts)), LegacyFailure(r, ts)).tasks ==
            b.tasks[r.key := EndedRow(GrantedRow(b.tasks[r.key], ts, |b.log| + 1), Fail(Withdrawn, false), |b.log| + 2)]
  {
    hide Inv, Wrote, Has;
    var c := Wrote(b, LegacyGrant(r, ts));
    GrantFolds(b, r, ts);
    WroteKeeps(b, LegacyGrant(r, ts));
    HeldIsNotEnded(c, r.key, r.gen + 1);
    EndFolds(c, LegacyFailure(r, ts));
    assert c.tasks[r.key := c.tasks[r.key]] == c.tasks;
  }

  /** Then the task is withdrawn under the next generation, and no other row moves. */
  lemma FreshReadingWithdraws(b: Bus, r: Reading, ts: nat)
    requires ReadEarlier(b, r) && StillRead(b, r)
    ensures
      var after := Withdrawal(b, r, ts).tasks;
      && after.Keys == b.tasks.Keys
      && after[r.key].state == Withdrawn && after[r.key].gen == r.gen + 1
      && forall key :: key in b.tasks && key != r.key ==> after[key] == b.tasks[key]
  {
    hide Inv, Wrote, Has, Again;
    AgainKeeps(b, r, ts);
    AgainFolds(b, r, ts);
    GrantThenFailure(Again(b, r, ts), r, ts);
  }

  lemma SwallowedGrant(b: Bus, r: Reading, ts: nat)
    requires Inv(b) && r.key in b.tasks && r.gen < b.tasks[r.key].gen
    ensures Wrote(b, LegacyGrant(r, ts)) == b
  {
    assert Has(b.log, LeasedOnce(r.key, r.gen + 1));
  }

  lemma LeasedStays(b: Bus, r: Reading, ts: nat)
    requires r.key in b.tasks && b.tasks[r.key].state == Leased && r.subject.queue == "launch"
    ensures Again(b, r, ts).tasks == b.tasks
  {
  }

  /** Where another holder was granted the generation in between and holds it still, the withdrawal ends its lease. */
  lemma EndsAnothersLease(b: Bus, r: Reading, ts: nat)
    requires ReadEarlier(b, r) && Holding(b, r.key, r.gen + 1)
    ensures
      var after := Withdrawal(b, r, ts).tasks;
      && r.key in after && after[r.key].state == Withdrawn && after[r.key].gen == r.gen + 1
      && after[r.key].failures == b.tasks[r.key].failures + 1
  {
    hide Inv, Wrote, Has, Again;
    var c := Again(b, r, ts);
    AgainKeeps(b, r, ts);
    LeasedStays(b, r, ts);
    SwallowedGrant(c, r, ts);
    HeldIsNotEnded(c, r.key, r.gen + 1);
    EndFolds(c, LegacyFailure(r, ts));
  }
}
