/** Cards and their pull requests: the in-order folds of scripts/core/reducer.ts and scripts/core/card-automaton.ts.
    Event i of the log has the id i + 1. */
module Cards {
  import opened Options
  import Tasks

  datatype CardState =
    | Queued | Running | InReview | Changes | Ready | MergedCard | ClosedCard | Fallen | StoppedCard | Dropped | Deferred

  datatype StopReason = AgentQuestion | OwnerQuestion | ReviewStop | ConflictStop | Fault | CiStop

  /** state None is the NULL of a card that was linked before it ever moved. */
  datatype Card = Card(state: Option<CardState>, pr: Option<nat>)

  datatype PrState = Open | Closed | Merged

  datatype Pr = Pr(card: Option<nat>, state: PrState)

  datatype State = State(cards: map<nat, Card>, prs: map<nat, Pr>)

  /** How an event names the lease it runs under: the lease_gen of its payload when that is a positive integer, and
      the task key when its dedupe key is `card.started:` and that key. */
  datatype Carried = Carried(gen: Option<nat>, startedKey: Option<string>)

  /** The event types these folds know; a missing part is one the fold has to reject. branchCard is the one card
      whose body names the branch; satisfied stands for what card.closed reads beyond its own prefix. */
  datatype Event =
    | OfTask(task: Tasks.Event)
    | PrObserved(pr: Option<nat>, card: Option<nat>, branchCard: Option<nat>, wellFormed: bool)
    | PrClosed(pr: Option<nat>, merged: Option<bool>)
    | PrOpened(pr: Option<nat>, card: Option<nat>, carries: Carried)
    | Started(card: Option<nat>, carries: Carried)
    | Stopped(card: Option<nat>, reason: Option<StopReason>)
    | Admitted(card: Option<nat>, backfill: bool, inJournal: bool)
    | ReviewRecorded(card: Option<nat>, pass: bool)
    | MergeDone(card: Option<nat>)
    | Answered(card: Option<nat>)
    | CardClosed(card: Option<nat>, satisfied: bool)
    | Fell(card: Option<nat>)
    | LaneMoved(card: Option<nat>, terminal: bool)
    | Deferring(card: Option<nat>)
    | Dropping(card: Option<nat>, wellFormed: bool)

  /** The launch task of a card with the latest event. */
  datatype Launch = Launch(key: string, leased: bool, gen: nat)

  /** What a fold reads besides its tables: the reason of the last stop of the card before the event, and the
      current launch of the card. */
  datatype Reading = Reading(lastStop: Option<StopReason>, launch: Option<Launch>)

  // ---------- tables ----------

  function StateOf(s: State, card: nat): Option<CardState> {
    if card in s.cards then s.cards[card].state else None
  }

  function PrOf(s: State, card: nat): Option<nat> {
    if card in s.cards then s.cards[card].pr else None
  }

  function Move(s: State, card: nat, state: CardState): State {
    s.(cards := s.cards[card := Card(Some(state), PrOf(s, card))])
  }

  function SetLink(s: State, card: nat, pr: nat): State {
    s.(cards := s.cards[card := Card(StateOf(s, card), Some(pr))])
  }

  predicate LinkRefused(s: State, card: nat) {
    var linked := PrOf(s, card);
    linked.Some? && (linked.value !in s.prs || s.prs[linked.value].state != Closed)
  }

  function Linked(s: State, card: nat, pr: nat): Option<State> {
    if PrOf(s, card) == Some(pr) then Some(s)
    else if LinkRefused(s, card) then None
    else Some(SetLink(s, card, pr))
  }

  ghost predicate IsFirstWith(s: State, pr: nat, card: nat) {
    card in s.cards && s.cards[card].pr == Some(pr) && forall d :: d in s.cards && s.cards[d].pr == Some(pr) ==> card <= d
  }

  ghost predicate IsLeast(among: set<nat>, c: nat) {
    c in among && forall d :: d in among ==> c <= d
  }

  lemma {:induction false} LeastExists(among: set<nat>) returns (c: nat)
    requires among != {}
    ensures IsLeast(among, c)
  {
    var x :| x in among;
    c := x;
    if among - {x} != {} {
      var least := LeastExists(among - {x});
      c := if least <= x then least else x;
      assert forall d :: d in among ==> d == x || d in among - {x};
    } else {
      assert among == {x};
    }
  }

  lemma SomeLeast(among: set<nat>)
    requires among != {}
    ensures exists c :: IsLeast(among, c)
  {
    var c := LeastExists(among);
  }

  /** The first card of the table that is linked to the pull request. */
  ghost function CardOfPr(s: State, pr: nat): (r: Option<nat>)
    ensures r.None? <==> forall c :: c in s.cards ==> s.cards[c].pr != Some(pr)
    ensures r.Some? ==> IsFirstWith(s, pr, r.value)
  {
    var among := set c | c in s.cards && s.cards[c].pr == Some(pr);
    if among == {} then
      assert forall c :: c in s.cards && s.cards[c].pr == Some(pr) ==> c in among;
      None
    else
      SomeLeast(among);
      var c :| IsLeast(among, c);
      assert forall d :: d in s.cards && s.cards[d].pr == Some(pr) ==> d in among;
      Some(c)
  }

  function LinkedPrState(s: State, card: nat): Option<PrState> {
    var pr := PrOf(s, card);
    if pr.Some? && pr.value in s.prs then Some(s.prs[pr.value].state) else None
  }

  // ---------- the card automaton ----------

  predicate LinkedIntoReview(state: Option<CardState>) {
    state.None? || state.value in {Queued, Running, Fallen, Deferred}
  }

  predicate OpensAPullRequest(state: Option<CardState>) {
    state.None? || state.value in {Queued, Running, Deferred}
  }

  predicate AdmittedAgain(state: Option<CardState>) {
    state.None? || state.value in {Queued, Fallen, StoppedCard, ClosedCard, Dropped}
  }

  predicate Ended(state: Option<CardState>) {
    state.Some? && state.value in {MergedCard, ClosedCard, Dropped}
  }

  function CardLinkObserved(s: State, card: nat): State {
    if LinkedIntoReview(StateOf(s, card)) then Move(s, card, InReview) else s
  }

  function CardPrMerged(s: State, card: nat): State {
    if StateOf(s, card) != Some(ClosedCard) then Move(s, card, MergedCard) else s
  }

  predicate StoppedByFault(s: State, card: nat, reading: Reading) {
    StateOf(s, card) == Some(StoppedCard) && reading.lastStop == Some(Fault)
  }

  function GenCarried(carries: Carried, launch: Option<Launch>): Option<nat> {
    if carries.gen.Some? && carries.gen.value > 0 then carries.gen
    else if launch.Some? && launch.value.leased && carries.startedKey == Some(launch.value.key) then Some(launch.value.gen)
    else None
  }

  predicate RestoresFromFault(carries: Carried, reading: Reading) {
    var carried := GenCarried(carries, reading.launch);
    carried.Some? && reading.launch.Some? && carried.value == reading.launch.value.gen
  }

  function CardPrOpened(s: State, card: nat, pr: nat, before: Option<nat>, carries: Carried, reading: Reading): Option<State> {
    var state := StateOf(s, card);
    var relinked := before.Some? && before != Some(pr);
    if before == Some(pr) && state == Some(InReview) then Some(s)
    else if !relinked && StoppedByFault(s, card, reading) then
      if RestoresFromFault(carries, reading) then Some(Move(s, card, InReview)) else None
    else if !relinked && !OpensAPullRequest(state) then None
    else Some(Move(s, card, InReview))
  }

  function BackInWork(s: State, card: nat): CardState {
    if LinkedPrState(s, card) == Some(Open) then InReview else Queued
  }

  function Claimed(s: State, card: nat, allowed: bool, next: CardState): Option<State> {
    if allowed then Some(Move(s, card, next)) else None
  }

  function FoldStarted(s: State, card: nat, carries: Carried, reading: Reading): Option<State> {
    if !StoppedByFault(s, card, reading) then Claimed(s, card, StateOf(s, card) == Some(Queued), Running)
    else Claimed(s, card, RestoresFromFault(carries, reading), Running)
  }

  /** The folds of events that only move their card; None where the fold rejects. */
  function FoldMove(s: State, e: Event, reading: Reading): Option<State>
    requires !e.OfTask? && !e.PrClosed?
  {
    if e.card.None? then (if e.ReviewRecorded? || e.MergeDone? then Some(s) else None)
    else
      var card := e.card.value;
      var state := StateOf(s, card);
      match e
      case Started(_, carries) => FoldStarted(s, card, carries, reading)
      case Stopped(_, reason) => Claimed(s, card, reason.Some? && state != Some(ClosedCard), StoppedCard)
      case Admitted(_, backfill, inJournal) =>
        Some(if backfill || !AdmittedAgain(state) then s else Move(s, card, if inJournal then MergedCard else Queued))
      case ReviewRecorded(_, pass) =>
        Some(if state.Some? && state.value in {InReview, Changes, Ready} then Move(s, card, if pass then Ready else Changes) else s)
      case MergeDone(_) => Some(CardPrMerged(s, card))
      case Answered(_) =>
        Claimed(s, card, state.Some? && state.value in {StoppedCard, Changes, InReview}, BackInWork(s, card))
      case CardClosed(_, satisfied) =>
        Claimed(s, card, state == Some(MergedCard) || LinkedPrState(s, card) == Some(Merged) || satisfied, ClosedCard)
      case Fell(_) =>
        if state.Some? && state.value in {Dropped, Deferred} then Some(s)
        else Claimed(s, card, state.Some? && state.value in {Running, InReview, Changes}, Fallen)
      case LaneMoved(_, terminal) =>
        Some(if terminal && !Ended(state) then Move(s, card, Dropped)
             else if state == Some(Deferred) then Move(s, card, BackInWork(s, card)) else s)
      case Deferring(_) => Some(if Ended(state) then s else Move(s, card, Deferred))
      case Dropping(_, wellFormed) => if !wellFormed then None else Some(if Ended(state) then s else Move(s, card, Dropped))
      case _ => Some(s)
  }

  // ---------- pull requests ----------

  function OrElse(a: Option<nat>, b: Option<nat>): Option<nat> {
    if a.Some? then a else b
  }

  ghost function CardNamed(s: State, e: Event, pr: nat): Option<nat>
    requires e.PrObserved?
  {
    var known := if pr in s.prs then s.prs[pr].card else None;
    var onBranch := if pr in s.prs || e.branchCard.None? || LinkRefused(s, e.branchCard.value) then None else e.branchCard;
    OrElse(e.card, OrElse(known, OrElse(CardOfPr(s, pr), onBranch)))
  }

  predicate OfAnotherCard(s: State, pr: nat, card: Option<nat>) {
    pr in s.prs && s.prs[pr].card.Some? && card.Some? && s.prs[pr].card != card
  }

  ghost function FoldObserved(s: State, e: Event): Option<State>
    requires e.PrObserved?
  {
    if e.pr.None? || !e.wellFormed then None
    else
      var pr := e.pr.value;
      if pr in s.prs && s.prs[pr].state == Merged then None
      else if OfAnotherCard(s, pr, e.card) then None
      else
        var card := CardNamed(s, e, pr);
        if card.None? then Some(s.(prs := s.prs[pr := Pr(None, Open)]))
        else
          var linked := Linked(s, card.value, pr);
          if linked.None? then None
          else
            var t := CardLinkObserved(linked.value, card.value);
            Some(t.(prs := t.prs[pr := Pr(card, Open)]))
  }

  function FoldClosed(s: State, e: Event): Option<State>
    requires e.PrClosed?
  {
    if e.pr.None? || e.merged.None? then None
    else if e.pr.value !in s.prs || s.prs[e.pr.value].state == Merged then None
    else
      var pr, known := e.pr.value, s.prs[e.pr.value];
      var t := s.(prs := s.prs[pr := known.(state := if e.merged.value then Merged else Closed)]);
      Some(if e.merged.value && known.card.Some? then CardPrMerged(t, known.card.value) else t)
  }

  function FoldOpened(s: State, e: Event, reading: Reading): Option<State>
    requires e.PrOpened?
  {
    if e.pr.None? || e.card.None? || OfAnotherCard(s, e.pr.value, e.card) then None
    else
      var pr, card := e.pr.value, e.card.value;
      var linked := Linked(s, card, pr);
      if linked.None? then None
      else
        var moved := CardPrOpened(linked.value, card, pr, PrOf(s, card), e.carries, reading);
        if moved.None? then None
        else if pr in s.prs then Some(moved.value.(prs := moved.value.prs[pr := moved.value.prs[pr].(card := Some(card))]))
        else moved
  }

  ghost function Fold(s: State, e: Event, reading: Reading): Option<State> {
    match e
    case OfTask(_) => Some(s)
    case PrObserved(_, _, _, _) => FoldObserved(s, e)
    case PrClosed(_, _) => FoldClosed(s, e)
    case PrOpened(_, _, _) => FoldOpened(s, e, reading)
    case _ => FoldMove(s, e, reading)
  }

  /** A rejected event leaves no trace in the tables. */
  ghost function Folded(s: State, e: Event, reading: Reading): State {
    var r := Fold(s, e, reading);
    if r.Some? then r.value else s
  }

  // ---------- one live pull request per card ----------

  predicate LiveOf(s: State, pr: nat, card: nat) {
    pr in s.prs && s.prs[pr].state != Closed && s.prs[pr].card == Some(card)
  }

  /** A card is linked to its open or merged pull request. */
  ghost predicate LinkedToTheLive(s: State) {
    forall pr: nat, card: nat :: LiveOf(s, pr, card) ==> PrOf(s, card) == Some(pr)
  }

  /** The merge of a pull request that was closed before, whose card has been linked to another since. */
  predicate MergesLate(s: State, e: Event) {
    && e.PrClosed? && e.pr.Some? && e.merged == Some(true)
    && e.pr.value in s.prs && s.prs[e.pr.value].state == Closed
    && s.prs[e.pr.value].card.Some? && PrOf(s, s.prs[e.pr.value].card.value) != e.pr
  }

  lemma NoTwoLive(s: State, card: nat, p: nat, q: nat)
    requires LinkedToTheLive(s) && LiveOf(s, p, card) && LiveOf(s, q, card)
    ensures p == q
  {
  }

  /** Linking a card takes a link away only from a closed pull request. */
  lemma LinkKeepsTheLive(s: State, card: nat, pr: nat)
    requires LinkedToTheLive(s) && Linked(s, card, pr).Some?
    ensures PrOf(Linked(s, card, pr).value, card) == Some(pr)
    ensures forall c: nat :: c != card ==> PrOf(Linked(s, card, pr).value, c) == PrOf(s, c)
    ensures forall p: nat :: LiveOf(s, p, card) ==> p == pr
  {
  }

  lemma MovesKeepLinks(s: State, e: Event, reading: Reading)
    requires !e.OfTask? && !e.PrClosed? && !e.PrObserved? && !e.PrOpened? && FoldMove(s, e, reading).Some?
    ensures FoldMove(s, e, reading).value.prs == s.prs
    ensures forall c :: PrOf(FoldMove(s, e, reading).value, c) == PrOf(s, c)
  {
  }

  /** Linking a card and writing the row of that pull request alone. */
  lemma RewritingKeepsLive(s: State, t: State, pr: nat, card: nat)
    requires LinkedToTheLive(s) && Linked(s, card, pr).Some?
    requires forall c :: PrOf(t, c) == PrOf(Linked(s, card, pr).value, c)
    requires forall p :: p != pr ==> (p in t.prs <==> p in s.prs) && (p in t.prs ==> t.prs[p] == s.prs[p])
    requires pr in t.prs ==> t.prs[pr].card == Some(card)
    ensures LinkedToTheLive(t)
  {
    LinkKeepsTheLive(s, card, pr);
    forall p: nat, c: nat | LiveOf(t, p, c) ensures PrOf(t, c) == Some(p) {
      if p != pr {
        assert LiveOf(s, p, c);
        assert c != card;
      }
    }
  }

  lemma ObservedKeepsLive(s: State, e: Event)
    requires LinkedToTheLive(s) && e.PrObserved? && FoldObserved(s, e).Some?
    ensures LinkedToTheLive(FoldObserved(s, e).value)
  {
    var pr, t := e.pr.value, FoldObserved(s, e).value;
    var card := CardNamed(s, e, pr);
    if card.Some? {
      LinkKeepsTheLive(s, card.value, pr);
      RewritingKeepsLive(s, t, pr, card.value);
    } else {
      assert forall c :: PrOf(t, c) == PrOf(s, c);
      assert forall p: nat, c: nat :: LiveOf(t, p, c) ==> LiveOf(s, p, c);
    }
  }

  lemma OpenedKeepsLive(s: State, e: Event, reading: Reading)
    requires LinkedToTheLive(s) && e.PrOpened? && FoldOpened(s, e, reading).Some?
    ensures LinkedToTheLive(FoldOpened(s, e, reading).value)
  {
    var pr, t := e.pr.value, FoldOpened(s, e, reading).value;
    LinkKeepsTheLive(s, e.card.value, pr);
    RewritingKeepsLive(s, t, pr, e.card.value);
  }

  lemma ClosedKeepsLive(s: State, e: Event)
    requires LinkedToTheLive(s) && e.PrClosed? && FoldClosed(s, e).Some?
    ensures LinkedToTheLive(FoldClosed(s, e).value) <==> !MergesLate(s, e)
  {
    var pr, t := e.pr.value, FoldClosed(s, e).value;
    assert forall c :: PrOf(t, c) == PrOf(s, c);
    if MergesLate(s, e) {
      assert LiveOf(t, pr, s.prs[pr].card.value);
    } else {
      forall p: nat, card: nat | LiveOf(t, p, card) ensures PrOf(t, card) == Some(p) {
        assert p != pr ==> LiveOf(s, p, card);
        assert p == pr && s.prs[pr].state == Open ==> LiveOf(s, pr, card);
      }
    }
  }

  /** One event keeps every live pull request linked from its card, exactly unless it is a late merge. */
  lemma FoldKeepsLive(s: State, e: Event, reading: Reading)
    requires LinkedToTheLive(s)
    ensures LinkedToTheLive(Folded(s, e, reading)) <==> !MergesLate(s, e)
  {
    if Fold(s, e, reading).Some? {
      if e.PrObserved? {
        ObservedKeepsLive(s, e);
      } else if e.PrClosed? {
        ClosedKeepsLive(s, e);
      } else if e.PrOpened? {
        OpenedKeepsLive(s, e, reading);
      } else if !e.OfTask? {
        MovesKeepLinks(s, e, reading);
        assert forall p, card :: LiveOf(Folded(s, e, reading), p, card) ==> LiveOf(s, p, card);
      }
    }
  }

  /** A pull request once known stays known, its card never changes once set, and merged is final. */
  lemma PullRequestsGrow(s: State, e: Event, reading: Reading, pr: nat)
    requires pr in s.prs
    ensures var t := Folded(s, e, reading);
            && pr in t.prs
            && (s.prs[pr].card.Some? ==> t.prs[pr].card == s.prs[pr].card)
            && (s.prs[pr].state == Merged ==> t.prs[pr].state == Merged)
  {
    if Fold(s, e, reading).Some? {
      if e.PrObserved? {
        assert e.pr == Some(pr) && s.prs[pr].card.Some? ==> CardNamed(s, e, pr) == s.prs[pr].card;
      } else if !e.OfTask? && !e.PrClosed? && !e.PrOpened? {
        MovesKeepLinks(s, e, reading);
      }
    }
  }

  // ---------- runs ----------

  const NO_TASK_EVENT :=
    Tasks.Event(Tasks.Other, "", Tasks.Subject("", 0, None, None), 0, 0, "", false, Tasks.Text(""))

  /** The log as the task folds see it. */
  ghost function TaskLog(log: seq<Event>): (r: seq<Tasks.Event>)
    ensures |r| == |log|
    ensures forall i :: 0 <= i < |log| ==> r[i] == if log[i].OfTask? then log[i].task else NO_TASK_EVENT
  {
    seq(|log|, i requires 0 <= i < |log| => if log[i].OfTask? then log[i].task else NO_TASK_EVENT)
  }

  /** The reason the last card.stopped of the card names, whether or not its fold took it. */
  ghost function LastStop(log: seq<Event>, card: nat, n: nat): Option<StopReason>
    requires n <= |log|
  {
    if n == 0 then None
    else if log[n - 1].Stopped? && log[n - 1].card == Some(card) then log[n - 1].reason
    else LastStop(log, card, n - 1)
  }

  ghost predicate IsLaunch(tasks: Tasks.Table, card: nat, key: string) {
    key in tasks && tasks[key].subject.queue == "launch" && tasks[key].subject.card == card
  }

  ghost predicate IsCurrentLaunch(tasks: Tasks.Table, card: nat, key: string) {
    IsLaunch(tasks, card, key) && forall k :: IsLaunch(tasks, card, k) ==> tasks[k].eventId <= tasks[key].eventId
  }

  ghost function CurrentLaunch(tasks: Tasks.Table, card: nat): Option<Launch> {
    if key :| IsCurrentLaunch(tasks, card, key) then Some(Launch(key, tasks[key].state == Tasks.Leased, tasks[key].gen)) else None
  }

  ghost function ReadingAt(log: seq<Event>, n: nat): Reading
    requires n < |log|
  {
    var e := log[n];
    if e.OfTask? || e.PrClosed? || e.card.None? then Reading(None, None)
    else Reading(LastStop(log, e.card.value, n), CurrentLaunch(Tasks.Replay(TaskLog(log), n), e.card.value))
  }

  ghost function StateAt(log: seq<Event>, n: nat): State
    requires n <= |log|
  {
    if n == 0 then State(map[], map[]) else Folded(StateAt(log, n - 1), log[n - 1], ReadingAt(log, n - 1))
  }

  /** Every close of a pull request is written under the one key `pr:N:closed`, so the log holds one. */
  ghost predicate OneClosePerPr(log: seq<Event>) {
    forall i, j :: 0 <= i < j < |log| && log[i].PrClosed? && log[j].PrClosed? ==> log[i].pr.None? || log[i].pr != log[j].pr
  }

  ghost predicate ClosedBefore(log: seq<Event>, n: nat, pr: nat)
    requires n <= |log|
  {
    exists i :: 0 <= i < n && log[i].PrClosed? && log[i].pr == Some(pr)
  }

  lemma {:induction false} ClosedStemsFromAClose(log: seq<Event>, n: nat, pr: nat)
    requires n <= |log| && pr in StateAt(log, n).prs && StateAt(log, n).prs[pr].state == Closed
    ensures ClosedBefore(log, n, pr)
  {
    if n > 0 {
      var s, e, reading := StateAt(log, n - 1), log[n - 1], ReadingAt(log, n - 1);
      if e.PrClosed? && e.pr == Some(pr) {
        assert ClosedBefore(log, n, pr);
      } else {
        ClosedEarlier(s, e, reading, pr);
        ClosedStemsFromAClose(log, n - 1, pr);
        var i :| 0 <= i < n - 1 && log[i].PrClosed? && log[i].pr == Some(pr);
        assert ClosedBefore(log, n, pr);
      }
    }
  }

  lemma NoSecondClose(log: seq<Event>, n: nat, pr: nat)
    requires OneClosePerPr(log) && n < |log| && log[n].PrClosed? && log[n].pr == Some(pr)
    ensures !ClosedBefore(log, n, pr)
  {
  }

  lemma ClosedEarlier(s: State, e: Event, reading: Reading, pr: nat)
    requires pr in Folded(s, e, reading).prs && Folded(s, e, reading).prs[pr].state == Closed
    requires !(e.PrClosed? && e.pr == Some(pr))
    ensures pr in s.prs && s.prs[pr].state == Closed
  {
    if Fold(s, e, reading).Some? && !e.OfTask? && !e.PrClosed? && !e.PrOpened? && !e.PrObserved? {
      MovesKeepLinks(s, e, reading);
    }
  }

  /** In every in-order state a live pull request is the one its card is linked to, so no card has two. */
  lemma {:induction false} LiveIsLinked(log: seq<Event>, n: nat)
    requires OneClosePerPr(log) && n <= |log|
    ensures LinkedToTheLive(StateAt(log, n))
  {
    if n > 0 {
      LiveIsLinked(log, n - 1);
      var s, e := StateAt(log, n - 1), log[n - 1];
      FoldKeepsLive(s, e, ReadingAt(log, n - 1));
      if MergesLate(s, e) {
        ClosedStemsFromAClose(log, n - 1, e.pr.value);
        NoSecondClose(log, n - 1, e.pr.value);
        assert false;
      }
    }
  }

  lemma OneLivePerCard(log: seq<Event>, n: nat, card: nat, p: nat, q: nat)
    requires OneClosePerPr(log) && n <= |log|
    requires LiveOf(StateAt(log, n), p, card) && LiveOf(StateAt(log, n), q, card)
    ensures p == q
  {
    LiveIsLinked(log, n);
    NoTwoLive(StateAt(log, n), card, p, q);
  }

  /** The card of a pull request and its merge outlast every later event. */
  lemma {:induction false} PullRequestsKeep(log: seq<Event>, m: nat, n: nat, pr: nat)
    requires m <= n <= |log| && pr in StateAt(log, m).prs
    ensures pr in StateAt(log, n).prs
    ensures StateAt(log, m).prs[pr].card.Some? ==> StateAt(log, n).prs[pr].card == StateAt(log, m).prs[pr].card
    ensures StateAt(log, m).prs[pr].state == Merged ==> StateAt(log, n).prs[pr].state == Merged
    decreases n
  {
    if m < n {
      PullRequestsKeep(log, m, n - 1, pr);
      PullRequestsGrow(StateAt(log, n - 1), log[n - 1], ReadingAt(log, n - 1), pr);
    }
  }

  function Observing(pr: nat, card: nat): Event {
    PrObserved(Some(pr), Some(card), None, true)
  }

  function Closing(pr: nat, merged: bool): Event {
    PrClosed(Some(pr), Some(merged))
  }

  lemma ObservingOpens(s: State, pr: nat, card: nat, reading: Reading)
    requires pr !in s.prs && !LinkRefused(s, card)
    ensures Folded(s, Observing(pr, card), reading).prs == s.prs[pr := Pr(Some(card), Open)]
    ensures PrOf(Folded(s, Observing(pr, card), reading), card) == Some(pr)
  {
  }

  lemma ClosingCloses(s: State, pr: nat, merged: bool, reading: Reading)
    requires pr in s.prs && s.prs[pr].state != Merged
    ensures Folded(s, Closing(pr, merged), reading).prs == s.prs[pr := s.prs[pr].(state := if merged then Merged else Closed)]
    ensures forall card :: PrOf(Folded(s, Closing(pr, merged), reading), card) == PrOf(s, card)
  {
  }

  /** With two closes of one pull request in the log: it is closed, its card moves on to a second one, and its
      merge leaves the card with a merged and an open pull request. */
  lemma TwoClosesTwoLive() returns (log: seq<Event>)
    ensures !OneClosePerPr(log)
    ensures LiveOf(StateAt(log, |log|), 1, 7) && LiveOf(StateAt(log, |log|), 2, 7)
  {
    log := [Observing(1, 7), Closing(1, false), Observing(2, 7), Closing(1, true)];
    assert log[1].PrClosed? && log[3].PrClosed? && log[1].pr == log[3].pr;
    ObservingOpens(StateAt(log, 0), 1, 7, ReadingAt(log, 0));
    ClosingCloses(StateAt(log, 1), 1, false, ReadingAt(log, 1));
    ObservingOpens(StateAt(log, 2), 2, 7, ReadingAt(log, 2));
    ClosingCloses(StateAt(log, 3), 1, true, ReadingAt(log, 3));
  }

  // ---------- a card stopped by a fault ----------

  ghost predicate FaultStopped(log: seq<Event>, n: nat, card: nat)
    requires n <= |log|
  {
    StateOf(StateAt(log, n), card) == Some(StoppedCard) && LastStop(log, card, n) == Some(Fault)
  }

  /** The event starts the card, or opens a pull request that does not relink it. */
  ghost predicate BringsBack(log: seq<Event>, n: nat, card: nat)
    requires n < |log|
  {
    var e := log[n];
    || (e.Started? && e.card == Some(card))
    || (e.PrOpened? && e.card == Some(card) && (PrOf(StateAt(log, n), card).Some? ==> PrOf(StateAt(log, n), card) == e.pr))
  }

  /** A start brings a fault-stopped card back exactly when it carries the generation of its current launch, and
      else it is rejected. */
  lemma StartRestores(log: seq<Event>, n: nat, card: nat)
    requires n < |log| && FaultStopped(log, n, card) && log[n].Started? && log[n].card == Some(card)
    ensures var restored := RestoresFromFault(log[n].carries, ReadingAt(log, n));
            && (restored ==> StateAt(log, n + 1) == Move(StateAt(log, n), card, Running))
            && (!restored ==> StateAt(log, n + 1) == StateAt(log, n))
  {
  }

  /** So does a pull request that does not relink the card, unless it belongs to another card. */
  lemma OpeningRestores(log: seq<Event>, n: nat, card: nat)
    requires n < |log| && FaultStopped(log, n, card) && log[n].PrOpened? && BringsBack(log, n, card)
    ensures var restored := RestoresFromFault(log[n].carries, ReadingAt(log, n))
                            && log[n].pr.Some? && !OfAnotherCard(StateAt(log, n), log[n].pr.value, Some(card));
            && (restored ==> StateOf(StateAt(log, n + 1), card) == Some(InReview) && PrOf(StateAt(log, n + 1), card) == log[n].pr)
            && (!restored ==> StateAt(log, n + 1) == StateAt(log, n))
  {
  }

  /** Every launch of the card runs under one task. */
  ghost predicate OneLaunchTask(tasks: Tasks.Table, card: nat, key: string) {
    IsLaunch(tasks, card, key) && forall k :: IsLaunch(tasks, card, k) ==> k == key
  }

  lemma TheOneLaunch(tasks: Tasks.Table, card: nat, key: string)
    requires OneLaunchTask(tasks, card, key)
    ensures CurrentLaunch(tasks, card) == Some(Launch(key, tasks[key].state == Tasks.Leased, tasks[key].gen))
  {
    assert IsCurrentLaunch(tasks, card, key);
  }

  lemma EarlierIsNotCurrent(log: seq<Event>, m: nat, n: nat, card: nat, key: string)
    requires m < n < |log| && BringsBack(log, n, card)
    requires OneLaunchTask(Tasks.Replay(TaskLog(log), n), card, key) && Tasks.GrantAt(TaskLog(log), key, m)
    requires log[n].carries.gen.Some? && 0 < log[n].carries.gen.value < TaskLog(log)[m].gen
    ensures !RestoresFromFault(log[n].carries, ReadingAt(log, n))
  {
    TheOneLaunch(Tasks.Replay(TaskLog(log), n), card, key);
    LaterGeneration(TaskLog(log), m, n, key);
  }

  lemma LaterGeneration(log: seq<Tasks.Event>, m: nat, n: nat, key: string)
    requires m < n <= |log| && Tasks.GrantAt(log, key, m) && key in Tasks.Replay(log, n)
    ensures log[m].gen <= Tasks.Replay(log, n)[key].gen
  {
    Tasks.OneEvent(log, key, m);
    Tasks.GenerationsGrow(log, key, m + 1, n);
  }

  /** While every launch of a fault-stopped card runs under one task: once that task is leased under a generation,
      no start and no opening that keeps its link moves the card under an earlier one, however much later it comes. */
  lemma EarlierLaunchMovesNothing(log: seq<Event>, m: nat, n: nat, card: nat, key: string)
    requires m < n < |log| && FaultStopped(log, n, card) && BringsBack(log, n, card)
    requires OneLaunchTask(Tasks.Replay(TaskLog(log), n), card, key) && Tasks.GrantAt(TaskLog(log), key, m)
    requires log[n].carries.gen.Some? && 0 < log[n].carries.gen.value < TaskLog(log)[m].gen
    ensures StateAt(log, n + 1) == StateAt(log, n)
  {
    EarlierIsNotCurrent(log, m, n, card, key);
    if log[n].Started? {
      StartRestores(log, n, card);
    } else {
      OpeningRestores(log, n, card);
    }
  }

  // ---------- two launch tasks ----------

  const CARD: nat := 7
  const FIRST_LAUNCH := "launch:7:a"
  const SECOND_LAUNCH := "launch:7:b"

  function LaunchEvent(kind: Tasks.Kind, key: string, gen: nat, dedupe: Tasks.Dedupe): Event {
    OfTask(Tasks.Event(kind, key, Tasks.Subject("launch", CARD, None, None), gen, 0, "policy", true, dedupe))
  }

  /** Both tasks of the card are leased for the first time, the card stops by a fault in between, and then comes a
      start that the first launch wrote. */
  function TwoLaunches(): seq<Event> {
    [ LaunchEvent(Tasks.Enqueue, FIRST_LAUNCH, 0, Tasks.EnqueuedOnce(FIRST_LAUNCH)),
      LaunchEvent(Tasks.Lease, FIRST_LAUNCH, 1, Tasks.LeasedOnce(FIRST_LAUNCH, 1)),
      Stopped(Some(CARD), Some(Fault)),
      LaunchEvent(Tasks.Enqueue, SECOND_LAUNCH, 0, Tasks.EnqueuedOnce(SECOND_LAUNCH)),
      LaunchEvent(Tasks.Lease, SECOND_LAUNCH, 1, Tasks.LeasedOnce(SECOND_LAUNCH, 1)),
      Started(Some(CARD), Carried(Some(1), Some(FIRST_LAUNCH))) ]
  }

  lemma TwoRows()
    ensures var tasks := Tasks.Replay(TaskLog(TwoLaunches()), 5);
            && tasks.Keys == {FIRST_LAUNCH, SECOND_LAUNCH}
            && tasks[FIRST_LAUNCH].eventId == 2 && tasks[SECOND_LAUNCH].eventId == 5
            && tasks[SECOND_LAUNCH].gen == 1 && tasks[FIRST_LAUNCH].subject == tasks[SECOND_LAUNCH].subject == Tasks.Subject("launch", CARD, None, None)
  {
    var log := TaskLog(TwoLaunches());
    assert FIRST_LAUNCH[9] != SECOND_LAUNCH[9];
    assert Tasks.Replay(log, 0) == map[];
    Enqueues(log, 0, FIRST_LAUNCH);
    Leases(log, 1, FIRST_LAUNCH);
    assert Tasks.Replay(log, 3) == Tasks.Replay(log, 2);
    Enqueues(log, 3, SECOND_LAUNCH);
    Leases(log, 4, SECOND_LAUNCH);
  }

  lemma Enqueues(log: seq<Tasks.Event>, n: nat, key: string)
    requires n < |log| && log[n].kind.Enqueue? && log[n].key == key && log[n].accepted && key !in Tasks.Replay(log, n)
    ensures Tasks.Replay(log, n + 1).Keys == Tasks.Replay(log, n).Keys + {key}
    ensures var row := Tasks.Replay(log, n + 1)[key]; row.state == Tasks.Queued && row.gen == 0 && row.subject == log[n].subject
    ensures forall k :: k in Tasks.Replay(log, n) ==> Tasks.Replay(log, n + 1)[k] == Tasks.Replay(log, n)[k]
  {
  }

  lemma Leases(log: seq<Tasks.Event>, n: nat, key: string)
    requires n < |log| && log[n].kind.Lease? && log[n].key == key && log[n].accepted && log[n].gen == 1
    requires key in Tasks.Replay(log, n) && Tasks.Replay(log, n)[key].state == Tasks.Queued && Tasks.Replay(log, n)[key].gen == 0
    ensures Tasks.Replay(log, n + 1).Keys == Tasks.Replay(log, n).Keys
    ensures var row := Tasks.Replay(log, n + 1)[key]; row.gen == 1 && row.eventId == n + 1 && row.subject == Tasks.Replay(log, n)[key].subject
    ensures forall k :: k in Tasks.Replay(log, n) && k != key ==> Tasks.Replay(log, n + 1)[k] == Tasks.Replay(log, n)[k]
  {
  }

  lemma SecondIsCurrent()
    ensures CurrentLaunch(Tasks.Replay(TaskLog(TwoLaunches()), 5), CARD).Some?
    ensures CurrentLaunch(Tasks.Replay(TaskLog(TwoLaunches()), 5), CARD).value.gen == 1
  {
    hide TaskLog, Tasks.Replay;
    var tasks := Tasks.Replay(TaskLog(TwoLaunches()), 5);
    TwoRows();
    assert IsLaunch(tasks, CARD, SECOND_LAUNCH) && IsLaunch(tasks, CARD, FIRST_LAUNCH);
    assert IsCurrentLaunch(tasks, CARD, SECOND_LAUNCH);
    assert !IsCurrentLaunch(tasks, CARD, FIRST_LAUNCH);
  }

  lemma StoppedAtFive()
    ensures FaultStopped(TwoLaunches(), 5, CARD)
  {
    hide TaskLog, CurrentLaunch, Tasks.Replay;
    var log := TwoLaunches();
    assert StateAt(log, 2) == StateAt(log, 1) == StateAt(log, 0);
    assert StateAt(log, 3) == Move(StateAt(log, 0), CARD, StoppedCard);
    assert StateAt(log, 5) == StateAt(log, 4) == StateAt(log, 3);
    assert LastStop(log, CARD, 5) == LastStop(log, CARD, 4) == LastStop(log, CARD, 3) == Some(Fault);
  }

  /** Only numbers are compared: the start of the first launch brings the card back under the second. */
  lemma AnotherLaunchRestores()
    ensures FaultStopped(TwoLaunches(), 5, CARD) && StateAt(TwoLaunches(), 6) == Move(StateAt(TwoLaunches(), 5), CARD, Running)
  {
    hide StateAt, TaskLog, CurrentLaunch, FaultStopped, LastStop, Tasks.Replay;
    SecondIsCurrent();
    StoppedAtFive();
    StartRestores(TwoLaunches(), 5, CARD);
  }
}
