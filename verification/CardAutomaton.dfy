/** The automaton of the cards as a relation, apart from the folds that walk it: which events move a card from which
    state to which, when an event is refused, and what becomes of the pull requests. scripts/core/card-automaton.ts,
    scripts/core/reducer.ts. */
module CardAutomaton {
  import opened Options
  import opened Cards

  predicate Within(state: Option<CardState>, states: set<CardState>) {
    state.Some? && state.value in states
  }

  /** The edges. open says that the card is linked to an open pull request. */
  predicate Edge(e: Event, before: Option<CardState>, open: bool, after: CardState) {
    match e
    case OfTask(_) => false
    case PrObserved(_, _, _, _) => (before.None? || Within(before, {Queued, Running, Fallen, Deferred})) && after == InReview
    case PrClosed(_, merged) => merged == Some(true) && before != Some(ClosedCard) && after == MergedCard
    case PrOpened(_, _, _) => after == InReview
    case Started(_, _) => Within(before, {Queued, StoppedCard}) && after == Running
    case Stopped(_, _) => before != Some(ClosedCard) && after == StoppedCard
    case Admitted(_, backfill, inJournal) =>
      && !backfill && (before.None? || Within(before, {Queued, Fallen, StoppedCard, ClosedCard, Dropped}))
      && after == (if inJournal then MergedCard else Queued)
    case ReviewRecorded(_, pass) => Within(before, {InReview, Changes, Ready}) && after == (if pass then Ready else Changes)
    case MergeDone(_) => before != Some(ClosedCard) && after == MergedCard
    case Answered(_) => Within(before, {StoppedCard, Changes, InReview}) && after == (if open then InReview else Queued)
    case CardClosed(_, _) => after == ClosedCard
    case Fell(_) => Within(before, {Running, InReview, Changes}) && after == Fallen
    case LaneMoved(_, terminal) =>
      if terminal && !Within(before, {MergedCard, ClosedCard, Dropped}) then after == Dropped
      else before == Some(Deferred) && after == (if open then InReview else Queued)
    case Deferring(_) => !Within(before, {MergedCard, ClosedCard, Dropped}) && after == Deferred
    case Dropping(_, _) => !Within(before, {MergedCard, ClosedCard, Dropped}) && after == Dropped
  }

  ghost predicate HasEdge(e: Event, before: Option<CardState>, open: bool) {
    exists after :: Edge(e, before, open, after)
  }

  predicate OpenLink(s: State, card: nat) {
    && card in s.cards && s.cards[card].pr.Some? && s.cards[card].pr.value in s.prs
    && s.prs[s.cards[card].pr.value].state == Open
  }

  /** The event is about the card: it names it, or the pull request it is about is of the card afterwards. */
  predicate About(e: Event, after: State, card: nat) {
    match e
    case OfTask(_) => false
    case PrObserved(pr, _, _, _) => pr.Some? && pr.value in after.prs && after.prs[pr.value].card == Some(card)
    case PrClosed(pr, _) => pr.Some? && pr.value in after.prs && after.prs[pr.value].card == Some(card)
    case _ => e.card == Some(card)
  }

  /** A card is where the one edge of the event leads, or where it was if there is none or the event is not about it. */
  ghost predicate TakesItsEdge(s: State, e: Event, t: State, card: nat) {
    var before, after, open := StateOf(s, card), StateOf(t, card), OpenLink(s, card);
    if About(e, t, card) && HasEdge(e, before, open) then after.Some? && Edge(e, before, open, after.value) else after == before
  }

  lemma MoveTakes(s: State, e: Event, reading: Reading, card: nat)
    requires !e.OfTask? && !e.PrObserved? && !e.PrClosed? && !e.PrOpened? && FoldMove(s, e, reading).Some?
    ensures TakesItsEdge(s, e, FoldMove(s, e, reading).value, card)
  {
    var t := FoldMove(s, e, reading).value;
    if e.card == Some(card) && StateOf(t, card).Some? {
      var to := StateOf(t, card).value;
      assert Edge(e, StateOf(s, card), OpenLink(s, card), to) ==> HasEdge(e, StateOf(s, card), OpenLink(s, card));
    }
  }

  lemma ObservedTakes(s: State, e: Event, card: nat)
    requires e.PrObserved? && FoldObserved(s, e).Some?
    ensures TakesItsEdge(s, e, FoldObserved(s, e).value, card)
  {
    assert Edge(e, StateOf(s, card), OpenLink(s, card), InReview) ==> HasEdge(e, StateOf(s, card), OpenLink(s, card));
  }

  lemma ClosedTakes(s: State, e: Event, card: nat)
    requires e.PrClosed? && FoldClosed(s, e).Some?
    ensures TakesItsEdge(s, e, FoldClosed(s, e).value, card)
  {
    assert Edge(e, StateOf(s, card), OpenLink(s, card), MergedCard) ==> HasEdge(e, StateOf(s, card), OpenLink(s, card));
  }

  lemma OpenedTakes(s: State, e: Event, reading: Reading, card: nat)
    requires e.PrOpened? && FoldOpened(s, e, reading).Some?
    ensures TakesItsEdge(s, e, FoldOpened(s, e, reading).value, card)
  {
    assert Edge(e, StateOf(s, card), OpenLink(s, card), InReview);
  }

  /** Every event that a fold applies takes every card along its edge. */
  lemma AppliedTakes(s: State, e: Event, reading: Reading, card: nat)
    requires Fold(s, e, reading).Some?
    ensures TakesItsEdge(s, e, Fold(s, e, reading).value, card)
  {
    hide TakesItsEdge, FoldMove, FoldObserved, FoldClosed, FoldOpened;
    if e.PrObserved? {
      ObservedTakes(s, e, card);
    } else if e.PrClosed? {
      ClosedTakes(s, e, card);
    } else if e.PrOpened? {
      OpenedTakes(s, e, reading, card);
    } else if e.OfTask? {
      TaskTakesNone(s, e, card);
    } else {
      MoveTakes(s, e, reading, card);
    }
  }

  lemma TaskTakesNone(s: State, e: Event, card: nat)
    requires e.OfTask?
    ensures TakesItsEdge(s, e, s, card)
  {
  }

  /** In every in-order run: whenever the state of a card changes, the event is about it and the change is one of its
      edges; and an event that is applied takes the card along the edge there is. */
  lemma EveryStepIsAnEdge(log: seq<Event>, n: nat, card: nat)
    requires n < |log|
    ensures
      var s, t := StateAt(log, n), StateAt(log, n + 1);
      var before, after := StateOf(s, card), StateOf(t, card);
      && (after != before ==> after.Some? && About(log[n], t, card) && Edge(log[n], before, OpenLink(s, card), after.value))
      && (Fold(s, log[n], ReadingAt(log, n)).Some? ==> TakesItsEdge(s, log[n], t, card))
  {
    var s, e, reading := StateAt(log, n), log[n], ReadingAt(log, n);
    hide Fold, TakesItsEdge;
    if Fold(s, e, reading).Some? {
      AppliedTakes(s, e, reading, card);
      EdgeOrStays(s, e, StateAt(log, n + 1), card);
    }
  }

  lemma EdgeOrStays(s: State, e: Event, t: State, card: nat)
    requires TakesItsEdge(s, e, t, card)
    ensures StateOf(t, card) != StateOf(s, card) ==>
              StateOf(t, card).Some? && About(e, t, card) && Edge(e, StateOf(s, card), OpenLink(s, card), StateOf(t, card).value)
  {
  }

  // ---------- when an event is refused ----------

  /** The event runs under the current launch of the card: by the generation it carries, or else because it is the
      start of the launch that is leased. */
  predicate OfTheCurrentLaunch(carries: Carried, launch: Option<Launch>) {
    && launch.Some?
    && (if carries.gen.Some? && carries.gen.value > 0 then carries.gen.value == launch.value.gen
        else launch.value.leased && carries.startedKey == Some(launch.value.key))
  }

  /** The events that move a card by themselves, and what each of them asks. */
  lemma MoveAppliesIff(s: State, e: Event, reading: Reading)
    requires !e.OfTask? && !e.PrObserved? && !e.PrClosed? && !e.PrOpened?
    ensures
      FoldMove(s, e, reading).Some? <==>
      if e.card.None? then e.ReviewRecorded? || e.MergeDone?
      else
        var card := e.card.value;
        var state := StateOf(s, card);
        match e
        case Started(_, carries) =>
          if state == Some(StoppedCard) && reading.lastStop == Some(Fault) then OfTheCurrentLaunch(carries, reading.launch)
          else state == Some(Queued)
        case Stopped(_, reason) => reason.Some? && state != Some(ClosedCard)
        case Answered(_) => Within(state, {StoppedCard, Changes, InReview})
        case CardClosed(_, satisfied) =>
          satisfied || state == Some(MergedCard) || exists pr :: PrOf(s, card) == Some(pr) && pr in s.prs && s.prs[pr].state == Merged
        case Fell(_) => Within(state, {Running, InReview, Changes, Dropped, Deferred})
        case Dropping(_, wellFormed) => wellFormed
        case _ => true
  {
  }

  // ---------- pull requests ----------

  /** A close of a known pull request that is not merged closes it, or merges it and its card with it; no other card
      moves, and a close without a merge moves none. */
  lemma CloseSays(s: State, e: Event)
    requires e.PrClosed?
    ensures FoldClosed(s, e).Some? <==> e.pr.Some? && e.merged.Some? && e.pr.value in s.prs && s.prs[e.pr.value].state != Merged
    ensures FoldClosed(s, e).Some? ==>
              var t, pr := FoldClosed(s, e).value, e.pr.value;
              && t.prs == s.prs[pr := Pr(s.prs[pr].card, if e.merged.value then Merged else Closed)]
              && (forall c :: PrOf(t, c) == PrOf(s, c))
              && (forall c: nat :: StateOf(t, c) ==
                    if e.merged.value && s.prs[pr].card == Some(c) && StateOf(s, c) != Some(ClosedCard) then Some(MergedCard) else StateOf(s, c))
  {
  }

  /** Over every log: after an applied close with a merge the card of the pull request is merged, or closed if it was
      closed before; after one without a merge no card has moved. */
  lemma MergedCloseMergesTheCard(log: seq<Event>, n: nat, pr: nat, merged: bool)
    requires n < |log| && log[n] == PrClosed(Some(pr), Some(merged)) && Fold(StateAt(log, n), log[n], ReadingAt(log, n)).Some?
    ensures pr in StateAt(log, n + 1).prs && StateAt(log, n + 1).prs[pr].state == (if merged then Merged else Closed)
    ensures
      var s, t := StateAt(log, n), StateAt(log, n + 1);
      forall c: nat :: StateOf(t, c) ==
        if merged && t.prs[pr].card == Some(c) then (if StateOf(s, c) == Some(ClosedCard) then Some(ClosedCard) else Some(MergedCard))
        else StateOf(s, c)
  {
    hide FoldClosed;
    CloseSays(StateAt(log, n), log[n]);
  }

  /** The card is linked to another pull request, and that one is not known to be closed. */
  predicate TakenByAnother(s: State, card: nat, pr: nat) {
    && card in s.cards && s.cards[card].pr.Some? && s.cards[card].pr != Some(pr)
    && !(s.cards[card].pr.value in s.prs && s.prs[s.cards[card].pr.value].state == Closed)
  }

  /** An observation is refused for a merged pull request, for one of another card, and where it would take a card
      away from a pull request that is not closed. Else the pull request is open, and its card, when one is found, is
      linked to it. */
  lemma ObserveSays(s: State, e: Event)
    requires e.PrObserved?
    ensures
      var known := e.pr.Some? && e.pr.value in s.prs;
      FoldObserved(s, e).Some? <==>
      && e.pr.Some? && e.wellFormed
      && !(known && s.prs[e.pr.value].state == Merged)
      && !(known && s.prs[e.pr.value].card.Some? && e.card.Some? && s.prs[e.pr.value].card != e.card)
      && !(CardNamed(s, e, e.pr.value).Some? && TakenByAnother(s, CardNamed(s, e, e.pr.value).value, e.pr.value))
    ensures FoldObserved(s, e).Some? ==>
              var t, pr := FoldObserved(s, e).value, e.pr.value;
              && t.prs == s.prs[pr := Pr(CardNamed(s, e, pr), Open)]
              && forall c: nat :: PrOf(t, c) == if CardNamed(s, e, pr) == Some(c) then Some(pr) else PrOf(s, c)
  {
  }

  /** The card of an observation: the one it names, or the one the pull request has, or the first linked to it, or for a
      new pull request the one of its branch, unless that belongs to another. */
  lemma NamedInTurn(s: State, e: Event, pr: nat)
    requires e.PrObserved? && e.pr == Some(pr)
    ensures
      var named := CardNamed(s, e, pr);
      if e.card.Some? then named == e.card
      else if pr in s.prs && s.prs[pr].card.Some? then named == s.prs[pr].card
      else if exists c :: c in s.cards && s.cards[c].pr == Some(pr) then named.Some? && IsFirstWith(s, pr, named.value)
      else if pr !in s.prs && e.branchCard.Some? && !TakenByAnother(s, e.branchCard.value, pr) then named == e.branchCard
      else named.None?
  {
    var linked := CardOfPr(s, pr);
    if e.branchCard.Some? && linked.None? {
      assert PrOf(s, e.branchCard.value) != Some(pr);
    }
  }

  /** An opening links its card and moves it into review; it is refused for a pull request of another card, for a card
      taken by another pull request, and for a card that is not at work, unless it was linked to another one before,
      or a fault stopped it under the launch that opens. */
  lemma OpenSays(s: State, e: Event, reading: Reading)
    requires e.PrOpened?
    ensures FoldOpened(s, e, reading).Some? <==>
              && e.pr.Some? && e.card.Some?
              && !(e.pr.value in s.prs && s.prs[e.pr.value].card.Some? && s.prs[e.pr.value].card != e.card)
              && !TakenByAnother(s, e.card.value, e.pr.value)
              && (var state, linked := StateOf(s, e.card.value), PrOf(s, e.card.value);
                  || (linked.Some? && linked != e.pr)
                  || (linked == e.pr && state == Some(InReview))
                  || (if state == Some(StoppedCard) && reading.lastStop == Some(Fault) then OfTheCurrentLaunch(e.carries, reading.launch)
                      else state.None? || Within(state, {Queued, Running, Deferred})))
    ensures FoldOpened(s, e, reading).Some? ==>
              var t, pr, card := FoldOpened(s, e, reading).value, e.pr.value, e.card.value;
              && PrOf(t, card) == Some(pr) && StateOf(t, card) == Some(InReview)
              && (forall c: nat :: c != card ==> PrOf(t, c) == PrOf(s, c) && StateOf(t, c) == StateOf(s, c))
              && t.prs == if pr in s.prs then s.prs[pr := Pr(Some(card), s.prs[pr].state)] else s.prs
  {
  }
}
