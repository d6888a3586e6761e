/** The cards and prs tables and the folds that overwrite their rows: scripts/core/reducer.ts and
    scripts/core/card-automaton.ts. A fold answers false where the program throws a rejection. */
module CardDb {
  import opened Options
  import opened Cards

  class Db {
    var cards: map<nat, Card>
    var prs: map<nat, Pr>

    ghost function View(): State
      reads this
    {
      State(cards, prs)
    }

    constructor ()
      ensures View() == State(map[], map[])
    {
      cards, prs := map[], map[];
    }

    /** moveCard */
    method MoveCard(card: nat, state: CardState)
      modifies this`cards
      ensures View() == Move(old(View()), card, state)
    {
      var linked := if card in cards then cards[card].pr else None;
      cards := cards[card := Card(Some(state), linked)];
    }

    /** cardOfPr: a scan of the table by card. */
    method FirstCardOf(pr: nat) returns (first: Option<nat>)
      ensures first == CardOfPr(View(), pr)
    {
      first := None;
      var left := cards.Keys;
      while left != {}
        invariant left <= cards.Keys
        invariant first.None? ==> forall c :: c in cards.Keys - left ==> cards[c].pr != Some(pr)
        invariant first.Some? ==> first.value in cards && cards[first.value].pr == Some(pr)
        invariant first.Some? ==> forall c :: c in cards.Keys - left && cards[c].pr == Some(pr) ==> first.value <= c
      {
        var card :| card in left;
        if cards[card].pr == Some(pr) && (first.None? || card < first.value) {
          first := Some(card);
        }
        left := left - {card};
      }
      assert first.Some? ==> IsFirstWith(View(), pr, first.value);
    }

    /** linkRefusal and linkCard */
    method LinkCard(card: nat, pr: nat) returns (ok: bool)
      modifies this`cards
      ensures ok <==> Linked(old(View()), card, pr).Some?
      ensures View() == if ok then Linked(old(View()), card, pr).value else old(View())
    {
      var linked := if card in cards then cards[card].pr else None;
      if linked == Some(pr) {
        return true;
      }
      if linked.Some? && (linked.value !in prs || prs[linked.value].state != Closed) {
        return false;
      }
      cards := cards[card := Card(if card in cards then cards[card].state else None, Some(pr))];
      return true;
    }

    /** cardLinkObserved */
    method LinkIsObserved(card: nat)
      modifies this`cards
      ensures View() == CardLinkObserved(old(View()), card)
    {
      if card !in cards || LinkedIntoReview(cards[card].state) {
        MoveCard(card, InReview);
      }
    }

    /** prObserved */
    method ObservePr(e: Event) returns (ok: bool)
      requires e.PrObserved?
      modifies this
      ensures ok <==> FoldObserved(old(View()), e).Some?
      ensures ok ==> View() == FoldObserved(old(View()), e).value
    {
      if e.pr.None? || !e.wellFormed {
        return false;
      }
      var pr := e.pr.value;
      var known := if pr in prs then Some(prs[pr]) else None;
      if known.Some? && known.value.state == Merged {
        return false;
      }
      if known.Some? && known.value.card.Some? && e.card.Some? && known.value.card != e.card {
        return false;
      }
      var card := e.card;
      if card.None? && known.Some? {
        card := known.value.card;
      }
      if card.None? {
        card := FirstCardOf(pr);
      }
      if card.None? && known.None? && e.branchCard.Some? {
        var linked := if e.branchCard.value in cards then cards[e.branchCard.value].pr else None;
        if linked.None? || (linked.value in prs && prs[linked.value].state == Closed) {
          card := e.branchCard;
        }
      }
      assert card == CardNamed(View(), e, pr);
      if card.Some? {
        var linked := LinkCard(card.value, pr);
        if !linked {
          return false;
        }
        LinkIsObserved(card.value);
      }
      prs := prs[pr := Pr(card, Open)];
      return true;
    }

    /** prClosed */
    method ClosePr(e: Event) returns (ok: bool)
      requires e.PrClosed?
      modifies this
      ensures ok <==> FoldClosed(old(View()), e).Some?
      ensures ok ==> View() == FoldClosed(old(View()), e).value
    {
      if e.pr.None? || e.merged.None? || e.pr.value !in prs || prs[e.pr.value].state == Merged {
        return false;
      }
      var pr, known := e.pr.value, prs[e.pr.value];
      prs := prs[pr := known.(state := if e.merged.value then Merged else Closed)];
      if e.merged.value && known.card.Some? {
        MergeCard(known.card.value);
      }
      return true;
    }

    /** cardPrMerged */
    method MergeCard(card: nat)
      modifies this`cards
      ensures View() == CardPrMerged(old(View()), card)
    {
      if card !in cards || cards[card].state != Some(ClosedCard) {
        MoveCard(card, MergedCard);
      }
    }

    /** cardPrOpened */
    method OpenOnCard(card: nat, pr: nat, before: Option<nat>, carries: Carried, reading: Reading) returns (ok: bool)
      modifies this`cards
      ensures ok <==> CardPrOpened(old(View()), card, pr, before, carries, reading).Some?
      ensures ok ==> View() == CardPrOpened(old(View()), card, pr, before, carries, reading).value
    {
      var state := if card in cards then cards[card].state else None;
      if before == Some(pr) && state == Some(InReview) {
        return true;
      }
      var relinked := before.Some? && before != Some(pr);
      if !relinked && state == Some(StoppedCard) && reading.lastStop == Some(Fault) {
        if !RestoresFromFault(carries, reading) {
          return false;
        }
      } else if !relinked && !OpensAPullRequest(state) {
        return false;
      }
      MoveCard(card, InReview);
      return true;
    }

    /** prOpened: it may link the card and still be refused, which the rollback undoes. */
    method OpenPr(e: Event, reading: Reading) returns (ok: bool)
      requires e.PrOpened?
      modifies this
      ensures ok <==> FoldOpened(old(View()), e, reading).Some?
      ensures ok ==> View() == FoldOpened(old(View()), e, reading).value
    {
      if e.pr.None? || e.card.None? {
        return false;
      }
      var pr, card := e.pr.value, e.card.value;
      if pr in prs && prs[pr].card.Some? && prs[pr].card != e.card {
        return false;
      }
      var before := if card in cards then cards[card].pr else None;
      var linked := LinkCard(card, pr);
      if !linked {
        return false;
      }
      var moved := OpenOnCard(card, pr, before, e.carries, reading);
      if !moved {
        return false;
      }
      if pr in prs {
        prs := prs[pr := prs[pr].(card := Some(card))];
      }
      return true;
    }

    /** claimed */
    method Claim(card: nat, allowed: bool, next: CardState) returns (ok: bool)
      modifies this`cards
      ensures ok == allowed
      ensures ok ==> Some(View()) == Claimed(old(View()), card, allowed, next)
    {
      if allowed {
        MoveCard(card, next);
      }
      return allowed;
    }

    /** foldStarted */
    method StartCard(card: nat, carries: Carried, reading: Reading) returns (ok: bool)
      modifies this`cards
      ensures ok <==> FoldStarted(old(View()), card, carries, reading).Some?
      ensures ok ==> View() == FoldStarted(old(View()), card, carries, reading).value
    {
      var state := if card in cards then cards[card].state else None;
      if state != Some(StoppedCard) || reading.lastStop != Some(Fault) {
        ok := Claim(card, state == Some(Queued), Running);
      } else {
        ok := Claim(card, RestoresFromFault(carries, reading), Running);
      }
    }

    /** backInWork */
    method WorkState(card: nat) returns (state: CardState)
      ensures state == BackInWork(View(), card)
    {
      if card in cards && cards[card].pr.Some? && cards[card].pr.value in prs && prs[cards[card].pr.value].state == Open {
        return InReview;
      }
      return Queued;
    }

    /** foldStopped to foldDropped: the folds that move their card and touch no link. */
    method MoveFold(e: Event, reading: Reading) returns (ok: bool)
      requires !e.OfTask? && !e.PrObserved? && !e.PrClosed? && !e.PrOpened?
      modifies this`cards
      ensures ok <==> FoldMove(old(View()), e, reading).Some?
      ensures ok ==> View() == FoldMove(old(View()), e, reading).value
    {
      if e.card.None? {
        return e.ReviewRecorded? || e.MergeDone?;
      }
      var card := e.card.value;
      var state := if card in cards then cards[card].state else None;
      var work := WorkState(card);
      ok := true;
      match e
      case Started(_, carries) =>
        ok := StartCard(card, carries, reading);
      case Stopped(_, reason) =>
        ok := Claim(card, reason.Some? && state != Some(ClosedCard), StoppedCard);
      case Admitted(_, backfill, inJournal) =>
        if !backfill && AdmittedAgain(state) {
          MoveCard(card, if inJournal then MergedCard else Queued);
        }
      case ReviewRecorded(_, pass) =>
        if state.Some? && state.value in {InReview, Changes, Ready} {
          MoveCard(card, if pass then Ready else Changes);
        }
      case MergeDone(_) =>
        MergeCard(card);
      case Answered(_) =>
        ok := Claim(card, state.Some? && state.value in {StoppedCard, Changes, InReview}, work);
      case CardClosed(_, satisfied) =>
        var linked := if card in cards then cards[card].pr else None;
        var merged := linked.Some? && linked.value in prs && prs[linked.value].state == Merged;
        ok := Claim(card, state == Some(MergedCard) || merged || satisfied, ClosedCard);
      case Fell(_) =>
        if state.None? || state.value !in {Dropped, Deferred} {
          ok := Claim(card, state.Some? && state.value in {Running, InReview, Changes}, Fallen);
        }
      case LaneMoved(_, terminal) =>
        if terminal && !Ended(state) {
          MoveCard(card, Dropped);
        } else if state == Some(Deferred) {
          MoveCard(card, work);
        }
      case Deferring(_) =>
        if !Ended(state) {
          MoveCard(card, Deferred);
        }
      case Dropping(_, wellFormed) =>
        if !wellFormed {
          return false;
        }
        if !Ended(state) {
          MoveCard(card, Dropped);
        }
    }

    /** One event between a savepoint and its release or rollback. */
    method Apply(e: Event, reading: Reading) returns (ok: bool)
      modifies this
      ensures ok <==> Fold(old(View()), e, reading).Some?
      ensures View() == Folded(old(View()), e, reading)
    {
      var savedCards, savedPrs := cards, prs;
      if e.OfTask? {
        return true;
      } else if e.PrObserved? {
        ok := ObservePr(e);
      } else if e.PrClosed? {
        ok := ClosePr(e);
      } else if e.PrOpened? {
        ok := OpenPr(e, reading);
      } else {
        ok := MoveFold(e, reading);
      }
      if !ok {
        cards, prs := savedCards, savedPrs;
      }
    }

    /** The in-order fold of the log from its first event. */
    method FoldAll(log: seq<Event>, readings: seq<Reading>)
      requires |readings| == |log| && forall i :: 0 <= i < |log| ==> readings[i] == ReadingAt(log, i)
      requires View() == State(map[], map[])
      modifies this
      ensures View() == StateAt(log, |log|)
    {
      for i := 0 to |log|
        invariant View() == StateAt(log, i)
      {
        var applied := Apply(log[i], readings[i]);
      }
    }
  }
}
