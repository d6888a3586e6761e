/** The order in which queued tasks are granted: leaseNext and grantOrder of scripts/core/lease.ts. */
module GrantOrder {
  import opened Options
  import opened Tasks
  import opened LeaseProtocol

  /** The caller's choice of order, the queue, and what the queries read elsewhere: the tasks whose pull request
      stands on their head in the state the queue asks for, and the tasks released until a later time. */
  datatype Query = Query(queue: string, onePerCard: bool, firstCards: set<nat>, current: set<string>, waiting: set<string>)

  predicate Leasable(tasks: Table, q: Query, key: string) {
    && key in tasks && tasks[key].subject.queue == q.queue && tasks[key].state == Queued
    && (tasks[key].subject.pr == None || key in q.current)
  }

  /** A review goes by its last event, so that a requeued one goes to the back; any other task by its id. */
  function Rank(row: Row): nat {
    if row.subject.queue == "review" then row.eventId else row.id
  }

  predicate Before(tasks: Table, q: Query, a: string, b: string) {
    a in tasks && b in tasks && RowBefore(tasks[a], tasks[b], q)
  }

  predicate RowBefore(a: Row, b: Row, q: Query) {
    var x, y := a.subject.card in q.firstCards, b.subject.card in q.firstCards;
    (x && !y) || (x == y && Rank(a) < Rank(b))
  }

  /** The cards with a leased task in the queue. */
  function HeldCards(tasks: Table, q: Query): set<nat> {
    set key | key in tasks && tasks[key].subject.queue == q.queue && tasks[key].state == Leased :: tasks[key].subject.card
  }

  predicate Allowed(tasks: Table, q: Query, key: string) {
    Leasable(tasks, q, key) && key !in q.waiting && !(q.onePerCard && tasks[key].subject.card in HeldCards(tasks, q))
  }

  /** NEXT_LEASABLE ... LIMIT 1 */
  ghost predicate IsNext(tasks: Table, q: Query, key: string) {
    && Allowed(tasks, q, key)
    && forall other :: Allowed(tasks, q, other) && other != key ==> Before(tasks, q, key, other)
  }

  /** The task can be leased now: it is queued in the queue, its pull request if any stands on its head, it does not wait
      until later, and with one task per card none of its card is leased in the queue. */
  predicate Free(tasks: Table, q: Query, key: string) {
    && key in tasks && tasks[key].state == Queued && tasks[key].subject.queue == q.queue
    && (tasks[key].subject.pr.Some? ==> key in q.current) && key !in q.waiting
    && (q.onePerCard ==> forall k :: k in tasks && tasks[k].subject.queue == q.queue && tasks[k].state == Leased ==>
                           tasks[k].subject.card != tasks[key].subject.card)
  }

  lemma AllowedIsFree(tasks: Table, q: Query, key: string)
    ensures Allowed(tasks, q, key) <==> Free(tasks, q, key)
  {
  }

  /** The task leased next can be leased, and is ahead of every other that can: the cards asked for come first; then
      reviews go by the last event of their row, and all other tasks by their ids. */
  lemma NextIsAhead(tasks: Table, q: Query, key: string, other: string)
    requires IsNext(tasks, q, key) && Free(tasks, q, other) && other != key
    ensures Free(tasks, q, key)
    ensures
      var a, b := tasks[key], tasks[other];
      if (a.subject.card in q.firstCards) != (b.subject.card in q.firstCards) then a.subject.card in q.firstCards
      else if q.queue == "review" then a.eventId < b.eventId else a.id < b.id
  {
    AllowedIsFree(tasks, q, key);
    AllowedIsFree(tasks, q, other);
  }

  /** order lists the leasable tasks that do not wait, as ORDER BY puts them. */
  ghost predicate IsOrder(tasks: Table, q: Query, order: seq<string>) {
    && (forall key :: key in order <==> Leasable(tasks, q, key) && key !in q.waiting)
    && (forall i, j :: 0 <= i < j < |order| ==> order[i] != order[j] && Before(tasks, q, order[i], order[j]))
  }

  /** One grant: the row is leased, its last event is a new one. */
  function Granted(tasks: Table, key: string, ts: nat, id: nat): Table
    requires key in tasks
  {
    tasks[key := GrantedRow(tasks[key], ts, id)]
  }

  /** Calling leaseNext until it returns null, and keeping each lease, grants these tasks in this order. */
  ghost predicate LeasesInTurn(tasks: Table, q: Query, ts: nat, id: nat, keys: seq<string>)
    decreases |keys|
  {
    if keys == [] then forall key :: !Allowed(tasks, q, key)
    else IsNext(tasks, q, keys[0]) && LeasesInTurn(Granted(tasks, keys[0], ts, id), q, ts, id + 1, keys[1..])
  }

  // ---------- grantOrder ----------

  /** A row of LEASABLE_IN_GRANT_ORDER. */
  datatype Listed = Listed(key: string, card: nat, held: bool)

  /** The tasks granted now: each but those whose card is held or was listed before, if one per card. */
  function Now(rows: seq<Listed>, onePerCard: bool, listed: set<nat>): seq<Listed> {
    if rows == [] then []
    else if onePerCard && (rows[0].held || rows[0].card in listed) then Now(rows[1..], onePerCard, listed + {rows[0].card})
    else [rows[0]] + Now(rows[1..], onePerCard, listed + {rows[0].card})
  }

  function Later(rows: seq<Listed>, onePerCard: bool, listed: set<nat>): seq<Listed> {
    if rows == [] then []
    else if onePerCard && (rows[0].held || rows[0].card in listed) then [rows[0]] + Later(rows[1..], onePerCard, listed + {rows[0].card})
    else Later(rows[1..], onePerCard, listed + {rows[0].card})
  }

  lemma ListedNext(rows: seq<Listed>, i: nat, onePerCard: bool, listed: set<nat>)
    requires i < |rows|
    ensures
      var row := rows[i];
      var waits := onePerCard && (row.held || row.card in listed);
      && Now(rows[i..], onePerCard, listed) == (if waits then [] else [row]) + Now(rows[i + 1..], onePerCard, listed + {row.card})
      && Later(rows[i..], onePerCard, listed) == (if waits then [row] else []) + Later(rows[i + 1..], onePerCard, listed + {row.card})
  {
    assert rows[i..][0] == rows[i] && rows[i..][1..] == rows[i + 1..];
  }

  lemma NothingListed(rows: seq<Listed>, onePerCard: bool, listed: set<nat>)
    ensures Now(rows[|rows|..], onePerCard, listed) == [] && Later(rows[|rows|..], onePerCard, listed) == []
  {
  }

  /** grantOrder */
  method InGrantOrder(rows: seq<Listed>, onePerCard: bool) returns (order: seq<Listed>)
    ensures order == Now(rows, onePerCard, {}) + Later(rows, onePerCard, {})
  {
    hide Now, Later;
    var listed: set<nat> := {};
    var now: seq<Listed>, later: seq<Listed> := [], [];
    for i := 0 to |rows|
      invariant now + Now(rows[i..], onePerCard, listed) == Now(rows, onePerCard, {})
      invariant later + Later(rows[i..], onePerCard, listed) == Later(rows, onePerCard, {})
    {
      var row := rows[i];
      ListedNext(rows, i, onePerCard, listed);
      var waits := onePerCard && (row.held || row.card in listed);
      listed := listed + {row.card};
      if waits {
        assert later + ([row] + Later(rows[i + 1..], onePerCard, listed)) == (later + [row]) + Later(rows[i + 1..], onePerCard, listed);
        later := later + [row];
      } else {
        assert now + ([row] + Now(rows[i + 1..], onePerCard, listed)) == (now + [row]) + Now(rows[i + 1..], onePerCard, listed);
        now := now + [row];
      }
    }
    NothingListed(rows, onePerCard, listed);
    order := now + later;
  }

  /** Nothing is dropped: every listed row is either granted now or later. */
  lemma {:induction false} NowAndLater(rows: seq<Listed>, onePerCard: bool, listed: set<nat>)
    ensures multiset(Now(rows, onePerCard, listed) + Later(rows, onePerCard, listed)) == multiset(rows)
  {
    if rows != [] {
      NowAndLater(rows[1..], onePerCard, listed + {rows[0].card});
      assert rows == [rows[0]] + rows[1..];
    }
  }

  // ---------- grantOrder is repeated leasing ----------

  /** The rows the query lists for an order of keys. */
  ghost function Listing(tasks: Table, q: Query, order: seq<string>): (rows: seq<Listed>)
    requires forall i :: 0 <= i < |order| ==> order[i] in tasks
    ensures |rows| == |order|
  {
    seq(|order|, i requires 0 <= i < |order| =>
      Listed(order[i], tasks[order[i]].subject.card, tasks[order[i]].subject.card in HeldCards(tasks, q)))
  }

  ghost function KeysOf(rows: seq<Listed>): (keys: seq<string>)
    ensures |keys| == |rows| && forall i :: 0 <= i < |keys| ==> keys[i] == rows[i].key
  {
    seq(|rows|, i requires 0 <= i < |rows| => rows[i].key)
  }

  /** The keys granted now, by the cards taken so far alone. */
  ghost function NowKeys(tasks: Table, onePerCard: bool, order: seq<string>, taken: set<nat>): seq<string>
    requires forall i :: 0 <= i < |order| ==> order[i] in tasks
  {
    if order == [] then []
    else if onePerCard && tasks[order[0]].subject.card in taken then NowKeys(tasks, onePerCard, order[1..], taken)
    else [order[0]] + NowKeys(tasks, onePerCard, order[1..], taken + {tasks[order[0]].subject.card})
  }

  lemma {:induction false} NowIsNowKeys(tasks: Table, q: Query, rows: seq<Listed>, order: seq<string>, listed: set<nat>, taken: set<nat>)
    requires |rows| == |order| && forall i :: 0 <= i < |order| ==> order[i] in tasks
    requires forall i :: 0 <= i < |order| ==>
      rows[i] == Listed(order[i], tasks[order[i]].subject.card, tasks[order[i]].subject.card in HeldCards(tasks, q))
    requires q.onePerCard ==> taken == HeldCards(tasks, q) + listed
    ensures KeysOf(Now(rows, q.onePerCard, listed)) == NowKeys(tasks, q.onePerCard, order, taken)
  {
    if order != [] {
      var card := tasks[order[0]].subject.card;
      if q.onePerCard && card in taken {
        assert HeldCards(tasks, q) + (listed + {card}) == taken;
        NowIsNowKeys(tasks, q, rows[1..], order[1..], listed + {card}, taken);
      } else {
        assert q.onePerCard ==> HeldCards(tasks, q) + (listed + {card}) == taken + {card};
        NowIsNowKeys(tasks, q, rows[1..], order[1..], listed + {card}, taken + {card});
        assert KeysOf([rows[0]] + Now(rows[1..], q.onePerCard, listed + {card})) ==
               [order[0]] + KeysOf(Now(rows[1..], q.onePerCard, listed + {card}));
      }
    }
  }

  /** Keys whose cards are taken add nothing in front. */
  lemma {:induction false} SkipTaken(tasks: Table, onePerCard: bool, before: seq<string>, after: seq<string>, taken: set<nat>)
    requires forall i :: 0 <= i < |before| ==> before[i] in tasks && onePerCard && tasks[before[i]].subject.card in taken
    requires forall i :: 0 <= i < |after| ==> after[i] in tasks
    ensures NowKeys(tasks, onePerCard, before + after, taken) == NowKeys(tasks, onePerCard, after, taken)
  {
    if before == [] {
      assert before + after == after;
    } else {
      assert (before + after)[1..] == before[1..] + after;
      SkipTaken(tasks, onePerCard, before[1..], after, taken);
    }
  }

  lemma {:induction false} SameCardsSameKeys(tasks: Table, later: Table, onePerCard: bool, order: seq<string>, taken: set<nat>)
    requires forall i :: 0 <= i < |order| ==> order[i] in tasks && order[i] in later && tasks[order[i]].subject == later[order[i]].subject
    ensures NowKeys(tasks, onePerCard, order, taken) == NowKeys(later, onePerCard, order, taken)
  {
    if order != [] {
      SameCardsSameKeys(tasks, later, onePerCard, order[1..], taken);
      SameCardsSameKeys(tasks, later, onePerCard, order[1..], taken + {tasks[order[0]].subject.card});
    }
  }

  /** The position of the first listed key that may be leased. */
  lemma {:induction false} FirstAllowed(tasks: Table, q: Query, order: seq<string>, i: nat) returns (p: nat)
    requires IsOrder(tasks, q, order) && i <= |order|
    ensures i <= p <= |order|
    ensures forall k :: i <= k < p ==> !Allowed(tasks, q, order[k])
    ensures p < |order| ==> Allowed(tasks, q, order[p])
    decreases |order| - i
  {
    if i == |order| || Allowed(tasks, q, order[i]) {
      p := i;
    } else {
      p := FirstAllowed(tasks, q, order, i + 1);
    }
  }

  lemma FirstAllowedIsNext(tasks: Table, q: Query, order: seq<string>, p: nat, key: string)
    requires IsOrder(tasks, q, order) && p < |order| && Allowed(tasks, q, order[p])
    requires forall k :: 0 <= k < p ==> !Allowed(tasks, q, order[k])
    ensures IsNext(tasks, q, key) <==> key == order[p]
  {
    forall other | Allowed(tasks, q, other) && other != order[p]
      ensures Before(tasks, q, order[p], other)
    {
      assert other in order;
    }
    BeforeIsStrict(tasks, q, key, order[p]);
  }

  lemma BeforeIsStrict(tasks: Table, q: Query, a: string, b: string)
    ensures !(Before(tasks, q, a, b) && Before(tasks, q, b, a))
  {
  }

  /** A grant takes its task out of the order and its card with it, and leaves the rest as it was. */
  lemma GrantShortensTheOrder(tasks: Table, q: Query, order: seq<string>, p: nat, ts: nat, id: nat)
    requires IsOrder(tasks, q, order) && p < |order| && order[p] in tasks
    ensures IsOrder(Granted(tasks, order[p], ts, id), q, order[..p] + order[p + 1..])
    ensures HeldCards(Granted(tasks, order[p], ts, id), q) == HeldCards(tasks, q) + {tasks[order[p]].subject.card}
  {
    var rest := order[..p] + order[p + 1..];
    assert order[p] in order;
    forall key
      ensures key in rest <==> key in order && key != order[p]
    {
      RestHolds(order, p, key);
    }
    forall i, j | 0 <= i < j < |rest|
      ensures rest[i] != rest[j] && Before(Granted(tasks, order[p], ts, id), q, rest[i], rest[j])
    {
      RestOrder(tasks, q, order, p, i, j);
    }
    HeldAfterGrant(tasks, q, order[p], ts, id);
  }

  lemma RestHolds(order: seq<string>, p: nat, key: string)
    requires p < |order| && forall i, j :: 0 <= i < j < |order| ==> order[i] != order[j]
    ensures key in order[..p] + order[p + 1..] <==> key in order && key != order[p]
  {
    assert order == order[..p] + [order[p]] + order[p + 1..];
    if key in order[..p] + order[p + 1..] {
      var rest := order[..p] + order[p + 1..];
      var i :| 0 <= i < |rest| && rest[i] == key;
      assert key == order[if i < p then i else i + 1];
    }
  }

  lemma RestOrder(tasks: Table, q: Query, order: seq<string>, p: nat, i: nat, j: nat)
    requires IsOrder(tasks, q, order) && p < |order| && i < j < |order| - 1
    ensures
      var rest := order[..p] + order[p + 1..];
      rest[i] != rest[j] && rest[i] != order[p] && rest[j] != order[p] && Before(tasks, q, rest[i], rest[j])
  {
    var x, y := if i < p then i else i + 1, if j < p then j else j + 1;
    assert (order[..p] + order[p + 1..])[i] == order[x] && (order[..p] + order[p + 1..])[j] == order[y];
  }

  lemma HeldAfterGrant(tasks: Table, q: Query, key: string, ts: nat, id: nat)
    requires key in tasks && tasks[key].subject.queue == q.queue && tasks[key].state == Queued
    ensures HeldCards(Granted(tasks, key, ts, id), q) == HeldCards(tasks, q) + {tasks[key].subject.card}
  {
    var after := Granted(tasks, key, ts, id);
    forall card
      ensures card in HeldCards(after, q) <==> card in HeldCards(tasks, q) + {tasks[key].subject.card}
    {
      if card in HeldCards(tasks, q) {
        var k :| k in tasks && tasks[k].subject.queue == q.queue && tasks[k].state == Leased && tasks[k].subject.card == card;
        assert after[k] == tasks[k];
      }
      assert after[key].state == Leased && after[key].subject == tasks[key].subject;
    }
  }

  lemma TakenBefore(tasks: Table, q: Query, order: seq<string>, p: nat)
    requires IsOrder(tasks, q, order) && p <= |order| && AllIn(order, tasks)
    requires forall k :: 0 <= k < p ==> !Allowed(tasks, q, order[k])
    ensures q.onePerCard || p == 0
    ensures forall k :: 0 <= k < p ==> tasks[order[k]].subject.card in HeldCards(tasks, q)
  {
    forall k | 0 <= k < p ensures q.onePerCard && tasks[order[k]].subject.card in HeldCards(tasks, q) {
      assert order[k] in order;
    }
    assert p > 0 ==> order[0] in order && !Allowed(tasks, q, order[0]);
  }

  /** What comes before the first key that may be leased is taken; that key is granted, and its card with it. */
  lemma NowKeysSteps(tasks: Table, q: Query, order: seq<string>, p: nat)
    requires IsOrder(tasks, q, order) && p <= |order| && AllIn(order, tasks)
    requires forall k :: 0 <= k < p ==> !Allowed(tasks, q, order[k])
    requires p < |order| ==> Allowed(tasks, q, order[p])
    ensures p == |order| ==> NowKeys(tasks, q.onePerCard, order, HeldCards(tasks, q)) == []
    ensures p < |order| ==>
      && AllIn(order[..p] + order[p + 1..], tasks)
      && NowKeys(tasks, q.onePerCard, order, HeldCards(tasks, q)) ==
         [order[p]] + NowKeys(tasks, q.onePerCard, order[..p] + order[p + 1..], HeldCards(tasks, q) + {tasks[order[p]].subject.card})
  {
    TakenBefore(tasks, q, order, p);
    NowKeysSkip(tasks, q.onePerCard, order, p, HeldCards(tasks, q));
  }

  lemma NowKeysSkip(tasks: Table, onePerCard: bool, order: seq<string>, p: nat, taken: set<nat>)
    requires p <= |order| && AllIn(order, tasks) && (onePerCard || p == 0)
    requires forall k :: 0 <= k < p ==> tasks[order[k]].subject.card in taken
    requires p < |order| ==> !(onePerCard && tasks[order[p]].subject.card in taken)
    ensures p == |order| ==> NowKeys(tasks, onePerCard, order, taken) == []
    ensures p < |order| ==>
      && AllIn(order[..p] + order[p + 1..], tasks)
      && NowKeys(tasks, onePerCard, order, taken) ==
         [order[p]] + NowKeys(tasks, onePerCard, order[..p] + order[p + 1..], taken + {tasks[order[p]].subject.card})
  {
    assert order == order[..p] + order[p..];
    SkipTaken(tasks, onePerCard, order[..p], order[p..], taken);
    if p < |order| {
      assert order[p..][1..] == order[p + 1..];
      SkipTaken(tasks, onePerCard, order[..p], order[p + 1..], taken + {tasks[order[p]].subject.card});
    }
  }

  ghost predicate AllIn(order: seq<string>, tasks: Table) {
    forall i :: 0 <= i < |order| ==> order[i] in tasks
  }

  /** With no other writer, calling leaseNext until it returns null grants exactly the `now` part of the order,
      in that order: with and without one per card, whichever cards come first. */
  lemma {:induction false} NowIsLeasedInTurn(tasks: Table, q: Query, order: seq<string>, ts: nat, id: nat, keys: seq<string>)
    requires IsOrder(tasks, q, order) && AllIn(order, tasks)
    ensures LeasesInTurn(tasks, q, ts, id, keys) <==> keys == NowKeys(tasks, q.onePerCard, order, HeldCards(tasks, q))
    decreases |order|
  {
    var p := FirstAllowed(tasks, q, order, 0);
    NowKeysSteps(tasks, q, order, p);
    if p == |order| {
      NothingAllowed(tasks, q, order);
    } else {
      var key, rest := order[p], order[..p] + order[p + 1..];
      var left := Granted(tasks, key, ts, id);
      GrantShortensTheOrder(tasks, q, order, p, ts, id);
      SameCardsSameKeys(tasks, left, q.onePerCard, rest, HeldCards(left, q));
      if keys != [] {
        FirstAllowedIsNext(tasks, q, order, p, keys[0]);
        if keys[0] == key {
          NowIsLeasedInTurn(left, q, rest, ts, id + 1, keys[1..]);
          assert keys == [key] + keys[1..];
        }
      }
    }
  }

  lemma NothingAllowed(tasks: Table, q: Query, order: seq<string>)
    requires IsOrder(tasks, q, order) && forall k :: 0 <= k < |order| ==> !Allowed(tasks, q, order[k])
    ensures forall key :: !Allowed(tasks, q, key)
  {
    forall key ensures !Allowed(tasks, q, key) {
      if Leasable(tasks, q, key) && key !in q.waiting {
        assert key in order;
      }
    }
  }

  /** grantOrder's `now` part, row by row, is what repeated leasing grants when no task waits until later. */
  lemma GrantOrderIsRepeatedLeasing(tasks: Table, q: Query, order: seq<string>, ts: nat, id: nat, keys: seq<string>)
    requires IsOrder(tasks, q, order) && AllIn(order, tasks) && q.waiting == {}
    ensures LeasesInTurn(tasks, q, ts, id, keys) <==> keys == KeysOf(Now(Listing(tasks, q, order), q.onePerCard, {}))
  {
    NowIsLeasedInTurn(tasks, q, order, ts, id, keys);
    NowIsNowKeys(tasks, q, Listing(tasks, q, order), order, {}, HeldCards(tasks, q));
  }

  // ---------- ranks never tie ----------

  /** The rows have ids 1 to their number, each once. */
  ghost predicate IdsDistinct(tasks: Table) {
    && (forall a :: a in tasks ==> 1 <= tasks[a].id <= |tasks|)
    && (forall a, b :: a in tasks && b in tasks && a != b ==> tasks[a].id != tasks[b].id)
  }

  lemma FoldedIds(tasks: Table, e: Event, id: nat)
    requires IdsDistinct(tasks)
    ensures IdsDistinct(Folded(tasks, e, id))
  {
    if Outcomes(tasks, e, id).Written? {
      RowKeepsItsId(RowOf(tasks, e.key), e, id, |tasks| + 1);
      PutKeepsIds(tasks, e.key, Outcomes(tasks, e, id).row);
    }
  }

  lemma RowKeepsItsId(row: Option<Row>, e: Event, id: nat, next: nat)
    requires FoldRow(row, e, id, next).Written?
    ensures FoldRow(row, e, id, next).row.id == if row.Some? then row.value.id else next
  {
  }

  lemma PutKeepsIds(tasks: Table, key: string, row: Row)
    requires IdsDistinct(tasks) && row.id == (if key in tasks then tasks[key].id else |tasks| + 1)
    ensures IdsDistinct(tasks[key := row])
  {
    var later := tasks[key := row];
    assert later.Keys == tasks.Keys + {key};
    assert |later| == (if key in tasks then |tasks| else |tasks| + 1) by {
      assert |later| == |later.Keys| && |tasks| == |tasks.Keys|;
      assert key in tasks ==> tasks.Keys + {key} == tasks.Keys;
    }
    forall a | a in later ensures 1 <= later[a].id <= |later| {
      assert a != key ==> a in tasks && later[a] == tasks[a];
    }
    forall a, b | a in later && b in later && a != b ensures later[a].id != later[b].id {
      assert a != key ==> a in tasks && later[a] == tasks[a];
      assert b != key ==> b in tasks && later[b] == tasks[b];
    }
  }

  lemma {:induction false} IdsAreDistinct(log: seq<Event>, n: nat)
    requires n <= |log|
    ensures IdsDistinct(Replay(log, n))
  {
    if n > 0 {
      IdsAreDistinct(log, n - 1);
      FoldedIds(Replay(log, n - 1), log[n - 1], n);
    }
  }

  /** Two tasks never tie: an id is given once, and an event is the last one of one task only. */
  lemma RanksAreDistinct(log: seq<Event>, n: nat, a: string, b: string)
    requires n <= |log| && a in Replay(log, n) && b in Replay(log, n) && a != b
    requires Replay(log, n)[a].subject.queue == Replay(log, n)[b].subject.queue
    ensures Rank(Replay(log, n)[a]) != Rank(Replay(log, n)[b])
  {
    IdsAreDistinct(log, n);
    RowIsItsHistory(log, a, n);
    RowIsItsHistory(log, b, n);
  }
}
