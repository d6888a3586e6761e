/** What the watch of the pull requests writes: scripts/core/observations.ts, its tick in scripts/ports/netwatch.ts
    and the append of scripts/core/db.ts. Event i of the log has the id i + 1. */
module Observations {
  import opened Options
  import C = Cards

  datatype Kind = PrObserved | PrClosed | MainAdvanced | Other

  /** The unique key of an event, its printed parts kept apart. */
  datatype Dedupe =
    | Observed(pr: nat, digest: string, previous: Option<nat>)
    | ClosedOnce(pr: nat)
    | MainAt(sha: string)
    | Text(text: string)

  datatype Event = Event(kind: Kind, pr: Option<nat>, payload: string, dedupe: Dedupe)

  datatype Pr = Pr(number: nat, payload: string)

  /** One reading of the pull requests: the open ones, those closed since, and the head of main when it moved. */
  datatype Snapshot = Snapshot(open: seq<Pr>, closed: seq<Pr>, main: Option<string>)

  type Digest = string -> string

  /** SHA-256 taken as injective. */
  ghost predicate Injective(digest: Digest) {
    forall a, b :: digest(a) == digest(b) ==> a == b
  }

  // ---------- the log ----------

  predicate Has(log: seq<Event>, dedupe: Dedupe) {
    exists i :: 0 <= i < |log| && log[i].dedupe == dedupe
  }

  predicate Observes(e: Event, pr: nat) {
    e.kind.PrObserved? && e.pr == Some(pr)
  }

  /** The id of the latest observation of the pull request among the first n events. */
  function Latest(log: seq<Event>, pr: nat, n: nat): (id: Option<nat>)
    requires n <= |log|
    ensures id.Some? ==> 0 < id.value <= n && Observes(log[id.value - 1], pr)
    ensures forall i :: (if id.Some? then id.value else 0) <= i < n ==> !Observes(log[i], pr)
  {
    if n == 0 then None else if Observes(log[n - 1], pr) then Some(n) else Latest(log, pr, n - 1)
  }

  // ---------- the events of a snapshot ----------

  /** prObserved, with the latest observation of the log as the previous one. */
  function Observation(digest: Digest, log: seq<Event>, open: Pr): Event {
    var previous := Latest(log, open.number, |log|);
    var repeats := previous.Some? && digest(log[previous.value - 1].payload) == digest(open.payload);
    Event(PrObserved, Some(open.number), open.payload,
          if repeats then log[previous.value - 1].dedupe else Observed(open.number, digest(open.payload), previous))
  }

  function Closing(closed: Pr): Event {
    Event(PrClosed, Some(closed.number), closed.payload, ClosedOnce(closed.number))
  }

  /** observationsOf: all of them are built before any is appended. */
  function ObservationsOf(digest: Digest, log: seq<Event>, snapshot: Snapshot): seq<Event> {
    seq(|snapshot.open|, i requires 0 <= i < |snapshot.open| => Observation(digest, log, snapshot.open[i]))
    + seq(|snapshot.closed|, i requires 0 <= i < |snapshot.closed| => Closing(snapshot.closed[i]))
    + (if snapshot.main.None? then [] else [Event(MainAdvanced, None, snapshot.main.value, MainAt(snapshot.main.value))])
  }

  function Appended(log: seq<Event>, e: Event): seq<Event> {
    if Has(log, e.dedupe) then log else log + [e]
  }

  function AppendedAll(log: seq<Event>, events: seq<Event>, n: nat): seq<Event>
    requires n <= |events|
  {
    if n == 0 then log else Appended(AppendedAll(log, events, n - 1), events[n - 1])
  }

  /** The loop of a tick; written counts what the unique key let through. */
  method Tick(digest: Digest, log: seq<Event>, snapshot: Snapshot) returns (after: seq<Event>, written: nat)
    ensures var events := ObservationsOf(digest, log, snapshot); after == AppendedAll(log, events, |events|)
    ensures |after| == |log| + written
  {
    var events := ObservationsOf(digest, log, snapshot);
    after, written := log, 0;
    for i := 0 to |events|
      invariant after == AppendedAll(log, events, i) && |after| == |log| + written
    {
      if !Has(after, events[i].dedupe) {
        after, written := after + [events[i]], written + 1;
      }
    }
  }

  // ---------- every observation is chained to the one before ----------

  ghost predicate KeyedAt(digest: Digest, log: seq<Event>, i: nat)
    requires i < |log|
  {
    if log[i].kind.PrObserved? then
      && log[i].pr.Some?
      && log[i].dedupe == Observed(log[i].pr.value, digest(log[i].payload), Latest(log, log[i].pr.value, i))
    else !log[i].dedupe.Observed?
  }

  ghost predicate Keyed(digest: Digest, log: seq<Event>) {
    && (forall i :: 0 <= i < |log| ==> KeyedAt(digest, log, i))
    && (forall i, j :: 0 <= i < j < |log| ==> log[i].dedupe != log[j].dedupe)
  }

  lemma {:induction false} LatestOfPrefix(log: seq<Event>, later: seq<Event>, pr: nat, n: nat)
    requires n <= |log| <= |later| && later[..|log|] == log
    ensures Latest(later, pr, n) == Latest(log, pr, n)
  {
    if n > 0 {
      LatestOfPrefix(log, later, pr, n - 1);
      assert later[n - 1] == later[..|log|][n - 1];
    }
  }

  /** A key chained to the latest observation is in the log only when that observation carries the same payload. */
  lemma ChainedKeyIsFresh(digest: Digest, log: seq<Event>, pr: nat, text: string)
    requires Keyed(digest, log)
    ensures !Has(log, Observed(pr, text, Latest(log, pr, |log|)))
  {
    forall i | 0 <= i < |log| ensures log[i].dedupe != Observed(pr, text, Latest(log, pr, |log|)) {
      assert KeyedAt(digest, log, i);
      assert log[i].dedupe.Observed? && log[i].dedupe.pr == pr ==> Observes(log[i], pr);
    }
  }

  /** The log has grown by events that observe other pull requests or none. */
  ghost predicate GrownBeside(log: seq<Event>, later: seq<Event>, pr: nat) {
    && |log| <= |later| && later[..|log|] == log
    && forall i :: |log| <= i < |later| ==> !Observes(later[i], pr)
  }

  lemma {:induction false} LatestBeside(log: seq<Event>, later: seq<Event>, pr: nat, n: nat)
    requires GrownBeside(log, later, pr) && |log| <= n <= |later|
    ensures Latest(later, pr, n) == Latest(log, pr, |log|)
  {
    if n == |log| {
      LatestOfPrefix(log, later, pr, n);
    } else {
      LatestBeside(log, later, pr, n - 1);
    }
  }

  /** The payload last recorded of the pull request. */
  function LastPayload(log: seq<Event>, pr: nat): Option<string> {
    var previous := Latest(log, pr, |log|);
    if previous.None? then None else Some(log[previous.value - 1].payload)
  }

  lemma LastPayloadBeside(log: seq<Event>, later: seq<Event>, pr: nat)
    requires GrownBeside(log, later, pr)
    ensures LastPayload(later, pr) == LastPayload(log, pr)
  {
    LatestBeside(log, later, pr, |later|);
    var previous := Latest(log, pr, |log|);
    assert previous.Some? ==> later[previous.value - 1] == later[..|log|][previous.value - 1];
  }

  /** An observation built against an earlier log is written exactly when it differs from the last recorded one. */
  lemma {:induction false} WrittenWhenDifferent(digest: Digest, log: seq<Event>, later: seq<Event>, open: Pr)
    requires Injective(digest) && Keyed(digest, log) && Keyed(digest, later) && GrownBeside(log, later, open.number)
    ensures Has(later, Observation(digest, log, open).dedupe) <==> LastPayload(later, open.number) == Some(open.payload)
    ensures !Has(later, Observation(digest, log, open).dedupe) ==>
              Observation(digest, log, open).dedupe == Observed(open.number, digest(open.payload), Latest(later, open.number, |later|))
  {
    LastPayloadBeside(log, later, open.number);
    LatestBeside(log, later, open.number, |later|);
    var previous := Latest(log, open.number, |log|);
    if previous.Some? {
      assert later[previous.value - 1] == later[..|log|][previous.value - 1];
    }
    if LastPayload(log, open.number) != Some(open.payload) {
      ChainedKeyIsFresh(digest, later, open.number, digest(open.payload));
    }
  }

  lemma AppendKeepsKeyed(digest: Digest, log: seq<Event>, e: Event)
    requires Keyed(digest, log)
    requires Has(log, e.dedupe) || (if e.kind.PrObserved? then e.pr.Some? && e.dedupe == Observed(e.pr.value, digest(e.payload), Latest(log, e.pr.value, |log|)) else !e.dedupe.Observed?)
    ensures Keyed(digest, Appended(log, e))
  {
    if !Has(log, e.dedupe) {
      var later := log + [e];
      assert later[..|log|] == log;
      forall i | 0 <= i < |later| ensures KeyedAt(digest, later, i) {
        if i < |log| {
          assert KeyedAt(digest, log, i);
          if log[i].kind.PrObserved? {
            LatestOfPrefix(log, later, log[i].pr.value, i);
          }
        } else if e.kind.PrObserved? {
          LatestOfPrefix(log, later, e.pr.value, |log|);
        }
      }
    }
  }

  // ---------- the recorded stream ----------

  /** The payloads recorded of a pull request, in the order of the log. */
  function RecordedOf(log: seq<Event>, pr: nat): seq<string> {
    if log == [] then []
    else
      var e := log[|log| - 1];
      RecordedOf(log[..|log| - 1], pr) + (if Observes(e, pr) then [e.payload] else [])
  }

  /** A stream without its consecutive repeats. */
  function WithoutStutter(stream: seq<string>): seq<string> {
    if stream == [] then []
    else
      var before := WithoutStutter(stream[..|stream| - 1]);
      if before != [] && before[|before| - 1] == stream[|stream| - 1] then before else before + [stream[|stream| - 1]]
  }

  predicate NoRepeats(stream: seq<string>) {
    forall i :: 0 < i < |stream| ==> stream[i] != stream[i - 1]
  }

  /** A stream in which every change is a change is kept whole: A, B and A again are three observations. */
  lemma {:induction false} ChangesAreKept(stream: seq<string>)
    requires NoRepeats(stream)
    ensures WithoutStutter(stream) == stream
  {
    if stream != [] {
      var before := stream[..|stream| - 1];
      assert NoRepeats(before) by {
        assert forall i :: 0 <= i < |before| ==> before[i] == stream[i];
      }
      ChangesAreKept(before);
      assert before + [stream[|stream| - 1]] == stream;
    }
  }

  lemma {:induction false} LastRecorded(log: seq<Event>, pr: nat)
    ensures LastPayload(log, pr) == (if RecordedOf(log, pr) == [] then None else Some(RecordedOf(log, pr)[|RecordedOf(log, pr)| - 1]))
  {
    if log != [] {
      var before := log[..|log| - 1];
      LastRecorded(before, pr);
      if !Observes(log[|log| - 1], pr) {
        LastPayloadBeside(before, log, pr);
      }
    }
  }

  lemma RecordedAppended(log: seq<Event>, e: Event, pr: nat)
    ensures RecordedOf(log + [e], pr) == RecordedOf(log, pr) + (if Observes(e, pr) then [e.payload] else [])
  {
    assert (log + [e])[..|log|] == log;
  }

  // ---------- one snapshot ----------

  ghost predicate EachOnce(open: seq<Pr>) {
    forall i, j :: 0 <= i < j < |open| ==> open[i].number != open[j].number
  }

  /** What the first n pull requests of a snapshot add to the stream of one of them. */
  function SeenOf(open: seq<Pr>, pr: nat, n: nat): seq<string>
    requires n <= |open|
  {
    if n == 0 then [] else SeenOf(open, pr, n - 1) + (if open[n - 1].number == pr then [open[n - 1].payload] else [])
  }

  /** After n pull requests of a snapshot: the log is keyed, and of each one to come it holds what it held. */
  ghost predicate TickedSo(digest: Digest, log: seq<Event>, open: seq<Pr>, n: nat, after: seq<Event>)
    requires n <= |open|
  {
    Keyed(digest, after) && forall k :: n <= k < |open| ==> GrownBeside(log, after, open[k].number)
  }

  lemma OpenOneMore(digest: Digest, log: seq<Event>, open: seq<Pr>, n: nat, after: seq<Event>)
    requires Injective(digest) && Keyed(digest, log) && EachOnce(open) && n < |open| && TickedSo(digest, log, open, n, after)
    ensures TickedSo(digest, log, open, n + 1, Appended(after, Observation(digest, log, open[n])))
  {
    var e := Observation(digest, log, open[n]);
    var later := Appended(after, e);
    WrittenWhenDifferent(digest, log, after, open[n]);
    AppendKeepsKeyed(digest, after, e);
    forall k | n + 1 <= k < |open| ensures GrownBeside(log, later, open[k].number) {
      assert GrownBeside(log, after, open[k].number) && open[n].number != open[k].number;
      assert later[..|log|] == after[..|log|];
    }
  }

  lemma RepeatIsDropped(stream: seq<string>, payload: string)
    ensures WithoutStutter(stream + [payload]) ==
            (var before := WithoutStutter(stream);
             if before != [] && before[|before| - 1] == payload then before else before + [payload])
  {
    var longer := stream + [payload];
    assert longer != [] && longer[..|longer| - 1] == stream && longer[|longer| - 1] == payload;
  }

  lemma StreamOneMore(after: seq<Event>, e: Event, open: Pr, stream: seq<string>, pr: nat)
    requires WithoutStutter(stream) == RecordedOf(after, pr)
    requires e.kind.PrObserved? && e.pr == Some(open.number) && e.payload == open.payload
    requires Has(after, e.dedupe) <==> LastPayload(after, open.number) == Some(open.payload)
    ensures WithoutStutter(stream + (if open.number == pr then [open.payload] else [])) == RecordedOf(Appended(after, e), pr)
  {
    hide WithoutStutter, RecordedOf, LastPayload, Has;
    RecordedAppended(after, e, pr);
    LastRecorded(after, pr);
    RepeatIsDropped(stream, open.payload);
    assert stream + [] == stream;
    assert RecordedOf(after, pr) + [] == RecordedOf(after, pr);
  }

  lemma {:induction false} OpensTicked(digest: Digest, log: seq<Event>, snapshot: Snapshot, n: nat)
    requires Injective(digest) && Keyed(digest, log) && EachOnce(snapshot.open) && n <= |snapshot.open|
    ensures n <= |ObservationsOf(digest, log, snapshot)|
    ensures TickedSo(digest, log, snapshot.open, n, AppendedAll(log, ObservationsOf(digest, log, snapshot), n))
  {
    if n == 0 {
      assert log[..|log|] == log;
    } else {
      OpensTicked(digest, log, snapshot, n - 1);
      var events := ObservationsOf(digest, log, snapshot);
      assert events[n - 1] == Observation(digest, log, snapshot.open[n - 1]);
      OpenOneMore(digest, log, snapshot.open, n - 1, AppendedAll(log, events, n - 1));
    }
  }

  /** The first n pull requests of a snapshot, appended to a log that holds a stream without stutter. */
  lemma {:induction false} StreamTicked(digest: Digest, log: seq<Event>, snapshot: Snapshot, n: nat, pr: nat, stream: seq<string>)
    requires Injective(digest) && Keyed(digest, log) && EachOnce(snapshot.open) && n <= |snapshot.open|
    requires WithoutStutter(stream) == RecordedOf(log, pr)
    ensures n <= |ObservationsOf(digest, log, snapshot)|
    ensures WithoutStutter(stream + SeenOf(snapshot.open, pr, n)) == RecordedOf(AppendedAll(log, ObservationsOf(digest, log, snapshot), n), pr)
  {
    hide WithoutStutter, RecordedOf, Observation, Keyed, GrownBeside;
    if n == 0 {
      assert stream + [] == stream;
    } else {
      var events, open := ObservationsOf(digest, log, snapshot), snapshot.open[n - 1];
      StreamTicked(digest, log, snapshot, n - 1, pr, stream);
      OpensTicked(digest, log, snapshot, n - 1);
      var after := AppendedAll(log, events, n - 1);
      var seen := stream + SeenOf(snapshot.open, pr, n - 1);
      assert events[n - 1] == Observation(digest, log, open);
      WrittenWhenDifferent(digest, log, after, open);
      ObservationSays(digest, log, open);
      StreamOneMore(after, events[n - 1], open, seen, pr);
      assert stream + SeenOf(snapshot.open, pr, n) == seen + (if open.number == pr then [open.payload] else []);
    }
  }

  lemma ObservationSays(digest: Digest, log: seq<Event>, open: Pr)
    ensures var e := Observation(digest, log, open); e.kind.PrObserved? && e.pr == Some(open.number) && e.payload == open.payload
  {
  }

  lemma OtherAppend(digest: Digest, log: seq<Event>, e: Event)
    requires Keyed(digest, log) && !e.kind.PrObserved? && !e.dedupe.Observed?
    ensures Keyed(digest, Appended(log, e)) && forall pr :: RecordedOf(Appended(log, e), pr) == RecordedOf(log, pr)
  {
    AppendKeepsKeyed(digest, log, e);
    forall pr ensures RecordedOf(Appended(log, e), pr) == RecordedOf(log, pr) {
      RecordedAppended(log, e, pr);
    }
  }

  lemma {:induction false} RestAppended(digest: Digest, log: seq<Event>, snapshot: Snapshot, n: nat)
    requires |snapshot.open| <= n <= |ObservationsOf(digest, log, snapshot)|
    requires Keyed(digest, AppendedAll(log, ObservationsOf(digest, log, snapshot), |snapshot.open|))
    ensures var events := ObservationsOf(digest, log, snapshot);
            && Keyed(digest, AppendedAll(log, events, n))
            && forall pr :: RecordedOf(AppendedAll(log, events, n), pr) == RecordedOf(AppendedAll(log, events, |snapshot.open|), pr)
  {
    if n > |snapshot.open| {
      RestAppended(digest, log, snapshot, n - 1);
      var events := ObservationsOf(digest, log, snapshot);
      assert !events[n - 1].kind.PrObserved? && !events[n - 1].dedupe.Observed?;
      OtherAppend(digest, AppendedAll(log, events, n - 1), events[n - 1]);
    }
  }

  // ---------- every run ----------

  datatype Action = Ticks(snapshot: Snapshot) | Writes(event: Event)

  /** A snapshot names each open pull request once; nobody else writes observations, whoever closes a pull request
      writes the close under its one key, and no other event takes that key or one of an advance of main. */
  ghost predicate Proper(a: Action) {
    match a
    case Ticks(snapshot) => EachOnce(snapshot.open)
    case Writes(event) => !event.kind.PrObserved? && !event.dedupe.Observed? && CloseKeyed(event)
  }

  predicate CloseKeyed(e: Event) {
    && (e.kind.PrClosed? ==> e.pr.Some? && e.dedupe == ClosedOnce(e.pr.value))
    && (e.dedupe.ClosedOnce? ==> e.kind.PrClosed?)
    && (e.dedupe.MainAt? ==> e.kind.MainAdvanced? && e.payload == e.dedupe.sha)
  }

  predicate ClosesKeyed(log: seq<Event>) {
    forall i :: 0 <= i < |log| ==> CloseKeyed(log[i])
  }

  function LogAfter(digest: Digest, actions: seq<Action>, n: nat): seq<Event>
    requires n <= |actions|
  {
    if n == 0 then []
    else
      var log := LogAfter(digest, actions, n - 1);
      match actions[n - 1]
      case Ticks(snapshot) =>
        var events := ObservationsOf(digest, log, snapshot);
        AppendedAll(log, events, |events|)
      case Writes(event) => Appended(log, event)
  }

  /** Every payload the snapshots showed of a pull request. */
  function Stream(actions: seq<Action>, pr: nat, n: nat): seq<string>
    requires n <= |actions|
  {
    if n == 0 then []
    else if actions[n - 1].Writes? then Stream(actions, pr, n - 1)
    else Stream(actions, pr, n - 1) + SeenOf(actions[n - 1].snapshot.open, pr, |actions[n - 1].snapshot.open|)
  }

  lemma {:induction false} KeyedAfter(digest: Digest, actions: seq<Action>, n: nat)
    requires Injective(digest) && n <= |actions| && forall i :: 0 <= i < |actions| ==> Proper(actions[i])
    ensures Keyed(digest, LogAfter(digest, actions, n))
  {
    if n > 0 {
      KeyedAfter(digest, actions, n - 1);
      var log := LogAfter(digest, actions, n - 1);
      assert Proper(actions[n - 1]);
      match actions[n - 1]
      case Ticks(snapshot) =>
        OpensTicked(digest, log, snapshot, |snapshot.open|);
        RestAppended(digest, log, snapshot, |ObservationsOf(digest, log, snapshot)|);
      case Writes(event) => OtherAppend(digest, log, event);
    }
  }

  /** The log keeps of every pull request exactly what was observed, without consecutive repeats. */
  lemma {:induction false} RecordedWithoutStutter(digest: Digest, actions: seq<Action>, n: nat, pr: nat)
    requires Injective(digest) && n <= |actions| && forall i :: 0 <= i < |actions| ==> Proper(actions[i])
    ensures RecordedOf(LogAfter(digest, actions, n), pr) == WithoutStutter(Stream(actions, pr, n))
  {
    if n > 0 {
      RecordedWithoutStutter(digest, actions, n - 1, pr);
      KeyedAfter(digest, actions, n - 1);
      var log := LogAfter(digest, actions, n - 1);
      assert Proper(actions[n - 1]);
      match actions[n - 1]
      case Ticks(snapshot) =>
        OpensTicked(digest, log, snapshot, |snapshot.open|);
        StreamTicked(digest, log, snapshot, |snapshot.open|, pr, Stream(actions, pr, n - 1));
        RestAppended(digest, log, snapshot, |ObservationsOf(digest, log, snapshot)|);
      case Writes(event) => OtherAppend(digest, log, event);
    }
  }

  // ---------- one close ----------

  lemma {:induction false} ClosesAppended(log: seq<Event>, events: seq<Event>, n: nat)
    requires ClosesKeyed(log) && ClosesKeyed(events) && n <= |events|
    ensures ClosesKeyed(AppendedAll(log, events, n))
  {
    if n > 0 {
      ClosesAppended(log, events, n - 1);
    }
  }

  lemma {:induction false} ClosesAfter(digest: Digest, actions: seq<Action>, n: nat)
    requires Injective(digest) && n <= |actions| && forall k :: 0 <= k < |actions| ==> Proper(actions[k])
    ensures ClosesKeyed(LogAfter(digest, actions, n))
  {
    if n > 0 {
      ClosesAfter(digest, actions, n - 1);
      assert Proper(actions[n - 1]);
      if actions[n - 1].Ticks? {
        var log := LogAfter(digest, actions, n - 1);
        var events := ObservationsOf(digest, log, actions[n - 1].snapshot);
        ClosesAppended(log, events, |events|);
      }
    }
  }

  lemma {:induction false} AllAppended(log: seq<Event>, events: seq<Event>, n: nat)
    requires n <= |events|
    ensures var later := AppendedAll(log, events, n);
            && |log| <= |later| && later[..|log|] == log
            && (forall k :: 0 <= k < n ==> Has(later, events[k].dedupe))
            && (forall i :: |log| <= i < |later| ==> later[i] in events)
  {
    if n == 0 {
      assert log[..|log|] == log;
    } else {
      AllAppended(log, events, n - 1);
      var before, later := AppendedAll(log, events, n - 1), AppendedAll(log, events, n);
      assert later[..|log|] == before[..|log|];
      forall k | 0 <= k < n ensures Has(later, events[k].dedupe) {
        if k < n - 1 {
          var i :| 0 <= i < |before| && before[i].dedupe == events[k].dedupe;
          assert later[i] == before[i];
        } else if later != before {
          assert later[|before|] == events[k];
        }
      }
    }
  }

  predicate ClosedIn(log: seq<Event>, pr: nat) {
    exists i :: 0 <= i < |log| && log[i].kind == PrClosed && log[i].pr == Some(pr)
  }

  predicate AdvancedTo(log: seq<Event>, sha: string) {
    exists i :: 0 <= i < |log| && log[i].kind == MainAdvanced && log[i].payload == sha
  }

  /** After a tick every pull request that its snapshot shows closed is closed in the log, and so is every advance of
      main it shows; what the tick adds are closes and advances of the snapshot, and observations of the open ones. */
  lemma TickRecordsAll(digest: Digest, actions: seq<Action>, n: nat)
    requires Injective(digest) && n < |actions| && actions[n].Ticks? && forall k :: 0 <= k < |actions| ==> Proper(actions[k])
    ensures
      var log, later, snapshot := LogAfter(digest, actions, n), LogAfter(digest, actions, n + 1), actions[n].snapshot;
      && (forall k :: 0 <= k < |snapshot.closed| ==>
            ClosedIn(later, snapshot.closed[k].number))
      && (snapshot.main.Some? ==> AdvancedTo(later, snapshot.main.value))
      && |log| <= |later| && later[..|log|] == log
      && (forall i :: |log| <= i < |later| ==> ShownBy(snapshot, later[i]))
  {
    hide Observation, Keyed, AppendedAll, ObservationsOf, Has;
    var log, snapshot := LogAfter(digest, actions, n), actions[n].snapshot;
    var events := ObservationsOf(digest, log, snapshot);
    AllAppended(log, events, |events|);
    TickShows(digest, log, snapshot);
    ClosesAfter(digest, actions, n + 1);
    ClosesAreThere(digest, log, snapshot, AppendedAll(log, events, |events|));
    var later := LogAfter(digest, actions, n + 1);
    forall i | |log| <= i < |later| ensures ShownBy(snapshot, later[i]) {
      assert later[i] in events;
    }
  }

  lemma ClosesAreThere(digest: Digest, log: seq<Event>, snapshot: Snapshot, later: seq<Event>)
    requires ClosesKeyed(later)
    requires var events := ObservationsOf(digest, log, snapshot); forall k :: 0 <= k < |events| ==> Has(later, events[k].dedupe)
    ensures forall k :: 0 <= k < |snapshot.closed| ==>
              ClosedIn(later, snapshot.closed[k].number)
    ensures snapshot.main.Some? ==> AdvancedTo(later, snapshot.main.value)
  {
    hide Observation;
    var events := ObservationsOf(digest, log, snapshot);
    forall k | 0 <= k < |snapshot.closed|
      ensures ClosedIn(later, snapshot.closed[k].number)
    {
      assert events[|snapshot.open| + k] == Closing(snapshot.closed[k]);
      KeyedEvent(later, ClosedOnce(snapshot.closed[k].number));
    }
    if snapshot.main.Some? {
      assert events[|events| - 1].dedupe == MainAt(snapshot.main.value);
      KeyedEvent(later, MainAt(snapshot.main.value));
    }
  }

  /** Whoever holds a key of a close or of an advance of main is one. */
  lemma KeyedEvent(log: seq<Event>, dedupe: Dedupe)
    requires ClosesKeyed(log) && Has(log, dedupe)
    ensures dedupe.ClosedOnce? ==> ClosedIn(log, dedupe.pr)
    ensures dedupe.MainAt? ==> AdvancedTo(log, dedupe.sha)
  {
    var i :| 0 <= i < |log| && log[i].dedupe == dedupe;
    assert CloseKeyed(log[i]);
  }

  lemma TickShows(digest: Digest, log: seq<Event>, snapshot: Snapshot)
    ensures forall e :: e in ObservationsOf(digest, log, snapshot) ==> ShownBy(snapshot, e)
  {
    hide Observation;
    var events := ObservationsOf(digest, log, snapshot);
    forall e | e in events ensures ShownBy(snapshot, e) {
      var k :| 0 <= k < |events| && events[k] == e;
      if k < |snapshot.open| {
        assert e == Observation(digest, log, snapshot.open[k]);
        ObservationSays(digest, log, snapshot.open[k]);
      } else if k < |snapshot.open| + |snapshot.closed| {
        assert e == Closing(snapshot.closed[k - |snapshot.open|]);
      }
    }
  }

  /** The event says what the snapshot shows. */
  ghost predicate ShownBy(snapshot: Snapshot, e: Event) {
    || (e.kind.PrObserved? && exists k :: 0 <= k < |snapshot.open| && e.pr == Some(snapshot.open[k].number) && e.payload == snapshot.open[k].payload)
    || (e.kind.PrClosed? && exists k :: 0 <= k < |snapshot.closed| && e.pr == Some(snapshot.closed[k].number) && e.payload == snapshot.closed[k].payload)
    || (e.kind.MainAdvanced? && snapshot.main == Some(e.payload))
  }

  /** Two closes of one pull request are one event, whoever wrote them. */
  lemma OneClose(digest: Digest, actions: seq<Action>, n: nat, i: nat, j: nat)
    requires Injective(digest) && n <= |actions| && forall k :: 0 <= k < |actions| ==> Proper(actions[k])
    requires i < |LogAfter(digest, actions, n)| && j < |LogAfter(digest, actions, n)|
    requires LogAfter(digest, actions, n)[i].kind.PrClosed? && LogAfter(digest, actions, n)[j].kind.PrClosed?
    requires LogAfter(digest, actions, n)[i].pr == LogAfter(digest, actions, n)[j].pr
    ensures i == j
  {
    KeyedAfter(digest, actions, n);
    ClosesAfter(digest, actions, n);
    var log := LogAfter(digest, actions, n);
    assert CloseKeyed(log[i]) && CloseKeyed(log[j]);
  }

  /** The log as the folds of cards and pull requests read it: each close is one of the same pull request. */
  ghost predicate ReadAs(log: seq<Event>, read: seq<C.Event>) {
    && |read| == |log|
    && forall i :: 0 <= i < |log| ==> (read[i].PrClosed? ==> log[i].kind.PrClosed? && read[i].pr == log[i].pr)
  }

  /** So in every log that the writers can reach no card has two pull requests that are open or merged. */
  lemma EveryRunLinked(digest: Digest, actions: seq<Action>, n: nat, read: seq<C.Event>)
    requires Injective(digest) && n <= |actions| && forall k :: 0 <= k < |actions| ==> Proper(actions[k])
    requires ReadAs(LogAfter(digest, actions, n), read)
    ensures C.OneClosePerPr(read) && C.LinkedToTheLive(C.StateAt(read, |read|))
  {
    forall i, j | 0 <= i < j < |read| && read[i].PrClosed? && read[j].PrClosed?
      ensures read[i].pr.None? || read[i].pr != read[j].pr
    {
      if read[i].pr == read[j].pr {
        OneClose(digest, actions, n, i, j);
        assert false;
      }
    }
    C.LiveIsLinked(read, |read|);
  }
}
