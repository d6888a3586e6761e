/** Task keys: the printer and the suffix parsers of scripts/core/identifiers.ts and scripts/core/queue.ts. A key is
    printed from a task; later the task is read back from the key and the columns of its row. */
module TaskKeys {
  import opened Options

  datatype Queue = Review | Update | Merge | Answer | Launch | Restart | Close | Witness | Quality | Vitest

  datatype ReviewInput = ReviewInput(prBody: string, cardBody: Option<string>)

  datatype Task = Task(queue: Queue, card: int, pr: Option<int>, head: Option<string>, generation: Option<string>,
                       stop: Option<nat>, input: Option<ReviewInput>, cardBody: Option<string>, base: Option<string>,
                       prBody: Option<string>)

  /** The columns of a tasks row that say which task it is. */
  datatype Row = Row(key: string, queue: Queue, card: int, pr: Option<int>, head: Option<string>)

  /** What a task event says of its task: its own columns, and three fields of its payload. */
  datatype Event = Event(card: Option<int>, pr: Option<int>, head: Option<string>, key: string, queue: Option<Queue>,
                         generation: Option<string>)

  datatype Identified = Identified(key: string, queue: Queue) | Rejected | Thrown

  const MAX_SAFE_INTEGER := 9007199254740991

  function QueueName(queue: Queue): string {
    match queue
    case Review => "review"
    case Update => "update"
    case Merge => "merge"
    case Answer => "answer"
    case Launch => "launch"
    case Restart => "restart"
    case Close => "close"
    case Witness => "witness"
    case Quality => "quality"
    case Vitest => "vitest"
  }

  // ---------- characters, numbers and shas ----------

  predicate IsDigit(c: char) {
    '0' <= c <= '9'
  }

  predicate IsHex(c: char) {
    IsDigit(c) || 'a' <= c <= 'f'
  }

  predicate AllDigits(s: string) {
    forall i :: 0 <= i < |s| ==> IsDigit(s[i])
  }

  predicate AllHex(s: string) {
    forall i :: 0 <= i < |s| ==> IsHex(s[i])
  }

  predicate IsBodySha(s: string) {
    8 <= |s| <= 64 && AllHex(s)
  }

  predicate IsFullSha(s: string) {
    |s| == 40 && AllHex(s)
  }

  predicate IsPositive(n: int) {
    0 < n <= MAX_SAFE_INTEGER
  }

  function Digits(n: nat): (s: string)
    ensures |s| > 0 && AllDigits(s) && (n > 0 ==> s[0] != '0') && Number(s) == n
  {
    var last := ['0' + (n % 10) as char];
    if n < 10 then last else Digits(n / 10) + last
  }

  function Number(s: string): nat
    requires AllDigits(s)
  {
    if s == "" then 0 else Number(s[..|s| - 1]) * 10 + (s[|s| - 1] - '0') as nat
  }

  /** [1-9]\d* */
  predicate IsCount(s: string) {
    |s| > 0 && AllDigits(s) && s[0] != '0'
  }

  // ---------- the printer ----------

  function Or(o: Option<string>, absent: string): string {
    if o.Some? then o.value else absent
  }

  function PrText(pr: Option<int>): string
    requires pr.Some? ==> pr.value >= 0
  {
    if pr.Some? then Digits(pr.value) else "-"
  }

  function PlainText(pr: Option<int>, head: Option<string>): string
    requires pr.Some? ==> pr.value >= 0
  {
    PrText(pr) + (":" + Or(head, "-"))
  }

  predicate GenerationQueue(queue: Queue) {
    queue.Launch? || queue.Quality? || queue.Vitest?
  }

  predicate CardBodyQueue(queue: Queue) {
    queue.Answer? || queue.Witness?
  }

  function Prefix(queue: Queue, card: nat): string {
    QueueName(queue) + ":" + Digits(card) + ":"
  }

  /** A segment that is printed when there is a value. */
  function Segment(literal: string, o: Option<string>): string {
    if o.None? then "" else literal + o.value
  }

  function StopText(stop: Option<nat>): string {
    if stop.None? then "" else ":stop-" + Digits(stop.value)
  }

  function InputText(input: Option<ReviewInput>): string {
    if input.None? then "" else ":pr-body-" + input.value.prBody + (":card-body-" + Or(input.value.cardBody, "-"))
  }

  function InputSegment(task: Task): Option<string> {
    if task.input.None? then Some("")
    else
      var input := task.input.value;
      if task.queue != Review || task.pr.None? || task.head.None? then None
      else if !IsBodySha(input.prBody) || (input.cardBody.Some? && !IsBodySha(input.cardBody.value)) then None
      else Some(InputText(task.input))
  }

  /** None where the code throws. */
  function TaskKey(task: Task): Option<string> {
    if !IsPositive(task.card) then None
    else if task.pr.Some? && !IsPositive(task.pr.value) then None
    else if task.head.Some? && !IsFullSha(task.head.value) then None
    else if task.generation.Some? && (task.generation.value == "" || task.pr.Some? || task.head.Some?) then None
    else if task.generation.Some? then Some(Prefix(task.queue, task.card) + task.generation.value)
    else
      var input := InputSegment(task);
      if input.None? then None
      else Some(Prefix(task.queue, task.card) + PlainText(task.pr, task.head) + input.value)
  }

  function CardBodySegment(task: Task): Option<string> {
    if task.cardBody.None? then Some("")
    else if !CardBodyQueue(task.queue) || !IsBodySha(task.cardBody.value) then None
    else Some(Segment(":card-body-", task.cardBody))
  }

  function BaseSegment(task: Task): Option<string> {
    if task.base.None? then Some("")
    else if task.queue != Witness || task.cardBody.None? || !IsFullSha(task.base.value) then None
    else Some(Segment(":base-", task.base))
  }

  function PrBodySegment(task: Task): Option<string> {
    if task.prBody.None? then Some("")
    else if task.queue != Merge || task.pr.None? || !IsBodySha(task.prBody.value) then None
    else Some(Segment(":pr-body-", task.prBody))
  }

  function KeyOf(task: Task): Option<string> {
    var key, cardBody, base, prBody := TaskKey(task), CardBodySegment(task), BaseSegment(task), PrBodySegment(task);
    if key.None? || cardBody.None? || base.None? || prBody.None? then None
    else Some(key.value + (cardBody.value + (base.value + (prBody.value + StopText(task.stop)))))
  }

  /** A sha of a commit is forty small hexadecimal digits, one of a body eight to sixty-four. */
  lemma ShaSays(s: string)
    ensures IsFullSha(s) <==> |s| == 40 && forall i :: 0 <= i < |s| ==> s[i] in "0123456789abcdef"
    ensures IsBodySha(s) <==> 8 <= |s| <= 64 && forall i :: 0 <= i < |s| ==> s[i] in "0123456789abcdef"
  {
    forall i | 0 <= i < |s| ensures IsHex(s[i]) <==> s[i] in "0123456789abcdef" {
      HexDigits(s[i]);
    }
  }

  lemma HexDigits(c: char)
    ensures IsHex(c) <==> c in "0123456789abcdef"
  {
    if IsHex(c) {
      var k := if IsDigit(c) then (c - '0') as nat else 10 + (c - 'a') as nat;
      assert c == "0123456789abcdef"[k];
    }
  }

  /** Which tasks have a key; the code throws for any other. */
  lemma PrintsIff(task: Task)
    ensures
      KeyOf(task).Some? <==>
      && 1 <= task.card <= 9_007_199_254_740_991
      && (task.pr.Some? ==> 1 <= task.pr.value <= 9_007_199_254_740_991)
      && (task.head.Some? ==> IsFullSha(task.head.value))
      && (task.generation.Some? ==> task.generation.value != "" && task.pr.None? && task.head.None?)
      && (task.input.Some? && task.generation.None? ==>
            && task.queue == Review && task.pr.Some? && task.head.Some? && IsBodySha(task.input.value.prBody)
            && (task.input.value.cardBody.Some? ==> IsBodySha(task.input.value.cardBody.value)))
      && (task.cardBody.Some? ==> task.queue in {Answer, Witness} && IsBodySha(task.cardBody.value))
      && (task.base.Some? ==> task.queue == Witness && task.cardBody.Some? && IsFullSha(task.base.value))
      && (task.prBody.Some? ==> task.queue == Merge && task.pr.Some? && IsBodySha(task.prBody.value))
  {
    hide Prefix, PlainText, InputText, IsFullSha, IsBodySha;
  }

  function Bare(queue: Queue, pr: Option<int>, head: Option<string>): Task {
    Task(queue, 7, pr, head, None, None, None, None, None, None)
  }

  lemma SmallNumbers()
    ensures Digits(7) == "7" && Digits(3) == "3" && Digits(12) == "12"
  {
    assert Digits(1) == "1" && Digits(12) == Digits(1) + "2";
  }

  lemma PlainTextIs(head: string)
    ensures PlainText(Some(12), Some(head)) == "12:" + head
    ensures PlainText(Some(12), None) == "12:-" && PlainText(None, None) == "-:-"
  {
    SmallNumbers();
    assert "12" + (":" + head) == "12:" + head;
    assert "-" + (":" + "-") == "-:-" && "12" + (":" + "-") == "12:-";
  }

  lemma NothingFollows(key: string)
    ensures key + "" == key && key + ("" + ("" + ("" + ""))) == key
  {
  }

  lemma BareIs(queue: Queue, head: string)
    requires IsFullSha(head)
    ensures TaskKey(Bare(queue, Some(12), Some(head))) == Some(QueueName(queue) + (":7:12:" + head))
    ensures KeyOf(Bare(queue, Some(12), Some(head))) == Some(QueueName(queue) + (":7:12:" + head))
  {
    hide Digits;
    SmallNumbers();
    PlainTextIs(head);
    assert QueueName(queue) + ":" + "7" + ":" + ("12:" + head) + "" == QueueName(queue) + (":7:12:" + head);
    NothingFollows(QueueName(queue) + (":7:12:" + head));
  }

  /** The keys of tasks of card 7 and pull request 12, by their queue alone. */
  lemma PlainKeys(head: string)
    requires IsFullSha(head)
    ensures KeyOf(Bare(Review, Some(12), Some(head))) == Some("review" + (":7:12:" + head))
    ensures KeyOf(Bare(Update, Some(12), Some(head))) == Some("update" + (":7:12:" + head))
    ensures KeyOf(Bare(Merge, Some(12), Some(head))) == Some("merge" + (":7:12:" + head))
    ensures KeyOf(Bare(Answer, Some(12), Some(head))) == Some("answer" + (":7:12:" + head))
    ensures KeyOf(Bare(Launch, Some(12), Some(head))) == Some("launch" + (":7:12:" + head))
    ensures KeyOf(Bare(Restart, Some(12), Some(head))) == Some("restart" + (":7:12:" + head))
    ensures KeyOf(Bare(Close, Some(12), Some(head))) == Some("close" + (":7:12:" + head))
    ensures KeyOf(Bare(Witness, Some(12), Some(head))) == Some("witness" + (":7:12:" + head))
    ensures KeyOf(Bare(Quality, Some(12), Some(head))) == Some("quality" + (":7:12:" + head))
    ensures KeyOf(Bare(Vitest, Some(12), Some(head))) == Some("vitest" + (":7:12:" + head))
  {
    hide TaskKey, KeyOf;
    forall queue ensures KeyOf(Bare(queue, Some(12), Some(head))) == Some(QueueName(queue) + (":7:12:" + head)) {
      BareIs(queue, head);
    }
  }

  lemma GeneratedKey(queue: Queue, generation: string)
    requires generation != ""
    ensures KeyOf(Bare(queue, None, None).(generation := Some(generation))) == Some(QueueName(queue) + (":7:" + generation))
  {
    hide Digits;
    SmallNumbers();
    assert QueueName(queue) + ":" + "7" + ":" + generation == QueueName(queue) + (":7:" + generation);
    NothingFollows(QueueName(queue) + (":7:" + generation));
  }

  lemma MergeKey(head: string, body: string)
    requires IsFullSha(head) && IsBodySha(body)
    ensures KeyOf(Bare(Merge, Some(12), Some(head)).(prBody := Some(body))) == Some("merge" + (":7:12:" + head) + (":pr-body-" + body))
  {
    hide Digits;
    BareIs(Merge, head);
    assert "" + ("" + (":pr-body-" + body + "")) == ":pr-body-" + body;
  }

  lemma AnswerKey(head: string, body: string)
    requires IsFullSha(head) && IsBodySha(body)
    ensures KeyOf(Bare(Answer, Some(12), Some(head)).(cardBody := Some(body), stop := Some(3))) ==
            Some("answer" + (":7:12:" + head) + (":card-body-" + body + ":stop-3"))
  {
    hide Digits;
    SmallNumbers();
    BareIs(Answer, head);
    assert "" + ("" + ":stop-3") == ":stop-3" && ":stop-" + "3" == ":stop-3";
  }

  lemma WitnessKey(head: string, body: string, base: string)
    requires IsFullSha(head) && IsBodySha(body) && IsFullSha(base)
    ensures KeyOf(Bare(Witness, Some(12), Some(head)).(cardBody := Some(body), base := Some(base))) ==
            Some("witness" + (":7:12:" + head) + (":card-body-" + body + (":base-" + base)))
  {
    hide Digits;
    BareIs(Witness, head);
    assert ":base-" + base + ("" + "") == ":base-" + base;
  }

  lemma ReviewKey(head: string, body: string, cardBody: Option<string>)
    requires IsFullSha(head) && IsBodySha(body) && (cardBody.Some? ==> IsBodySha(cardBody.value))
    ensures KeyOf(Bare(Review, Some(12), Some(head)).(input := Some(ReviewInput(body, cardBody)))) ==
            Some("review" + (":7:12:" + head) + (":pr-body-" + body + (":card-body-" + (if cardBody.Some? then cardBody.value else "-"))))
  {
    hide Digits;
    BareIs(Review, head);
    NothingFollows(Prefix(Review, 7) + PlainText(Some(12), Some(head)));
    NothingFollows("review" + (":7:12:" + head) + (":pr-body-" + body + (":card-body-" + Or(cardBody, "-"))));
  }

  // ---------- the suffix parsers ----------

  /** A regular expression that ends in `$`: the leftmost place from which it matches all the rest. */
  function Exec<T>(at: string -> Option<T>, s: string): Option<T> {
    if at(s).Some? then at(s) else if s == "" then None else Exec(at, s[1..])
  }

  predicate Starts(s: string, literal: string) {
    |literal| <= |s| && s[..|literal|] == literal
  }

  /** The longest run of hexadecimal digits s begins with. */
  function HexRun(s: string): (n: nat)
    ensures n <= |s| && AllHex(s[..n]) && (n < |s| ==> !IsHex(s[n]))
  {
    if s == "" || !IsHex(s[0]) then 0
    else
      var n := HexRun(s[1..]);
      assert s[..n + 1] == [s[0]] + s[1..][..n];
      n + 1
  }

  /** The hexadecimal digits after a literal, as many as there are, and what comes after them. */
  datatype Run = Run(hex: string, rest: string)

  function HexAfter(s: string, literal: string): Option<Run> {
    if !Starts(s, literal) then None
    else
      var n := HexRun(s[|literal|..]);
      Some(Run(s[|literal|..|literal| + n], s[|literal| + n..]))
  }

  function StopAt(s: string): Option<nat> {
    if Starts(s, ":stop-") && IsCount(s[6..]) then Some(Number(s[6..])) else None
  }

  predicate EndsOrStops(s: string) {
    s == "" || StopAt(s).Some?
  }

  function BaseAt(s: string): Option<string> {
    var run := HexAfter(s, ":base-");
    if run.Some? && IsFullSha(run.value.hex) && EndsOrStops(run.value.rest) then Some(run.value.hex) else None
  }

  function CardBodyAt(s: string): Option<string> {
    var run := HexAfter(s, ":card-body-");
    if run.Some? && IsBodySha(run.value.hex) && (EndsOrStops(run.value.rest) || BaseAt(run.value.rest).Some?) then Some(run.value.hex)
    else None
  }

  function PrBodyAt(s: string): Option<string> {
    var run := HexAfter(s, ":pr-body-");
    if run.Some? && IsBodySha(run.value.hex) && run.value.rest == "" then Some(run.value.hex) else None
  }

  function InputOf(prBody: string, card: Option<Run>): Option<ReviewInput> {
    if card.None? then None
    else if card.value.hex == "" && card.value.rest == "-" then Some(ReviewInput(prBody, None))
    else if IsBodySha(card.value.hex) && card.value.rest == "" then Some(ReviewInput(prBody, Some(card.value.hex)))
    else None
  }

  function InputAt(s: string): Option<ReviewInput> {
    var run := HexAfter(s, ":pr-body-");
    if run.None? || !IsBodySha(run.value.hex) then None
    else InputOf(run.value.hex, HexAfter(run.value.rest, ":card-body-"))
  }

  function Plain(queue: Queue, card: int, pr: Option<int>, head: Option<string>): Task {
    Task(queue, card, pr, head, None, None, None, None, None, None)
  }

  /** generationOfKey once the plain key of the row is printed. */
  function GenerationIn(key: string, plain: string, row: Row): Option<string>
    requires row.card > 0
  {
    var prefix := Prefix(row.queue, row.card);
    if !GenerationQueue(row.queue) || key == plain || !Starts(key, prefix) || row.pr.Some? || row.head.Some? then None
    else Some(key[|prefix|..])
  }

  /** The task of a row; None where the plain key of the row cannot be printed. */
  function Identity(row: Row): Option<Task> {
    var plain := TaskKey(Plain(row.queue, row.card, row.pr, row.head));
    if plain.None? then None
    else Some(Task(
      row.queue, row.card, row.pr, row.head, GenerationIn(row.key, plain.value, row), Exec(StopAt, row.key),
      if row.queue.Review? then Exec(InputAt, row.key) else None,
      if CardBodyQueue(row.queue) then Exec(CardBodyAt, row.key) else None,
      if row.queue.Witness? then Exec(BaseAt, row.key) else None,
      if row.queue.Merge? then Exec(PrBodyAt, row.key) else None))
  }

  /** The task a fold reads off an event. */
  function TaskOf(event: Event): Task
    requires event.queue.Some? && event.card.Some?
  {
    var queue := event.queue.value;
    Task(
      queue, event.card.value, event.pr, event.head, event.generation,
      if queue.Answer? then Exec(StopAt, event.key) else None,
      if queue.Review? then Exec(InputAt, event.key) else None,
      if CardBodyQueue(queue) then Exec(CardBodyAt, event.key) else None,
      if queue.Witness? then Exec(BaseAt, event.key) else None,
      if queue.Merge? then Exec(PrBodyAt, event.key) else None)
  }

  function IdentityOf(event: Event): Identified {
    if event.queue.None? || event.card.None? then Rejected
    else
      var task := TaskOf(event);
      if task.input.Some? && (event.pr.None? || event.head.None?) then Rejected
      else
        var key := KeyOf(task);
        if key.None? then Thrown
        else if key.value != event.key then Rejected
        else Identified(event.key, task.queue)
  }

  /** An event names a task exactly when the key printed of what it says is the one it carries. */
  lemma IdentifiedIff(event: Event, key: string, queue: Queue)
    ensures IdentityOf(event) == Identified(key, queue) <==>
              && event.queue == Some(queue) && event.card.Some? && key == event.key && KeyOf(TaskOf(event)) == Some(key)
              && (queue == Review && Exec(InputAt, key).Some? ==> event.pr.Some? && event.head.Some?)
    ensures IdentityOf(event) == Thrown <==>
              && event.queue.Some? && event.card.Some? && KeyOf(TaskOf(event)) == None
              && (event.queue == Some(Review) && Exec(InputAt, event.key).Some? ==> event.pr.Some? && event.head.Some?)
  {
    hide KeyOf, Exec;
  }

  /** The row foldEnqueued writes for a task, and the event the writers append for it. */
  function RowOf(task: Task, key: string): Row {
    Row(key, task.queue, task.card, task.pr, task.head)
  }

  function EventOf(task: Task, key: string): Event {
    Event(Some(task.card), task.pr, task.head, key, Some(task.queue), task.generation)
  }

  // ---------- a parser skips what it cannot begin with ----------

  lemma Joined(literal: string, value: string, rest: string)
    ensures literal + value + rest == literal + (value + rest)
  {
  }

  predicate ColonFree(s: string) {
    ':' !in s
  }

  /** The literals the expressions begin with: a colon, no digit and no dash, and no hexadecimal digit at the
      fourth place. */
  predicate IsLiteral(literal: string) {
    |literal| >= 4 && literal[0] == ':' && !IsDigit(literal[1]) && literal[1] != '-' && !IsHex(literal[3])
  }

  ghost predicate BeginsWith<T(!new)>(at: string -> Option<T>, literal: string) {
    IsLiteral(literal) && forall s :: at(s).Some? ==> Starts(s, literal)
  }

  /** A word that tells the text from the literal at its first or third character. */
  predicate Foreign(word: string, literal: string)
    requires IsLiteral(literal)
  {
    |word| > 0 && (word[0] != literal[1] || (|word| >= 3 && word[2] != literal[3]))
  }

  lemma {:induction false} SkipsWord<T(!new)>(at: string -> Option<T>, literal: string, word: string, rest: string)
    requires BeginsWith(at, literal) && ColonFree(word)
    ensures Exec(at, word + rest) == Exec(at, rest)
  {
    if word == "" {
      assert word + rest == rest;
    } else {
      assert (word + rest)[1..] == word[1..] + rest;
      assert word[0] in word;
      SkipsWord(at, literal, word[1..], rest);
    }
  }

  lemma SkipsSegment<T(!new)>(at: string -> Option<T>, literal: string, word: string, rest: string)
    requires BeginsWith(at, literal) && ColonFree(word) && Foreign(word, literal)
    ensures Exec(at, ":" + word + rest) == Exec(at, rest)
  {
    var s := ":" + word + rest;
    assert s[1] == word[0] && (|word| >= 3 ==> s[3] == word[2]);
    assert s[1..] == word + rest;
    SkipsWord(at, literal, word, rest);
  }

  lemma DigitsAreForeign(n: nat, literal: string)
    requires IsLiteral(literal)
    ensures ColonFree(Digits(n)) && Foreign(Digits(n), literal)
  {
  }

  lemma NamesAreColonFree(queue: Queue)
    ensures ColonFree(QueueName(queue))
  {
  }

  lemma SkipsPrefix<T(!new)>(at: string -> Option<T>, literal: string, queue: Queue, card: nat, rest: string)
    requires BeginsWith(at, literal)
    ensures Exec(at, Prefix(queue, card) + rest) == Exec(at, ":" + rest)
  {
    assert Prefix(queue, card) + rest == QueueName(queue) + (":" + Digits(card) + (":" + rest));
    NamesAreColonFree(queue);
    SkipsWord(at, literal, QueueName(queue), ":" + Digits(card) + (":" + rest));
    DigitsAreForeign(card, literal);
    SkipsSegment(at, literal, Digits(card), ":" + rest);
  }

  predicate IsPlain(pr: Option<int>, head: Option<string>) {
    (pr.Some? ==> pr.value > 0) && (head.Some? ==> IsFullSha(head.value))
  }

  lemma HeadIsForeign(head: Option<string>, literal: string)
    requires IsLiteral(literal) && (head.Some? ==> IsFullSha(head.value))
    ensures ColonFree(Or(head, "-")) && Foreign(Or(head, "-"), literal)
  {
  }

  /** A parser sees of a plain key only what comes after the head. */
  lemma PlainParts(pr: Option<int>, head: Option<string>, tail: string)
    requires pr.Some? ==> pr.value >= 0
    ensures PlainText(pr, head) + tail == PrText(pr) + (":" + Or(head, "-") + tail)
  {
  }

  lemma SkipsPrAndHead<T(!new)>(at: string -> Option<T>, literal: string, pr: Option<int>, head: Option<string>, tail: string)
    requires BeginsWith(at, literal) && IsPlain(pr, head)
    ensures Exec(at, ":" + (PlainText(pr, head) + tail)) == Exec(at, tail)
  {
    PlainParts(pr, head, tail);
    if pr.Some? {
      DigitsAreForeign(pr.value, literal);
    }
    Joined(":", PrText(pr), ":" + Or(head, "-") + tail);
    SkipsSegment(at, literal, PrText(pr), ":" + Or(head, "-") + tail);
    HeadIsForeign(head, literal);
    SkipsSegment(at, literal, Or(head, "-"), tail);
  }

  /** A parser sees of a plain key only what comes after the head. */
  lemma SkipsPlain<T(!new)>(at: string -> Option<T>, literal: string, queue: Queue, card: nat, pr: Option<int>, head: Option<string>, tail: string)
    requires BeginsWith(at, literal) && IsPlain(pr, head)
    ensures Exec(at, Prefix(queue, card) + PlainText(pr, head) + tail) == Exec(at, tail)
  {
    Joined(Prefix(queue, card), PlainText(pr, head), tail);
    SkipsPrefix(at, literal, queue, card, PlainText(pr, head) + tail);
    SkipsPrAndHead(at, literal, pr, head, tail);
  }

  // ---------- what each parser reads off the tail of a key ----------

  lemma StopBegins()
    ensures BeginsWith(StopAt, ":stop-")
  {
  }

  lemma BaseBegins()
    ensures BeginsWith(BaseAt, ":base-")
  {
  }

  lemma CardBodyBegins()
    ensures BeginsWith(CardBodyAt, ":card-body-")
  {
  }

  lemma PrBodyBegins()
    ensures BeginsWith(PrBodyAt, ":pr-body-")
  {
  }

  lemma InputBegins()
    ensures BeginsWith(InputAt, ":pr-body-")
  {
  }

  predicate StopIsPositive(stop: Option<nat>) {
    stop.Some? ==> stop.value > 0
  }

  lemma StopReadsBack(stop: Option<nat>)
    ensures Exec(StopAt, StopText(stop)) == (if StopIsPositive(stop) then stop else None)
    ensures EndsOrStops(StopText(stop)) == StopIsPositive(stop)
  {
    if stop.Some? {
      var digits := Digits(stop.value);
      var s := ":stop-" + digits;
      assert s[..6] == ":stop-" && s[6..] == digits;
      if stop.value == 0 {
        assert !IsCount(digits);
        assert s[1..] == "stop-" + digits && ColonFree(s[1..]);
        StopBegins();
        SkipsWord(StopAt, ":stop-", s[1..], "");
        assert s[1..] + "" == s[1..];
      }
    }
  }

  predicate IsSegment(literal: string) {
    |literal| >= 2 && literal[0] == ':' && ColonFree(literal[1..])
  }

  /** A segment that begins with another literal is skipped, and so is one a parser does not take. */
  lemma SkipsValue<T(!new)>(at: string -> Option<T>, literal: string, segment: string, value: string, rest: string)
    requires BeginsWith(at, literal) && IsSegment(segment) && ColonFree(value)
    requires segment[1] != literal[1] || at(segment + (value + rest)).None?
    ensures Exec(at, segment + (value + rest)) == Exec(at, rest)
  {
    var s := segment + (value + rest);
    var word := segment[1..] + value;
    assert s[1] == segment[1];
    assert s[1..] == word + rest;
    SkipsWord(at, literal, word, rest);
  }

  lemma SkipsStop<T(!new)>(at: string -> Option<T>, literal: string, stop: Option<nat>)
    requires BeginsWith(at, literal) && literal[1] != 's'
    ensures Exec(at, StopText(stop)).None?
  {
    if stop.Some? {
      SkipsValue(at, literal, ":stop-", Digits(stop.value), "");
      assert Digits(stop.value) + "" == Digits(stop.value);
    }
    assert at("").None?;
  }

  lemma {:induction false} HexRunEnds(hex: string, rest: string)
    requires AllHex(hex) && (rest == "" || !IsHex(rest[0]))
    ensures HexRun(hex + rest) == |hex|
  {
    if hex == "" {
      assert hex + rest == rest;
    } else {
      assert (hex + rest)[1..] == hex[1..] + rest;
      HexRunEnds(hex[1..], rest);
    }
  }

  lemma HexAfterPrinted(literal: string, hex: string, rest: string)
    requires AllHex(hex) && (rest == "" || !IsHex(rest[0]))
    ensures HexAfter(literal + (hex + rest), literal) == Some(Run(hex, rest))
  {
    var s := literal + (hex + rest);
    assert s[..|literal|] == literal && s[|literal|..] == hex + rest;
    HexRunEnds(hex, rest);
    assert s[|literal|..|literal| + |hex|] == hex && s[|literal| + |hex|..] == rest;
  }

  predicate ShaOrNone(o: Option<string>) {
    o.Some? ==> IsBodySha(o.value)
  }

  predicate FullShaOrNone(o: Option<string>) {
    o.Some? ==> IsFullSha(o.value)
  }

  lemma BaseReadsBack(base: Option<string>, stop: Option<nat>)
    requires FullShaOrNone(base) && StopIsPositive(stop)
    ensures Exec(BaseAt, Segment(":base-", base) + StopText(stop)) == base
    ensures base.Some? ==> BaseAt(Segment(":base-", base) + StopText(stop)).Some?
  {
    if base.Some? {
      Joined(":base-", base.value, StopText(stop));
      HexAfterPrinted(":base-", base.value, StopText(stop));
      StopReadsBack(stop);
    } else {
      BaseBegins();
      SkipsStop(BaseAt, ":base-", stop);
      assert "" + StopText(stop) == StopText(stop);
    }
  }

  lemma CardBodyReadsBack(cardBody: Option<string>, base: Option<string>, stop: Option<nat>)
    requires ShaOrNone(cardBody) && FullShaOrNone(base) && StopIsPositive(stop) && (base.Some? ==> cardBody.Some?)
    ensures Exec(CardBodyAt, Segment(":card-body-", cardBody) + (Segment(":base-", base) + StopText(stop))) == cardBody
  {
    var rest := Segment(":base-", base) + StopText(stop);
    if cardBody.Some? {
      BaseReadsBack(base, stop);
      StopReadsBack(stop);
      assert base.None? ==> rest == StopText(stop);
      Joined(":card-body-", cardBody.value, rest);
      HexAfterPrinted(":card-body-", cardBody.value, rest);
    } else {
      CardBodyBegins();
      SkipsStop(CardBodyAt, ":card-body-", stop);
      assert "" + ("" + StopText(stop)) == StopText(stop);
    }
  }

  /** A stop after the body of a pull request hides it. */
  lemma PrBodyReadsBack(prBody: Option<string>, stop: Option<nat>)
    requires ShaOrNone(prBody)
    ensures Exec(PrBodyAt, Segment(":pr-body-", prBody) + StopText(stop)) == (if stop.None? then prBody else None)
  {
    if prBody.Some? {
      Joined(":pr-body-", prBody.value, StopText(stop));
      HexAfterPrinted(":pr-body-", prBody.value, StopText(stop));
      PrBodyThenStop(prBody.value, stop);
    } else {
      PrBodyBegins();
      SkipsStop(PrBodyAt, ":pr-body-", stop);
      assert "" + StopText(stop) == StopText(stop);
    }
  }

  lemma PrBodyThenStop(body: string, stop: Option<nat>)
    requires IsBodySha(body)
    requires HexAfter(":pr-body-" + (body + StopText(stop)), ":pr-body-") == Some(Run(body, StopText(stop)))
    ensures Exec(PrBodyAt, ":pr-body-" + (body + StopText(stop))) == (if stop.None? then Some(body) else None)
  {
    if stop.Some? {
      StopHidesBody(body, stop);
    }
  }

  lemma StopHidesBody(body: string, stop: Option<nat>)
    requires IsBodySha(body) && stop.Some?
    requires HexAfter(":pr-body-" + (body + StopText(stop)), ":pr-body-") == Some(Run(body, StopText(stop)))
    ensures Exec(PrBodyAt, ":pr-body-" + (body + StopText(stop))).None?
  {
    hide Exec, Digits;
    PrBodyBegins();
    SkipsValue(PrBodyAt, ":pr-body-", ":pr-body-", body, StopText(stop));
    SkipsStop(PrBodyAt, ":pr-body-", stop);
  }

  predicate InputOrNone(input: Option<ReviewInput>) {
    input.Some? ==> IsBodySha(input.value.prBody) && ShaOrNone(input.value.cardBody)
  }

  /** The second segment of a review input. */
  lemma CardOfInput(card: Option<string>, stop: Option<nat>)
    requires ShaOrNone(card)
    ensures HexAfter(":card-body-" + (Or(card, "-") + StopText(stop)), ":card-body-") ==
            Some(if card.Some? then Run(card.value, StopText(stop)) else Run("", "-" + StopText(stop)))
  {
    if card.Some? {
      HexAfterPrinted(":card-body-", card.value, StopText(stop));
    } else {
      assert "" + ("-" + StopText(stop)) == "-" + StopText(stop);
      HexAfterPrinted(":card-body-", "", "-" + StopText(stop));
    }
  }

  lemma InputOfPrinted(prBody: string, card: Option<string>, tail: string)
    requires ShaOrNone(card)
    ensures InputOf(prBody, Some(if card.Some? then Run(card.value, tail) else Run("", "-" + tail))) ==
            (if tail == "" then Some(ReviewInput(prBody, card)) else None)
  {
    if card.None? {
      assert |"-" + tail| == 1 + |tail|;
      assert tail == "" ==> "-" + tail == "-";
    }
  }

  lemma InputAtPrinted(input: ReviewInput, stop: Option<nat>)
    requires InputOrNone(Some(input))
    ensures InputAt(InputChain(input, stop)) == (if stop.None? then Some(input) else None)
  {
    HexAfterPrinted(":pr-body-", input.prBody, ":card-body-" + (Or(input.cardBody, "-") + StopText(stop)));
    CardOfInput(input.cardBody, stop);
    InputOfPrinted(input.prBody, input.cardBody, StopText(stop));
  }

  function InputChain(input: ReviewInput, stop: Option<nat>): string {
    ":pr-body-" + (input.prBody + (":card-body-" + (Or(input.cardBody, "-") + StopText(stop))))
  }

  lemma InputIsChain(input: ReviewInput, stop: Option<nat>)
    ensures InputText(Some(input)) + StopText(stop) == InputChain(input, stop)
  {
    var card := ":card-body-" + Or(input.cardBody, "-");
    Joined(":card-body-", Or(input.cardBody, "-"), StopText(stop));
    Joined(":pr-body-", input.prBody, card + StopText(stop));
    Joined(":pr-body-" + input.prBody, card, StopText(stop));
  }

  /** A stop after a review input hides it. */
  lemma InputReadsBack(input: Option<ReviewInput>, stop: Option<nat>)
    requires InputOrNone(input)
    ensures Exec(InputAt, InputText(input) + StopText(stop)) == (if stop.None? then input else None)
  {
    if input.Some? {
      InputIsChain(input.value, stop);
      InputAtPrinted(input.value, stop);
      if stop.Some? {
        InputLost(input.value.prBody, Or(input.value.cardBody, "-"), stop);
      }
    } else {
      InputBegins();
      SkipsStop(InputAt, ":pr-body-", stop);
      assert "" + StopText(stop) == StopText(stop);
    }
  }

  lemma {:induction false} InputLost(prBody: string, card: string, stop: Option<nat>)
    requires ColonFree(prBody) && ColonFree(card)
    requires InputAt(":pr-body-" + (prBody + (":card-body-" + (card + StopText(stop))))).None?
    ensures Exec(InputAt, ":pr-body-" + (prBody + (":card-body-" + (card + StopText(stop))))).None?
  {
    InputBegins();
    SkipsValue(InputAt, ":pr-body-", ":pr-body-", prBody, ":card-body-" + (card + StopText(stop)));
    SkipsValue(InputAt, ":pr-body-", ":card-body-", card, StopText(stop));
    SkipsStop(InputAt, ":pr-body-", stop);
  }

  // ---------- the key of a task without a generation ----------

  function Tail(task: Task): string {
    InputText(task.input) +
    (Segment(":card-body-", task.cardBody) + (Segment(":base-", task.base) + (Segment(":pr-body-", task.prBody) + StopText(task.stop))))
  }

  /** What the printer demands of the parts of a task. */
  predicate Carries(task: Task) {
    && (task.cardBody.Some? ==> CardBodyQueue(task.queue) && IsBodySha(task.cardBody.value))
    && (task.base.Some? ==> task.queue.Witness? && task.cardBody.Some? && IsFullSha(task.base.value))
    && (task.prBody.Some? ==> task.queue.Merge? && task.pr.Some? && IsBodySha(task.prBody.value))
  }

  predicate CarriesInput(task: Task) {
    task.input.Some? ==> task.queue.Review? && task.pr.Some? && task.head.Some? && InputOrNone(task.input)
  }

  lemma PlainKeyHasTail(task: Task)
    requires KeyOf(task).Some? && task.generation.None?
    ensures task.card > 0 && IsPlain(task.pr, task.head) && Carries(task) && CarriesInput(task)
    ensures KeyOf(task).value == Prefix(task.queue, task.card) + PlainText(task.pr, task.head) + Tail(task)
    ensures TaskKey(Plain(task.queue, task.card, task.pr, task.head)) == Some(Prefix(task.queue, task.card) + PlainText(task.pr, task.head))
  {
    var plain := Prefix(task.queue, task.card) + PlainText(task.pr, task.head);
    Joined(plain, InputText(task.input),
           Segment(":card-body-", task.cardBody) + (Segment(":base-", task.base) + (Segment(":pr-body-", task.prBody) + StopText(task.stop))));
    assert plain + "" == plain;
  }

  lemma NothingBefore(s: string)
    ensures "" + s == s == s + ""
  {
  }

  lemma TailOfItsQueue(task: Task)
    requires Carries(task) && CarriesInput(task)
    ensures task.queue.Review? ==> Tail(task) == InputText(task.input) + StopText(task.stop)
    ensures CardBodyQueue(task.queue) ==>
              Tail(task) == Segment(":card-body-", task.cardBody) + (Segment(":base-", task.base) + StopText(task.stop))
    ensures task.queue.Merge? ==> Tail(task) == Segment(":pr-body-", task.prBody) + StopText(task.stop)
    ensures !task.queue.Review? && !CardBodyQueue(task.queue) && !task.queue.Merge? ==> Tail(task) == StopText(task.stop)
  {
    NothingBefore(StopText(task.stop));
    NothingBefore(Segment(":pr-body-", task.prBody) + StopText(task.stop));
    NothingBefore(Segment(":base-", task.base) + StopText(task.stop));
    NothingBefore(Segment(":card-body-", task.cardBody) + (Segment(":base-", task.base) + StopText(task.stop)));
  }

  lemma SkipsOptional<T(!new)>(at: string -> Option<T>, literal: string, segment: string, o: Option<string>, rest: string)
    requires BeginsWith(at, literal) && IsSegment(segment) && segment[1] != literal[1] && (o.Some? ==> ColonFree(o.value))
    ensures Exec(at, Segment(segment, o) + rest) == Exec(at, rest)
  {
    if o.Some? {
      Joined(segment, o.value, rest);
      SkipsValue(at, literal, segment, o.value, rest);
    } else {
      NothingBefore(rest);
    }
  }

  lemma StopOfInput(input: ReviewInput, stop: Option<nat>)
    requires InputOrNone(Some(input))
    ensures Exec(StopAt, InputText(Some(input)) + StopText(stop)) == Exec(StopAt, StopText(stop))
  {
    InputIsChain(input, stop);
    StopBegins();
    SkipsValue(StopAt, ":stop-", ":pr-body-", input.prBody, ":card-body-" + (Or(input.cardBody, "-") + StopText(stop)));
    SkipsValue(StopAt, ":stop-", ":card-body-", Or(input.cardBody, "-"), StopText(stop));
  }

  lemma StopOfTail(task: Task)
    requires Carries(task) && CarriesInput(task)
    ensures Exec(StopAt, Tail(task)) == Exec(StopAt, StopText(task.stop))
  {
    TailOfItsQueue(task);
    var stop := StopText(task.stop);
    if task.queue.Review? {
      if task.input.Some? {
        StopOfInput(task.input.value, task.stop);
      } else {
        NothingBefore(stop);
      }
    } else {
      StopBegins();
      SkipsOptional(StopAt, ":stop-", ":card-body-", task.cardBody, Segment(":base-", task.base) + stop);
      SkipsOptional(StopAt, ":stop-", ":base-", task.base, stop);
      SkipsOptional(StopAt, ":stop-", ":pr-body-", task.prBody, stop);
    }
  }

  // What every parser reads off the key of a task without a generation.

  predicate IsPlainKey(task: Task, key: string) {
    KeyOf(task) == Some(key) && task.generation.None?
  }

  lemma {:induction false} ReadsTail<T(!new)>(at: string -> Option<T>, literal: string, task: Task, key: string)
    requires IsPlainKey(task, key) && BeginsWith(at, literal)
    ensures Exec(at, key) == Exec(at, Tail(task))
  {
    PlainKeyHasTail(task);
    SkipsPlain(at, literal, task.queue, task.card, task.pr, task.head, Tail(task));
  }

  lemma {:induction false} ReadsStop(task: Task, key: string)
    requires IsPlainKey(task, key)
    ensures Exec(StopAt, key) == (if StopIsPositive(task.stop) then task.stop else None)
  {
    StopBegins();
    ReadsTail(StopAt, ":stop-", task, key);
    PlainKeyHasTail(task);
    StopOfTail(task);
    StopReadsBack(task.stop);
  }

  lemma {:induction false} ReadsInput(task: Task, key: string)
    requires IsPlainKey(task, key) && task.queue.Review?
    ensures Exec(InputAt, key) == (if task.stop.None? then task.input else None)
  {
    InputBegins();
    ReadsTail(InputAt, ":pr-body-", task, key);
    PlainKeyHasTail(task);
    TailOfItsQueue(task);
    InputReadsBack(task.input, task.stop);
  }

  lemma ReadsPrBody(task: Task, key: string)
    requires IsPlainKey(task, key) && task.queue.Merge?
    ensures Exec(PrBodyAt, key) == (if task.stop.None? then task.prBody else None)
  {
    PrBodyBegins();
    ReadsTail(PrBodyAt, ":pr-body-", task, key);
    PlainKeyHasTail(task);
    TailOfItsQueue(task);
    PrBodyReadsBack(task.prBody, task.stop);
  }

  lemma ReadsCardBody(task: Task, key: string)
    requires IsPlainKey(task, key) && CardBodyQueue(task.queue) && StopIsPositive(task.stop)
    ensures Exec(CardBodyAt, key) == task.cardBody
  {
    CardBodyBegins();
    ReadsTail(CardBodyAt, ":card-body-", task, key);
    PlainKeyHasTail(task);
    TailOfItsQueue(task);
    CardBodyReadsBack(task.cardBody, task.base, task.stop);
  }

  lemma ReadsBase(task: Task, key: string)
    requires IsPlainKey(task, key) && task.queue.Witness? && StopIsPositive(task.stop)
    ensures Exec(BaseAt, key) == task.base
  {
    BaseBegins();
    ReadsTail(BaseAt, ":base-", task, key);
    PlainKeyHasTail(task);
    TailOfItsQueue(task);
    SkipsOptional(BaseAt, ":base-", ":card-body-", task.cardBody, Segment(":base-", task.base) + StopText(task.stop));
    BaseReadsBack(task.base, task.stop);
  }

  // ---------- the round trip ----------

  /** The generation reads back as a generation: its queue has them, and neither is it the plain form nor does the
      stop of an answer read out of it. */
  predicate GenerationReads(task: Task)
    requires task.generation.Some?
  {
    && GenerationQueue(task.queue) && task.stop.None? && task.input.None?
    && task.generation.value != "-:-" && Exec(StopAt, ":" + task.generation.value).None?
  }

  /** A stop counts from one, hides no body or input before it, and is not taken for a generation. */
  predicate StopReads(task: Task) {
    task.stop.Some? ==>
      (task.stop.value > 0 && task.input.None? && task.prBody.None?
       && (GenerationQueue(task.queue) ==> task.pr.Some? || task.head.Some?))
  }

  predicate ReadsBack(task: Task) {
    if task.generation.Some? then GenerationReads(task) else StopReads(task)
  }

  lemma GenerationKey(task: Task, key: string)
    requires KeyOf(task) == Some(key) && task.generation.Some? && GenerationQueue(task.queue)
    ensures task.card > 0 && task.pr.None? && task.head.None? && task.cardBody.None? && task.base.None? && task.prBody.None?
    ensures key == Prefix(task.queue, task.card) + (task.generation.value + StopText(task.stop))
  {
    NothingBefore(StopText(task.stop));
    Joined(Prefix(task.queue, task.card), task.generation.value, StopText(task.stop));
  }

  lemma PrefixOf(queue: Queue, card: nat, rest: string)
    ensures Starts(Prefix(queue, card) + rest, Prefix(queue, card))
    ensures (Prefix(queue, card) + rest)[|Prefix(queue, card)|..] == rest
  {
  }

  lemma SamePrefix(queue: Queue, card: nat, a: string, b: string)
    ensures Prefix(queue, card) + a == Prefix(queue, card) + b <==> a == b
  {
    PrefixOf(queue, card, a);
    PrefixOf(queue, card, b);
  }

  lemma GenerationRoundTrip(task: Task, key: string)
    requires KeyOf(task) == Some(key) && task.generation.Some?
    ensures Identity(RowOf(task, key)) == Some(task) <==> GenerationReads(task)
  {
    if GenerationQueue(task.queue) {
      GenerationKey(task, key);
      var text := task.generation.value + StopText(task.stop);
      assert TaskKey(Plain(task.queue, task.card, None, None)) == Some(Prefix(task.queue, task.card) + "-:-") by {
        assert PlainText(None, None) == "-:-";
        NothingBefore(Prefix(task.queue, task.card) + "-:-");
      }
      PrefixOf(task.queue, task.card, text);
      SamePrefix(task.queue, task.card, text, "-:-");
      StopBegins();
      SkipsPrefix(StopAt, ":stop-", task.queue, task.card, text);
      NothingBefore(task.generation.value);
      assert task.stop.Some? ==> |text| > |task.generation.value|;
    }
  }

  lemma PlainGenerationIn(task: Task, key: string)
    requires IsPlainKey(task, key)
    ensures Identity(RowOf(task, key)).Some?
    ensures Identity(RowOf(task, key)).value.generation.None? <==>
            !(GenerationQueue(task.queue) && task.stop.Some? && task.pr.None? && task.head.None?)
  {
    PlainKeyHasTail(task);
    TailOfItsQueue(task);
    var plain := Prefix(task.queue, task.card) + PlainText(task.pr, task.head);
    assert |plain + Tail(task)| == |plain| + |Tail(task)|;
    assert Starts(key, Prefix(task.queue, task.card)) by {
      Joined(Prefix(task.queue, task.card), PlainText(task.pr, task.head), Tail(task));
      PrefixOf(task.queue, task.card, PlainText(task.pr, task.head) + Tail(task));
    }
    assert GenerationQueue(task.queue) ==> (key == plain <==> task.stop.None?) by {
      NothingBefore(plain);
    }
  }

  lemma PlainRoundTrip(task: Task, key: string)
    requires IsPlainKey(task, key)
    ensures Identity(RowOf(task, key)) == Some(task) <==> StopReads(task)
  {
    PlainKeyHasTail(task);
    PlainGenerationIn(task, key);
    ReadsStop(task, key);
    if task.queue.Review? {
      ReadsInput(task, key);
    } else if task.queue.Merge? {
      ReadsPrBody(task, key);
    } else if CardBodyQueue(task.queue) && StopIsPositive(task.stop) {
      ReadsCardBody(task, key);
      if task.queue.Witness? {
        ReadsBase(task, key);
      }
    }
  }

  /** A task whose key can be printed is read back from the row written for it exactly when the condition holds. */
  lemma RoundTrip(task: Task, key: string)
    requires KeyOf(task) == Some(key)
    ensures Identity(RowOf(task, key)) == Some(task) <==> ReadsBack(task)
  {
    if task.generation.Some? {
      GenerationRoundTrip(task, key);
    } else {
      PlainRoundTrip(task, key);
    }
  }

  // ---------- the events built for a task ----------

  lemma StopComesLast(task: Task, key: string)
    requires KeyOf(task) == Some(key)
    ensures KeyOf(task.(stop := None)).Some? && |key| == |KeyOf(task.(stop := None)).value| + |StopText(task.stop)|
  {
    assert TaskKey(task.(stop := None)) == TaskKey(task);
  }

  lemma ReadsOffTheEvent(task: Task, key: string)
    requires KeyOf(task) == Some(key) && ReadsBack(task)
    ensures TaskOf(EventOf(task, key)) == if task.queue.Answer? then task else task.(stop := None)
  {
    if task.generation.Some? {
      GenerationKey(task, key);
    } else {
      PlainKeyHasTail(task);
      ReadsStop(task, key);
      if task.queue.Review? {
        ReadsInput(task, key);
      } else if task.queue.Merge? {
        ReadsPrBody(task, key);
      } else if CardBodyQueue(task.queue) {
        ReadsCardBody(task, key);
        if task.queue.Witness? {
          ReadsBase(task, key);
        }
      }
    }
  }

  /** The folds accept the events written for a task that reads back exactly when it has no stop or is an answer. */
  lemma EventAccepted(task: Task, key: string)
    requires KeyOf(task) == Some(key) && ReadsBack(task)
    ensures IdentityOf(EventOf(task, key)) == Identified(key, task.queue) <==> (task.stop.Some? ==> task.queue.Answer?)
  {
    ReadsOffTheEvent(task, key);
    if task.generation.None? {
      PlainKeyHasTail(task);
    }
    if task.stop.Some? && !task.queue.Answer? {
      StopComesLast(task, key);
    }
  }

  /** The event a lease transition appends, from the columns of the row alone. */
  function RowEvent(row: Row, plain: string): Event
    requires row.card > 0
  {
    Event(Some(row.card), row.pr, row.head, row.key, Some(row.queue), GenerationIn(row.key, plain, row))
  }

  /** The row the fold of an accepted event writes. */
  function RowFrom(e: Event, queue: Queue): Row
    requires e.card.Some?
  {
    Row(e.key, queue, e.card.value, e.pr, e.head)
  }

  lemma AcceptedPlainCard(e: Event, key: string, queue: Queue)
    requires IdentityOf(e) == Identified(key, queue)
    ensures e.card.Some? && e.card.value > 0 && IsPlain(e.pr, e.head) && key == e.key
    ensures TaskKey(Plain(queue, e.card.value, e.pr, e.head)) == Some(Prefix(queue, e.card.value) + PlainText(e.pr, e.head))
  {
    NothingBefore(Prefix(queue, e.card.value) + PlainText(e.pr, e.head));
  }

  /** Once the fold has taken any event of a task, it takes the lease events built from the row, exactly unless the
      task has a generation on a queue that has none. */
  lemma LeaseEventAccepted(e: Event, key: string, queue: Queue)
    requires IdentityOf(e) == Identified(key, queue)
    ensures e.card.Some? && e.card.value > 0 && TaskKey(Plain(queue, e.card.value, e.pr, e.head)).Some?
    ensures var row := RowFrom(e, queue);
            var plain := TaskKey(Plain(queue, row.card, row.pr, row.head)).value;
            IdentityOf(RowEvent(row, plain)) == Identified(key, queue) <==>
            e.generation.None? || GenerationQueue(queue) || e.generation == Some("-:-")
  {
    AcceptedPlainCard(e, key, queue);
    var plain := Prefix(queue, e.card.value) + PlainText(e.pr, e.head);
    if e.generation.None? {
      PlainOnItsQueue(e, key, queue, plain);
    } else {
      assert PlainText(None, None) == "-:-";
      if GenerationQueue(queue) {
        GenerationOnItsQueue(e, key, queue, plain);
      } else {
        OtherGeneration(e, key, queue, plain);
      }
    }
  }

  lemma PlainOnItsQueue(e: Event, key: string, queue: Queue, plain: string)
    requires IdentityOf(e) == Identified(key, queue) && e.generation.None? && e.card.value > 0 && IsPlain(e.pr, e.head)
    requires plain == Prefix(queue, e.card.value) + PlainText(e.pr, e.head)
    ensures RowEvent(RowFrom(e, queue), plain) == e
  {
    var task := TaskOf(e);
    PlainKeyHasTail(task);
    TailOfItsQueue(task);
    NothingBefore(plain);
  }

  lemma GenerationOnItsQueue(e: Event, key: string, queue: Queue, plain: string)
    requires IdentityOf(e) == Identified(key, queue) && e.generation.Some? && GenerationQueue(queue) && e.card.value > 0
    requires plain == Prefix(queue, e.card.value) + "-:-"
    ensures IdentityOf(RowEvent(RowFrom(e, queue), plain)) == Identified(key, queue)
  {
    var task, generation := TaskOf(e), e.generation.value;
    GenerationKey(task, key);
    NothingBefore(generation);
    PrefixOf(queue, task.card, generation);
    SamePrefix(queue, task.card, generation, "-:-");
    if generation == "-:-" {
      PlainGeneration(e, key, queue, plain);
    } else {
      assert RowEvent(RowFrom(e, queue), plain) == e;
    }
  }

  lemma PlainGeneration(e: Event, key: string, queue: Queue, plain: string)
    requires IdentityOf(e) == Identified(key, queue) && e.generation == Some("-:-") && GenerationQueue(queue) && e.card.value > 0
    requires plain == Prefix(queue, e.card.value) + "-:-" && key == plain
    ensures IdentityOf(RowEvent(RowFrom(e, queue), plain)) == Identified(key, queue)
  {
    var bare := TaskOf(e).(generation := None);
    NothingBefore(plain);
    assert TaskOf(RowEvent(RowFrom(e, queue), plain)) == bare;
    assert PlainText(None, None) == "-:-";
    assert KeyOf(bare) == Some(plain);
  }

  function Rest(task: Task): string {
    Segment(":card-body-", task.cardBody) + (Segment(":base-", task.base) + (Segment(":pr-body-", task.prBody) + StopText(task.stop)))
  }

  lemma BareKey(task: Task, bare: Task, key: string, plain: string)
    requires KeyOf(task) == Some(key) && task.generation.Some? && task.input.None? && bare == task.(generation := None)
    requires plain == Prefix(task.queue, task.card) + "-:-"
    ensures key == Prefix(task.queue, task.card) + task.generation.value + Rest(task) && KeyOf(bare) == Some(plain + Rest(task))
  {
    assert PlainText(None, None) == "-:-";
    NothingBefore(plain);
    assert TaskKey(bare) == Some(plain);
  }

  lemma SameBeforeRest(a: string, b: string, rest: string)
    ensures a + rest == b + rest <==> a == b
  {
    if a + rest == b + rest {
      assert |a| == |b|;
      assert (a + rest)[..|a|] == a && (b + rest)[..|b|] == b;
    }
  }

  lemma OtherGeneration(e: Event, key: string, queue: Queue, plain: string)
    requires IdentityOf(e) == Identified(key, queue) && e.generation.Some? && !GenerationQueue(queue) && e.card.value > 0
    requires plain == Prefix(queue, e.card.value) + "-:-"
    ensures IdentityOf(RowEvent(RowFrom(e, queue), plain)) == Identified(key, queue) <==> e.generation.value == "-:-"
  {
    var task := TaskOf(e);
    var bare := task.(generation := None);
    assert TaskOf(RowEvent(RowFrom(e, queue), plain)) == bare;
    BareKey(task, bare, key, plain);
    SameBeforeRest(plain, Prefix(queue, task.card) + e.generation.value, Rest(task));
    SamePrefix(queue, task.card, e.generation.value, "-:-");
  }

  // ---------- two tasks with one key ----------

  /** The generation of one is the pull request and head of the other, as they are printed. */
  predicate Collide(t: Task, u: Task) {
    && t.queue == u.queue && t.card == u.card && t.generation.Some? && u.generation.None? && u.stop.None?
    && IsPlain(u.pr, u.head) && t.generation.value == PlainText(u.pr, u.head)
  }

  function WordLength(s: string): nat {
    if s == "" || s[0] == ':' then 0 else 1 + WordLength(s[1..])
  }

  lemma {:induction false} WordEnds(v: string, a: string)
    requires ColonFree(v) && (a == "" || a[0] == ':')
    ensures WordLength(v + a) == |v|
  {
    if v == "" {
      NothingBefore(a);
    } else {
      assert v[0] in v && (v + a)[1..] == v[1..] + a;
      WordEnds(v[1..], a);
    }
  }

  lemma UpToColon(v: string, w: string, a: string, b: string)
    requires ColonFree(v) && ColonFree(w) && v + a == w + b && (a == "" || a[0] == ':') && (b == "" || b[0] == ':')
    ensures v == w && a == b
  {
    WordEnds(v, a);
    WordEnds(w, b);
    assert (v + a)[..|v|] == v && (w + b)[..|w|] == w && (v + a)[|v|..] == a && (w + b)[|w|..] == b;
  }

  lemma NamesDiffer(q: Queue, r: Queue)
    requires QueueName(q) == QueueName(r)
    ensures q == r
  {
    assert QueueName(q)[..2] == QueueName(r)[..2];
    assert |QueueName(q)| == |QueueName(r)|;
  }

  lemma DigitsDiffer(n: nat, m: nat)
    requires Digits(n) == Digits(m)
    ensures n == m
  {
    assert Number(Digits(n)) == n && Number(Digits(m)) == m;
  }

  lemma SameNumber(c: nat, a: string, d: nat, b: string)
    requires Digits(c) + a == Digits(d) + b && (a == "" || a[0] == ':') && (b == "" || b[0] == ':')
    ensures c == d && a == b
  {
    UpToColon(Digits(c), Digits(d), a, b);
    DigitsDiffer(c, d);
  }

  lemma PrefixParts(q: Queue, c: nat, a: string)
    ensures Prefix(q, c) + a == QueueName(q) + (":" + (Digits(c) + (":" + a)))
  {
  }

  lemma AfterColon(a: string, b: string)
    requires ":" + a == ":" + b
    ensures a == b
  {
    assert (":" + a)[1..] == a && (":" + b)[1..] == b;
  }

  lemma SameQueueAndCard(q: Queue, c: nat, a: string, r: Queue, d: nat, b: string)
    requires Prefix(q, c) + a == Prefix(r, d) + b
    ensures q == r && c == d && a == b
  {
    var ac, bd := Digits(c) + (":" + a), Digits(d) + (":" + b);
    PrefixParts(q, c, a);
    PrefixParts(r, d, b);
    NamesAreColonFree(q);
    NamesAreColonFree(r);
    UpToColon(QueueName(q), QueueName(r), ":" + ac, ":" + bd);
    NamesDiffer(q, r);
    AfterColon(ac, bd);
    SameNumber(c, ":" + a, d, ":" + b);
    AfterColon(a, b);
  }

  lemma SamePr(pr: Option<int>, a: string, qr: Option<int>, b: string)
    requires (pr.Some? ==> pr.value > 0) && (qr.Some? ==> qr.value > 0)
    requires PrText(pr) + a == PrText(qr) + b && (a == "" || a[0] == ':') && (b == "" || b[0] == ':')
    ensures pr == qr && a == b
  {
    if pr.Some? {
      DigitsAreForeign(pr.value, ":stop-");
    }
    if qr.Some? {
      DigitsAreForeign(qr.value, ":stop-");
    }
    UpToColon(PrText(pr), PrText(qr), a, b);
    if pr.Some? && qr.Some? {
      DigitsDiffer(pr.value, qr.value);
    }
  }

  lemma SameHead(head: Option<string>, a: string, tip: Option<string>, b: string)
    requires (head.Some? ==> IsFullSha(head.value)) && (tip.Some? ==> IsFullSha(tip.value))
    requires Or(head, "-") + a == Or(tip, "-") + b && (a == "" || a[0] == ':') && (b == "" || b[0] == ':')
    ensures head == tip && a == b
  {
    HeadIsForeign(head, ":stop-");
    HeadIsForeign(tip, ":stop-");
    UpToColon(Or(head, "-"), Or(tip, "-"), a, b);
    assert |Or(head, "-")| == (if head.Some? then 40 else 1) && |Or(tip, "-")| == (if tip.Some? then 40 else 1);
  }

  lemma SamePlain(pr: Option<int>, head: Option<string>, a: string, qr: Option<int>, tip: Option<string>, b: string)
    requires IsPlain(pr, head) && IsPlain(qr, tip) && PlainText(pr, head) + a == PlainText(qr, tip) + b
    requires (a == "" || a[0] == ':') && (b == "" || b[0] == ':')
    ensures pr == qr && head == tip && a == b
  {
    PlainParts(pr, head, a);
    PlainParts(qr, tip, b);
    Joined(":", Or(head, "-"), a);
    Joined(":", Or(tip, "-"), b);
    SamePr(pr, ":" + (Or(head, "-") + a), qr, ":" + (Or(tip, "-") + b));
    AfterColon(Or(head, "-") + a, Or(tip, "-") + b);
    SameHead(head, a, tip, b);
  }

  lemma TailBeginsWithColon(task: Task)
    requires Carries(task) && CarriesInput(task)
    ensures Tail(task) == "" || Tail(task)[0] == ':'
  {
    TailOfItsQueue(task);
    NothingBefore(StopText(task.stop));
    NothingBefore(Segment(":base-", task.base) + StopText(task.stop));
  }

  /** A key without a generation says all of its task. */
  lemma PlainKeysDiffer(t: Task, u: Task, key: string)
    requires IsPlainKey(t, key) && IsPlainKey(u, key) && ReadsBack(t) && ReadsBack(u)
    ensures t == u
  {
    PlainKeyHasTail(t);
    PlainKeyHasTail(u);
    TailBeginsWithColon(t);
    TailBeginsWithColon(u);
    Joined(Prefix(t.queue, t.card), PlainText(t.pr, t.head), Tail(t));
    Joined(Prefix(u.queue, u.card), PlainText(u.pr, u.head), Tail(u));
    SameQueueAndCard(t.queue, t.card, PlainText(t.pr, t.head) + Tail(t), u.queue, u.card, PlainText(u.pr, u.head) + Tail(u));
    SamePlain(t.pr, t.head, Tail(t), u.pr, u.head, Tail(u));
    PlainRoundTrip(t, key);
    PlainRoundTrip(u, key);
  }

  lemma GenerationKeysDiffer(t: Task, u: Task, key: string)
    requires KeyOf(t) == KeyOf(u) == Some(key) && t.generation.Some? && u.generation.Some? && ReadsBack(t) && ReadsBack(u)
    ensures t == u
  {
    GenerationKey(t, key);
    GenerationKey(u, key);
    NothingBefore(t.generation.value);
    NothingBefore(u.generation.value);
    SameQueueAndCard(t.queue, t.card, t.generation.value, u.queue, u.card, u.generation.value);
  }

  /** A key with a generation and one without agree only when the generation is a printed pull request and head. */
  lemma MixedKeys(t: Task, u: Task, key: string)
    requires KeyOf(t) == Some(key) && t.generation.Some? && IsPlainKey(u, key) && ReadsBack(t) && ReadsBack(u)
    ensures Collide(t, u)
  {
    var generation, plain := t.generation.value, PlainText(u.pr, u.head);
    GenerationKey(t, key);
    NothingBefore(generation);
    PlainKeyHasTail(u);
    Joined(Prefix(u.queue, u.card), plain, Tail(u));
    SameQueueAndCard(t.queue, t.card, generation, u.queue, u.card, plain + Tail(u));
    TailOfItsQueue(u);
    StopBegins();
    SkipsPrefix(StopAt, ":stop-", t.queue, t.card, generation);
    assert Exec(StopAt, key).None?;
    ReadsStop(u, key);
    NothingBefore(plain);
  }

  lemma CollidingKeys(t: Task, u: Task)
    requires KeyOf(t).Some? && KeyOf(u).Some? && ReadsBack(t) && ReadsBack(u) && Collide(t, u)
    ensures KeyOf(t) == KeyOf(u)
  {
    var generation := t.generation.value;
    GenerationKey(t, KeyOf(t).value);
    NothingBefore(generation);
    PlainKeyHasTail(u);
    TailOfItsQueue(u);
    NothingBefore(Prefix(u.queue, u.card) + PlainText(u.pr, u.head));
  }

  /** Two tasks that read back share a key exactly when they are the same, or the generation of the one is the
      printed pull request and head of the other. */
  lemma OneTaskPerKey(t: Task, u: Task)
    requires KeyOf(t).Some? && KeyOf(u).Some? && ReadsBack(t) && ReadsBack(u)
    ensures KeyOf(t) == KeyOf(u) <==> t == u || Collide(t, u) || Collide(u, t)
  {
    if KeyOf(t) == KeyOf(u) {
      var key := KeyOf(t).value;
      if t.generation.None? && u.generation.None? {
        PlainKeysDiffer(t, u, key);
      } else if t.generation.Some? && u.generation.Some? {
        GenerationKeysDiffer(t, u, key);
      } else if t.generation.Some? {
        MixedKeys(t, u, key);
      } else {
        MixedKeys(u, t, key);
      }
    }
    if Collide(t, u) {
      CollidingKeys(t, u);
    }
    if Collide(u, t) {
      CollidingKeys(u, t);
    }
  }

  // ---------- tasks the condition shuts out, and two that share a key ----------

  function Generation(generation: string): Task {
    Task(Launch, 7, None, None, Some(generation), None, None, None, None, None)
  }

  /** A generation that is the word of a stop alone is lost too: the colon before it is that of the prefix. */
  lemma AStopIsNoGeneration()
    ensures KeyOf(Generation("stop-3")).Some? && !ReadsBack(Generation("stop-3"))
  {
    assert Starts(":" + "stop-3", ":stop-") && (":" + "stop-3")[6..] == "3";
    assert IsCount("3");
  }

  /** Two launch tasks of one card that both read back, printed alike. */
  lemma OneKeyForTwoTasks()
    ensures var t, u := Generation("12:-"), Plain(Launch, 7, Some(12), None);
            t != u && KeyOf(t).Some? && KeyOf(t) == KeyOf(u) && ReadsBack(t) && ReadsBack(u)
  {
    var t, u := Generation("12:-"), Plain(Launch, 7, Some(12), None);
    assert Digits(12) == "12" by {
      assert Digits(1) == "1";
    }
    assert PlainText(u.pr, u.head) == "12:-";
    StopBegins();
    assert ":" + "12:-" == ":" + "12" + (":" + "-" + "");
    SkipsSegment(StopAt, ":stop-", "12", ":" + "-" + "");
    SkipsSegment(StopAt, ":stop-", "-", "");
    OneTaskPerKey(t, u);
  }
}
