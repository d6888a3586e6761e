/** Splitting weighted items over shards: loads, tallies, and the greedy rule of scripts/ci/shard.ts.
    An assignment maps item i to shard a[i]; items are placed in index order. */
module Assignments {

  ghost predicate IsAssignment(a: seq<nat>, n: nat, m: nat) {
    |a| == n && forall i :: 0 <= i < n ==> a[i] < m
  }

  ghost predicate HeaviestFirst(w: seq<real>) {
    forall i, j :: 0 <= i < j < |w| ==> w[i] >= w[j]
  }

  ghost predicate Positive(w: seq<real>) {
    forall i :: 0 <= i < |w| ==> w[i] > 0.0
  }

  /** What shard j weighs once the first k items are placed. */
  ghost function Load(w: seq<real>, a: seq<nat>, k: nat, j: nat): real
    requires k <= |w| && k <= |a|
  {
    if k == 0 then 0.0
    else Load(w, a, k - 1, j) + (if a[k - 1] == j then w[k - 1] else 0.0)
  }

  /** How many of the first k items lie on shard j. */
  ghost function Tally(a: seq<nat>, k: nat, j: nat): nat
    requires k <= |a|
  {
    if k == 0 then 0 else Tally(a, k - 1, j) + (if a[k - 1] == j then 1 else 0)
  }

  /** a[i] is the first of the lightest shards at the moment item i is placed. */
  ghost predicate PlacedOnLightest(w: seq<real>, a: seq<nat>, i: nat, m: nat)
    requires i < |w| && i < |a|
  {
    && a[i] < m
    && (forall j :: 0 <= j < m ==> Load(w, a, i, a[i]) <= Load(w, a, i, j))
    && (forall j :: 0 <= j < a[i] ==> Load(w, a, i, a[i]) < Load(w, a, i, j))
  }

  /** The rule of the balancing loop, for every item. */
  ghost predicate Greedy(w: seq<real>, a: seq<nat>, m: nat) {
    |a| == |w| && forall i :: 0 <= i < |w| ==> PlacedOnLightest(w, a, i, m)
  }

  /** After k placements no shard weighs more than h. */
  ghost predicate Within(w: seq<real>, a: seq<nat>, k: nat, m: nat, h: real)
    requires k <= |w| && k <= |a|
  {
    forall j :: 0 <= j < m ==> Load(w, a, k, j) <= h
  }

  /** After k placements no shard can take another x and stay within h. */
  ghost predicate NoRoom(w: seq<real>, a: seq<nat>, k: nat, m: nat, h: real, x: real)
    requires k <= |w| && k <= |a|
  {
    forall j :: 0 <= j < m ==> Load(w, a, k, j) + x > h
  }

  /** m times x, by addition. */
  ghost function Times(m: nat, x: real): real {
    if m == 0 then 0.0 else Times(m - 1, x) + x
  }

  lemma {:induction false} TimesIsProduct(m: nat, x: real)
    ensures Times(m, x) == m as real * x
  {
    if m > 0 {
      TimesIsProduct(m - 1, x);
      assert m as real * x == (m - 1) as real * x + x;
    }
  }

  ghost function Total(w: seq<real>, k: nat): real
    requires k <= |w|
  {
    if k == 0 then 0.0 else Total(w, k - 1) + w[k - 1]
  }

  ghost function SumOfLoads(w: seq<real>, a: seq<nat>, k: nat, m: nat): real
    requires k <= |w| && k <= |a|
  {
    if m == 0 then 0.0 else SumOfLoads(w, a, k, m - 1) + Load(w, a, k, m - 1)
  }

  ghost function SumOfTallies(a: seq<nat>, k: nat, m: nat): nat
    requires k <= |a|
  {
    if m == 0 then 0 else SumOfTallies(a, k, m - 1) + Tally(a, k, m - 1)
  }

  // ---------- bookkeeping ----------

  lemma {:induction false} OnePlacement(w: seq<real>, a: seq<nat>, k: nat, m: nat)
    requires k < |w| && k < |a|
    ensures SumOfLoads(w, a, k + 1, m) == SumOfLoads(w, a, k, m) + (if a[k] < m then w[k] else 0.0)
    ensures SumOfTallies(a, k + 1, m) == SumOfTallies(a, k, m) + (if a[k] < m then 1 else 0)
  {
    if m > 0 {
      OnePlacement(w, a, k, m - 1);
    }
  }

  lemma {:induction false} EmptySums(w: seq<real>, a: seq<nat>, m: nat)
    ensures SumOfLoads(w, a, 0, m) == 0.0 && SumOfTallies(a, 0, m) == 0
  {
    if m > 0 {
      EmptySums(w, a, m - 1);
    }
  }

  /** Nothing is lost or placed twice: the loads add up to the weight placed, the tallies to the items placed. */
  lemma {:induction false} Conservation(w: seq<real>, a: seq<nat>, k: nat, m: nat)
    requires k <= |w| && IsAssignment(a, |w|, m)
    ensures SumOfLoads(w, a, k, m) == Total(w, k)
    ensures SumOfTallies(a, k, m) == k
  {
    if k == 0 {
      EmptySums(w, a, m);
    } else {
      Conservation(w, a, k - 1, m);
      OnePlacement(w, a, k - 1, m);
    }
  }

  lemma {:induction false} SumAtLeast(w: seq<real>, a: seq<nat>, k: nat, m: nat, x: real)
    requires k <= |w| && k <= |a|
    requires forall j :: 0 <= j < m ==> x <= Load(w, a, k, j)
    ensures Times(m, x) <= SumOfLoads(w, a, k, m)
  {
    if m > 0 {
      SumAtLeast(w, a, k, m - 1, x);
    }
  }

  lemma {:induction false} SumAtMost(w: seq<real>, a: seq<nat>, k: nat, m: nat, h: real)
    requires k <= |w| && k <= |a|
    requires Within(w, a, k, m, h)
    ensures SumOfLoads(w, a, k, m) <= Times(m, h)
  {
    if m > 0 {
      SumAtMost(w, a, k, m - 1, h);
    }
  }

  lemma {:induction false} LoadGrows(w: seq<real>, a: seq<nat>, k: nat, n: nat, j: nat)
    requires k <= n <= |w| && n <= |a| && Positive(w)
    ensures 0.0 <= Load(w, a, k, j) <= Load(w, a, n, j)
    decreases n
  {
    if k < n {
      LoadGrows(w, a, k, n - 1, j);
    } else if n > 0 {
      LoadGrows(w, a, n - 1, n - 1, j);
    }
  }

  lemma WithinEarlier(w: seq<real>, a: seq<nat>, k: nat, n: nat, m: nat, h: real)
    requires k <= n <= |w| && n <= |a| && Positive(w) && Within(w, a, n, m, h)
    ensures Within(w, a, k, m, h)
  {
    forall j | 0 <= j < m
      ensures Load(w, a, k, j) <= h
    {
      LoadGrows(w, a, k, n, j);
    }
  }

  lemma GreedyIsAssignment(w: seq<real>, a: seq<nat>, m: nat)
    requires Greedy(w, a, m)
    ensures IsAssignment(a, |w|, m)
  {
    forall i | 0 <= i < |w| ensures a[i] < m {
      assert PlacedOnLightest(w, a, i, m);
    }
  }

  /** Shard j holds some item before k, and its load is at least that item's weight. */
  lemma {:induction false} LoadHoldsItem(w: seq<real>, a: seq<nat>, k: nat, i: nat)
    requires i < k <= |w| && k <= |a| && Positive(w)
    ensures Load(w, a, k, a[i]) >= w[i] && Tally(a, k, a[i]) >= 1
  {
    if i < k - 1 {
      LoadHoldsItem(w, a, k - 1, i);
    } else {
      LoadGrows(w, a, k - 1, k - 1, a[i]);
    }
  }

  /** Two different items of one shard weigh on it together. */
  lemma {:induction false} LoadHoldsPair(w: seq<real>, a: seq<nat>, k: nat, i: nat, l: nat)
    requires i < l < k <= |w| && k <= |a| && Positive(w) && a[i] == a[l]
    ensures Load(w, a, k, a[i]) >= w[i] + w[l] && Tally(a, k, a[i]) >= 2
  {
    if l < k - 1 {
      LoadHoldsPair(w, a, k - 1, i, l);
    } else {
      LoadHoldsItem(w, a, k - 1, i);
    }
  }

  /** If every item weighs at least x, a shard weighs at least x times its tally. */
  lemma {:induction false} LoadAtLeastTally(w: seq<real>, a: seq<nat>, k: nat, j: nat, x: real)
    requires k <= |w| && k <= |a|
    requires forall i :: 0 <= i < k ==> w[i] >= x
    ensures Load(w, a, k, j) >= Tally(a, k, j) as real * x
  {
    if k > 0 {
      LoadAtLeastTally(w, a, k - 1, j, x);
      if a[k - 1] == j {
        assert Tally(a, k, j) as real * x == Tally(a, k - 1, j) as real * x + x;
      }
    }
  }

  lemma {:induction false} EmptyShardWeighsNothing(w: seq<real>, a: seq<nat>, k: nat, j: nat)
    requires k <= |w| && k <= |a| && Tally(a, k, j) == 0
    ensures Load(w, a, k, j) == 0.0
  {
    if k > 0 {
      EmptyShardWeighsNothing(w, a, k - 1, j);
    }
  }

  /** The only item of a shard that holds one. */
  ghost function OnlyItem(w: seq<real>, a: seq<nat>, k: nat, j: nat): (i: nat)
    requires k <= |w| && k <= |a| && Tally(a, k, j) == 1
    ensures i < k && a[i] == j && Load(w, a, k, j) == w[i]
  {
    if a[k - 1] == j then
      EmptyShardWeighsNothing(w, a, k - 1, j);
      k - 1
    else
      OnlyItem(w, a, k - 1, j)
  }

  // ---------- the balance of the greedy rule ----------

  /** Any two shards differ by no more than the heaviest item placed. */
  lemma {:induction false} GreedyBalance(w: seq<real>, a: seq<nat>, m: nat, k: nat, j: nat, l: nat, top: real)
    requires Greedy(w, a, m) && Positive(w) && k <= |w| && j < m && l < m && top >= 0.0
    requires forall i :: 0 <= i < k ==> w[i] <= top
    ensures Load(w, a, k, j) - Load(w, a, k, l) <= top
  {
    if k > 0 {
      GreedyBalance(w, a, m, k - 1, j, l, top);
      assert PlacedOnLightest(w, a, k - 1, m);
    }
  }

  // ---------- Graham's bound ----------

  /** The item that brought shard j to the load it has after k placements. */
  lemma {:induction false} LastPlacedOn(w: seq<real>, a: seq<nat>, k: nat, j: nat) returns (i: nat)
    requires k <= |w| && k <= |a| && Tally(a, k, j) > 0
    ensures i < k && a[i] == j && Load(w, a, k, j) == Load(w, a, i, j) + w[i]
  {
    if a[k - 1] == j {
      i := k - 1;
    } else {
      i := LastPlacedOn(w, a, k - 1, j);
    }
  }

  /** The shards that hold exactly one of the first k items. */
  ghost function Singles(a: seq<nat>, k: nat, m: nat): set<nat>
    requires k <= |a|
  {
    set j: nat | j < m && Tally(a, k, j) == 1
  }

  ghost predicate NoneEmpty(a: seq<nat>, k: nat, m: nat)
    requires k <= |a|
  {
    forall j :: 0 <= j < m ==> Tally(a, k, j) >= 1
  }

  ghost predicate NoneAboveTwo(a: seq<nat>, k: nat, m: nat)
    requires k <= |a|
  {
    forall j :: 0 <= j < m ==> Tally(a, k, j) <= 2
  }

  /** With one or two items on every shard, the tallies add up to 2m less one per single. */
  lemma {:induction false} SinglesCount(a: seq<nat>, k: nat, m: nat)
    requires k <= |a|
    requires NoneAboveTwo(a, k, m)
    ensures SumOfTallies(a, k, m) <= 2 * m - |Singles(a, k, m)|
    ensures NoneEmpty(a, k, m) ==> SumOfTallies(a, k, m) == 2 * m - |Singles(a, k, m)|
  {
    if m == 0 {
      assert Singles(a, k, 0) == {};
    } else {
      SinglesCount(a, k, m - 1);
      var before, now := Singles(a, k, m - 1), Singles(a, k, m);
      if Tally(a, k, m - 1) == 1 {
        assert now == before + {m - 1};
      } else {
        assert now == before;
      }
    }
  }

  lemma {:induction false} InjectionBound(s: set<nat>, t: set<nat>, f: map<nat, nat>)
    requires forall x :: x in s ==> x in f && f[x] in t
    requires forall x, y :: x in s && y in s && x != y ==> f[x] != f[y]
    ensures |s| <= |t|
    decreases |s|
  {
    if s != {} {
      var x :| x in s;
      InjectionBound(s - {x}, t - {f[x]}, f);
    }
  }

  /** An item too heavy to share a shard with the last one has its shard of the other assignment to itself. */
  lemma AloneInTheOther(w: seq<real>, b: seq<nat>, m: nat, n: nat, h: real, i: nat)
    requires 0 < n <= |w| && IsAssignment(b, |w|, m) && Positive(w) && HeaviestFirst(w)
    requires Within(w, b, n, m, h)
    requires i < n - 1 && w[i] + w[n - 1] > h
    ensures Tally(b, n, b[i]) == 1
  {
    LoadHoldsItem(w, b, n, i);
    if Tally(b, n, b[i]) > 1 {
      PairWithLast(w, b, n, i);
      assert false;
    }
  }

  /** A shard with two items, of which i is one, weighs at least i and the lightest item. */
  lemma PairWithLast(w: seq<real>, a: seq<nat>, n: nat, i: nat)
    requires i < n <= |w| && n <= |a| && Positive(w) && HeaviestFirst(w) && Tally(a, n, a[i]) > 1
    ensures Load(w, a, n, a[i]) >= w[i] + w[n - 1]
  {
    var l := AnotherItem(a, n, i);
    LoadHoldsPair(w, a, n, if i < l then i else l, if i < l then l else i);
  }

  lemma {:induction false} AnotherItem(a: seq<nat>, k: nat, i: nat) returns (l: nat)
    requires i < k <= |a| && Tally(a, k, a[i]) > 1
    ensures l < k && l != i && a[l] == a[i]
  {
    if i == k - 1 {
      l := SomeItem(a, k - 1, a[i]);
    } else if a[k - 1] == a[i] {
      l := k - 1;
    } else {
      l := AnotherItem(a, k - 1, i);
    }
  }

  lemma {:induction false} SomeItem(a: seq<nat>, k: nat, j: nat) returns (l: nat)
    requires k <= |a| && Tally(a, k, j) > 0
    ensures l < k && a[l] == j
  {
    if a[k - 1] == j {
      l := k - 1;
    } else {
      l := SomeItem(a, k - 1, j);
    }
  }

  /** No shard takes three items that each weigh more than a third of its bound. */
  lemma AtMostTwo(w: seq<real>, a: seq<nat>, k: nat, j: nat, h: real)
    requires k <= |w| && k <= |a| && Load(w, a, k, j) <= h && h > 0.0
    requires forall i :: 0 <= i < k ==> 3.0 * w[i] > h
    ensures Tally(a, k, j) <= 2
  {
    if k > 0 {
      var x := Lightest(w, k);
      LoadAtLeastTally(w, a, k, j, x);
      MoreThanTwoThirds(Tally(a, k, j), x, h);
    }
  }

  lemma ProductSign(a: real, b: real)
    requires a * b < 0.0 && b > 0.0
    ensures a < 0.0
  {
  }

  lemma MoreThanTwoThirds(t: nat, x: real, h: real)
    requires t as real * x <= h < 3.0 * x && x > 0.0
    ensures t <= 2
  {
    var over := t as real - 3.0;
    assert t as real * x == over * x + 3.0 * x;
    assert over * x < 0.0;
    assert over < 0.0 by {
      ProductSign(over, x);
    }
  }

  lemma {:induction false} Lightest(w: seq<real>, k: nat) returns (x: real)
    requires 0 < k <= |w|
    ensures exists i :: 0 <= i < k && w[i] == x
    ensures forall i :: 0 <= i < k ==> w[i] >= x
  {
    if k == 1 {
      x := w[0];
    } else {
      x := Lightest(w, k - 1);
      if w[k - 1] < x {
        x := w[k - 1];
      }
    }
  }

  /** Some shard of the greedy split has room for the last of n heavy items: otherwise the singles of that split
      would need more shards of their own than the other assignment has. */
  lemma RoomForTheLast(w: seq<real>, a: seq<nat>, b: seq<nat>, m: nat, n: nat, h: real)
    requires 0 < n <= |w| && IsAssignment(a, |w|, m) && IsAssignment(b, |w|, m) && Positive(w) && HeaviestFirst(w) && h > 0.0
    requires Within(w, b, n, m, h)
    requires forall i :: 0 <= i < n ==> 3.0 * w[i] > h
    requires Within(w, a, n - 1, m, h)
    ensures !NoRoom(w, a, n - 1, m, h, w[n - 1])
  {
    if NoRoom(w, a, n - 1, m, h, w[n - 1]) {
      OneOrTwo(w, a, b, m, n, h);
      SinglesCount(a, n - 1, m);
      SinglesCount(b, n, m);
      Conservation(w, a, n - 1, m);
      Conservation(w, b, n, m);
      SinglesEmbed(w, a, b, m, n, h);
    }
  }

  lemma OneOrTwo(w: seq<real>, a: seq<nat>, b: seq<nat>, m: nat, n: nat, h: real)
    requires 0 < n <= |w| && IsAssignment(a, |w|, m) && IsAssignment(b, |w|, m) && Positive(w) && h > 0.0
    requires Within(w, b, n, m, h) && Within(w, a, n - 1, m, h) && NoRoom(w, a, n - 1, m, h, w[n - 1])
    requires forall i :: 0 <= i < n ==> 3.0 * w[i] > h
    ensures NoneEmpty(a, n - 1, m) && NoneAboveTwo(a, n - 1, m) && NoneAboveTwo(b, n, m)
  {
    var before := n - 1;
    forall j | 0 <= j < m
      ensures 1 <= Tally(a, before, j) <= 2
    {
      AtMostTwo(w, a, before, j, h);
      NotEmpty(w, a, b, m, n, h, j);
    }
    forall j | 0 <= j < m
      ensures Tally(b, n, j) <= 2
    {
      AtMostTwo(w, b, n, j, h);
    }
  }

  /** Every single of the greedy split goes, injectively, to a single of the other assignment. */
  lemma SinglesEmbed(w: seq<real>, a: seq<nat>, b: seq<nat>, m: nat, n: nat, h: real)
    requires 0 < n <= |w| && IsAssignment(a, |w|, m) && IsAssignment(b, |w|, m) && Positive(w) && HeaviestFirst(w)
    requires Within(w, b, n, m, h) && NoRoom(w, a, n - 1, m, h, w[n - 1])
    ensures |Singles(a, n - 1, m)| <= |Singles(b, n, m)|
  {
    var alone := Singles(a, n - 1, m);
    var f := map j | j in alone :: AloneShard(w, a, b, n, j);
    forall j | j in alone
      ensures f[j] in Singles(b, n, m)
    {
      SingleGoesToSingle(w, a, b, m, n, h, j);
    }
    forall j, l | j in alone && l in alone && j != l
      ensures f[j] != f[l]
    {
      SingleGoesToSingle(w, a, b, m, n, h, j);
      NotShared(w, b, n, OnlyItem(w, a, n - 1, j), OnlyItem(w, a, n - 1, l));
    }
    InjectionBound(alone, Singles(b, n, m), f);
  }

  /** An empty shard would have room for an item the other assignment fits in. */
  lemma NotEmpty(w: seq<real>, a: seq<nat>, b: seq<nat>, m: nat, n: nat, h: real, j: nat)
    requires 0 < n <= |w| && n <= |a| && IsAssignment(b, |w|, m) && Positive(w)
    requires Within(w, b, n, m, h) && j < m && Load(w, a, n - 1, j) + w[n - 1] > h
    ensures Tally(a, n - 1, j) >= 1
  {
    if Tally(a, n - 1, j) == 0 {
      EmptyShardWeighsNothing(w, a, n - 1, j);
      LoadHoldsItem(w, b, n, n - 1);
    }
  }

  lemma NotShared(w: seq<real>, b: seq<nat>, n: nat, i: nat, k: nat)
    requires i < n <= |w| && k < n <= |b| && i != k && Positive(w) && Tally(b, n, b[i]) == 1
    ensures b[i] != b[k]
  {
    if b[i] == b[k] {
      LoadHoldsPair(w, b, n, if i < k then i else k, if i < k then k else i);
    }
  }

  ghost function AloneShard(w: seq<real>, a: seq<nat>, b: seq<nat>, n: nat, j: nat): nat
    requires 0 < n <= |w| && n <= |a| && n <= |b| && Tally(a, n - 1, j) == 1
  {
    b[OnlyItem(w, a, n - 1, j)]
  }

  lemma SingleGoesToSingle(w: seq<real>, a: seq<nat>, b: seq<nat>, m: nat, n: nat, h: real, j: nat)
    requires 0 < n <= |w| && IsAssignment(a, |w|, m) && IsAssignment(b, |w|, m) && Positive(w) && HeaviestFirst(w)
    requires Within(w, b, n, m, h)
    requires j < m && Tally(a, n - 1, j) == 1 && h < Load(w, a, n - 1, j) + w[n - 1]
    ensures AloneShard(w, a, b, n, j) in Singles(b, n, m)
  {
    AloneInTheOther(w, b, m, n, h, OnlyItem(w, a, n - 1, j));
  }

  /** As long as every item weighs more than a third of h, the greedy split stays within h,
      whenever any assignment does: it is optimal there. */
  lemma {:induction false} OptimalOnHeavyItems(w: seq<real>, a: seq<nat>, b: seq<nat>, m: nat, n: nat, h: real)
    requires n <= |w| && Greedy(w, a, m) && IsAssignment(b, |w|, m) && Positive(w) && HeaviestFirst(w) && h > 0.0
    requires Within(w, b, n, m, h)
    requires forall i :: 0 <= i < n ==> 3.0 * w[i] > h
    ensures Within(w, a, n, m, h)
  {
    if n > 0 {
      WithinEarlier(w, b, n - 1, n, m, h);
      OptimalOnHeavyItems(w, a, b, m, n - 1, h);
      GreedyIsAssignment(w, a, m);
      assert PlacedOnLightest(w, a, n - 1, m);
      if Load(w, a, n - 1, a[n - 1]) + w[n - 1] > h {
        RoomForTheLast(w, a, b, m, n, h);
      }
    }
  }

  /** Placing on the lightest shard keeps it below the average plus the item. */
  lemma BelowAverage(w: seq<real>, a: seq<nat>, b: seq<nat>, m: nat, i: nat, h: real)
    requires i < |w| && m > 0 && Greedy(w, a, m) && IsAssignment(b, |w|, m) && Positive(w)
    requires Within(w, b, |w|, m, h)
    ensures Times(m, Load(w, a, i, a[i])) + w[i] <= Times(m, h)
  {
    GreedyIsAssignment(w, a, m);
    assert PlacedOnLightest(w, a, i, m);
    SumAtLeast(w, a, i, m, Load(w, a, i, a[i]));
    Conservation(w, a, i, m);
    Conservation(w, b, i + 1, m);
    WithinEarlier(w, b, i + 1, |w|, m, h);
    SumAtMost(w, b, i + 1, m, h);
  }

  /** load is at most (4 - 1/m)/3 of h. */
  ghost predicate WithinGraham(m: nat, load: real, h: real) {
    3.0 * (m as real) * load <= (4.0 * (m as real) - 1.0) * h
  }

  lemma ProductIsNonnegative(a: real, b: real)
    requires a >= 0.0 && b >= 0.0
    ensures a * b >= 0.0
  {
  }

  lemma ThirdOfTheBound(m: nat, load: real, x: real, h: real)
    requires m >= 1 && 3.0 * x <= h
    requires Times(m, load) + x <= Times(m, h)
    ensures WithinGraham(m, load + x, h)
  {
    var mm := m as real;
    TimesIsProduct(m, load);
    TimesIsProduct(m, h);
    ProductIsNonnegative(mm - 1.0, h - 3.0 * x);
    assert (mm - 1.0) * (h - 3.0 * x) == mm * h - h - 3.0 * (mm * x) + 3.0 * x;
    assert 3.0 * mm * (load + x) == 3.0 * (mm * load) + 3.0 * (mm * x);
    assert (4.0 * mm - 1.0) * h == 4.0 * (mm * h) - h;
  }

  /** Graham's bound for longest-processing-time-first: no assignment to the same m shards, whose heaviest
      shard weighs at most h, lets a shard of the greedy split weigh more than (4 - 1/m)/3 of h. */
  lemma GrahamBound(w: seq<real>, a: seq<nat>, b: seq<nat>, m: nat, h: real, j: nat)
    requires m > 0 && Greedy(w, a, m) && Positive(w) && HeaviestFirst(w)
    requires IsAssignment(b, |w|, m) && Within(w, b, |w|, m, h)
    requires j < m
    ensures WithinGraham(m, Load(w, a, |w|, j), h)
  {
    LoadGrows(w, b, 0, |w|, j);
    if Tally(a, |w|, j) == 0 {
      EmptyShardWeighsNothing(w, a, |w|, j);
      WithinTheBound(m, 0.0, h);
    } else {
      var i := LastPlacedOn(w, a, |w|, j);
      if 3.0 * w[i] <= h {
        BelowAverage(w, a, b, m, i, h);
        ThirdOfTheBound(m, Load(w, a, i, j), w[i], h);
      } else {
        LoadHoldsItem(w, b, |w|, i);
        WithinEarlier(w, b, i + 1, |w|, m, h);
        OptimalOnHeavyItems(w, a, b, m, i + 1, h);
        WithinTheBound(m, Load(w, a, i + 1, j), h);
      }
    }
  }

  lemma WithinTheBound(m: nat, load: real, h: real)
    requires m >= 1 && load <= h && h >= 0.0
    ensures WithinGraham(m, load, h)
  {
    var mm := m as real;
    assert mm * load <= mm * h by {
      assert mm * (h - load) >= 0.0;
    }
    assert (mm - 1.0) * h >= 0.0;
    assert (4.0 * mm - 1.0) * h == 3.0 * (mm * h) + (mm - 1.0) * h;
  }
}
