/** Test sharding, scripts/ci/shard.ts: the order in which test files are dealt out and the greedy balancing.
    Weights are exact reals; paths are compared character by character. */
module Shards {
  import opened Options
  import opened Assignments

  /** One property of the weights object: a test file and its measured weight. */
  datatype Entry = Entry(file: string, weight: real)

  const MIN_WEIGHT := 0.1
  const NO_DATA_WEIGHT := 1.0

  // ---------- weights ----------

  function AtLeastMin(weight: real): real {
    if weight < MIN_WEIGHT then MIN_WEIGHT else weight
  }

  function Clamped(weights: seq<Entry>): (r: seq<real>)
    ensures |r| == |weights|
  {
    seq(|weights|, i requires 0 <= i < |weights| => AtLeastMin(weights[i].weight))
  }

  function Insert(x: real, s: seq<real>): seq<real> {
    if s == [] || x <= s[0] then [x] + s else [s[0]] + Insert(x, s[1..])
  }

  function Sort(s: seq<real>): (r: seq<real>)
    ensures |r| == |s|
  {
    if s == [] then [] else
      InsertLength(s[0], Sort(s[1..]));
      Insert(s[0], Sort(s[1..]))
  }

  lemma InsertLength(x: real, s: seq<real>)
    ensures |Insert(x, s)| == |s| + 1
  {
  }

  /** The weight of a file nobody has measured: the upper median of the measured weights. */
  function NewTestWeight(weights: seq<Entry>): real {
    var values := Sort(Clamped(weights));
    if values == [] then NO_DATA_WEIGHT else values[|values| / 2]
  }

  function Known(file: string, weights: seq<Entry>): Option<real> {
    if weights == [] then None
    else if weights[0].file == file then Some(weights[0].weight)
    else Known(file, weights[1..])
  }

  function WeightOf(file: string, weights: seq<Entry>): real {
    match Known(file, weights)
    case None => NewTestWeight(weights)
    case Some(known) => AtLeastMin(known)
  }

  ghost function CountBelow(s: seq<real>, x: real): nat {
    if s == [] then 0 else (if s[0] < x then 1 else 0) + CountBelow(s[1..], x)
  }

  ghost function CountAbove(s: seq<real>, x: real): nat {
    if s == [] then 0 else (if s[0] > x then 1 else 0) + CountAbove(s[1..], x)
  }

  ghost predicate Ascending(s: seq<real>) {
    forall i, j :: 0 <= i < j < |s| ==> s[i] <= s[j]
  }

  lemma {:induction false} InsertKeeps(x: real, s: seq<real>, y: real)
    requires Ascending(s)
    ensures Ascending(Insert(x, s))
    ensures forall z :: z in Insert(x, s) <==> z == x || z in s
    ensures CountBelow(Insert(x, s), y) == CountBelow(s, y) + (if x < y then 1 else 0)
    ensures CountAbove(Insert(x, s), y) == CountAbove(s, y) + (if x > y then 1 else 0)
  {
    if s == [] || x <= s[0] {
      assert ([x] + s)[1..] == s;
    } else {
      InsertKeeps(x, s[1..], y);
      var r := Insert(x, s[1..]);
      assert s == [s[0]] + s[1..];
      assert ([s[0]] + r)[1..] == r;
      forall i | 0 <= i < |r| ensures s[0] <= r[i] {
        assert r[i] in r;
      }
    }
  }

  lemma {:induction false} SortKeeps(s: seq<real>, y: real)
    ensures Ascending(Sort(s))
    ensures forall z :: z in Sort(s) <==> z in s
    ensures CountBelow(Sort(s), y) == CountBelow(s, y) && CountAbove(Sort(s), y) == CountAbove(s, y)
  {
    if s != [] {
      SortKeeps(s[1..], y);
      InsertKeeps(s[0], Sort(s[1..]), y);
      assert s == [s[0]] + s[1..];
    }
  }

  lemma {:induction false} CountsAt(s: seq<real>, k: nat)
    requires Ascending(s) && k < |s|
    ensures CountBelow(s, s[k]) <= k && CountAbove(s, s[k]) <= |s| - 1 - k
  {
    if k > 0 {
      assert s[1..][k - 1] == s[k];
      CountsAt(s[1..], k - 1);
    } else if |s| > 1 {
      NothingBelow(s, s[0]);
      AboveAtMost(s[1..], s[0]);
    }
  }

  lemma {:induction false} NothingBelow(s: seq<real>, x: real)
    requires forall i :: 0 <= i < |s| ==> x <= s[i]
    ensures CountBelow(s, x) == 0
  {
    if s != [] {
      NothingBelow(s[1..], x);
    }
  }

  lemma {:induction false} AboveAtMost(s: seq<real>, x: real)
    ensures CountAbove(s, x) <= |s|
  {
    if s != [] {
      AboveAtMost(s[1..], x);
    }
  }

  /** The default weight is one of the measured ones, raised to the minimum; at most half of them
      (rounded down) lie below it, and fewer than half (rounded up) above it. Without data it is one. */
  lemma NewTestWeightIsUpperMedian(weights: seq<Entry>)
    ensures weights == [] ==> NewTestWeight(weights) == NO_DATA_WEIGHT
    ensures weights != [] ==>
      && NewTestWeight(weights) in Clamped(weights)
      && CountBelow(Clamped(weights), NewTestWeight(weights)) <= |weights| / 2
      && CountAbove(Clamped(weights), NewTestWeight(weights)) <= |weights| - 1 - |weights| / 2
  {
    if weights != [] {
      var s, r := Clamped(weights), NewTestWeight(weights);
      SortKeeps(s, r);
      CountsAt(Sort(s), |s| / 2);
      assert r in Sort(s);
    }
  }

  /** Every file weighs at least the minimum, so no weight is zero. */
  lemma WeightIsPositive(file: string, weights: seq<Entry>)
    ensures WeightOf(file, weights) >= MIN_WEIGHT
  {
    NewTestWeightIsUpperMedian(weights);
  }

  /** A measured file has its first measure, and no less than 0.1. */
  lemma {:induction false} MeasuredWeight(file: string, weights: seq<Entry>, i: nat)
    requires i < |weights| && weights[i].file == file && forall j :: 0 <= j < i ==> weights[j].file != file
    ensures Known(file, weights) == Some(weights[i].weight)
    ensures WeightOf(file, weights) == if weights[i].weight < 0.1 then 0.1 else weights[i].weight
  {
    if i > 0 {
      assert weights[1..][i - 1] == weights[i] && forall j :: 0 <= j < i - 1 ==> weights[1..][j] == weights[j + 1];
      MeasuredWeight(file, weights[1..], i - 1);
    }
  }

  /** Any other has the weight of a new test, which is 1 while nothing is measured. */
  lemma {:induction false} UnmeasuredWeight(file: string, weights: seq<Entry>)
    requires forall i :: 0 <= i < |weights| ==> weights[i].file != file
    ensures Known(file, weights).None? && WeightOf(file, weights) == NewTestWeight(weights)
    ensures weights == [] ==> WeightOf(file, weights) == 1.0
  {
    if weights != [] {
      assert forall j :: 0 <= j < |weights| - 1 ==> weights[1..][j] == weights[j + 1];
      UnmeasuredWeight(file, weights[1..]);
    }
  }

  // ---------- the order in which files are dealt out ----------

  predicate PathBefore(a: string, b: string) {
    b != [] && (a == [] || a[0] < b[0] || (a[0] == b[0] && PathBefore(a[1..], b[1..])))
  }

  /** The comparator: heavier first, then by path. */
  predicate DealtBefore(a: string, b: string, weights: seq<Entry>) {
    var x, y := WeightOf(a, weights), WeightOf(b, weights);
    x > y || (x == y && PathBefore(a, b))
  }

  /** The paths differ first at k, where a ends or has the smaller character. */
  predicate FirstSmaller(a: string, b: string, k: nat) {
    k <= |a| && k < |b| && a[..k] == b[..k] && (k == |a| || a[k] < b[k])
  }

  lemma OneFurther(a: string, b: string, k: nat)
    requires a != [] && b != [] && a[0] == b[0]
    ensures FirstSmaller(a, b, k + 1) <==> FirstSmaller(a[1..], b[1..], k)
    ensures !FirstSmaller(a, b, 0)
  {
    if k <= |a| - 1 && k < |b| - 1 {
      assert a[..k + 1] == [a[0]] + a[1..][..k] && b[..k + 1] == [b[0]] + b[1..][..k];
      assert a[1..][..k] == a[..k + 1][1..] && b[1..][..k] == b[..k + 1][1..];
    }
  }

  lemma SameAtFirst(a: string, b: string, k: nat)
    requires FirstSmaller(a, b, k) && k > 0
    ensures a != [] && a[0] == b[0]
  {
    assert a[..k][0] == a[0] && b[..k][0] == b[0];
  }

  /** Paths are ordered by their first difference; a path comes before those it begins. */
  lemma {:induction false} PathBeforeSays(a: string, b: string)
    ensures PathBefore(a, b) <==> exists k: nat :: FirstSmaller(a, b, k)
  {
    if a != [] && b != [] && a[0] == b[0] {
      PathBeforeSays(a[1..], b[1..]);
      if k: nat :| FirstSmaller(a[1..], b[1..], k) {
        OneFurther(a, b, k);
      }
      if k: nat :| FirstSmaller(a, b, k) {
        OneFurther(a, b, 0);
        OneFurther(a, b, k - 1);
      }
    } else {
      if PathBefore(a, b) {
        assert FirstSmaller(a, b, 0);
      }
      if k: nat :| FirstSmaller(a, b, k) {
        if k > 0 {
          SameAtFirst(a, b, k);
        }
      }
    }
  }

  lemma {:induction false} PathOrder(a: string, b: string, c: string)
    ensures !PathBefore(a, a)
    ensures a != b ==> PathBefore(a, b) || PathBefore(b, a)
    ensures PathBefore(a, b) && PathBefore(b, c) ==> PathBefore(a, c)
  {
    if a != [] {
      PathOrder(a[1..], if b == [] then [] else b[1..], if c == [] then [] else c[1..]);
      if b != [] && a[0] == b[0] && a[1..] == b[1..] {
        assert a == [a[0]] + a[1..] && b == [b[0]] + b[1..];
      }
    }
  }

  lemma DealtOrder(a: string, b: string, c: string, weights: seq<Entry>)
    ensures !DealtBefore(a, a, weights)
    ensures a != b ==> DealtBefore(a, b, weights) || DealtBefore(b, a, weights)
    ensures DealtBefore(a, b, weights) && DealtBefore(b, c, weights) ==> DealtBefore(a, c, weights)
  {
    PathOrder(a, b, c);
  }

  /** new Set(files): the first occurrence of each file. */
  function Distinct(files: seq<string>): seq<string> {
    if files == [] then []
    else
      var before := Distinct(files[..|files| - 1]);
      if files[|files| - 1] in before then before else before + [files[|files| - 1]]
  }

  function Deal(file: string, dealt: seq<string>, weights: seq<Entry>): seq<string> {
    if dealt == [] || DealtBefore(file, dealt[0], weights) then [file] + dealt
    else [dealt[0]] + Deal(file, dealt[1..], weights)
  }

  function DealAll(files: seq<string>, weights: seq<Entry>): seq<string> {
    if files == [] then [] else Deal(files[0], DealAll(files[1..], weights), weights)
  }

  /** The deduplicated files, heaviest first. */
  function Ranked(files: seq<string>, weights: seq<Entry>): seq<string> {
    DealAll(Distinct(files), weights)
  }

  ghost predicate InDealOrder(s: seq<string>, weights: seq<Entry>) {
    forall i, j :: 0 <= i < j < |s| ==> DealtBefore(s[i], s[j], weights)
  }

  ghost predicate SameFiles(s: seq<string>, t: seq<string>) {
    forall f :: f in s <==> f in t
  }

  lemma NoFiles(s: seq<string>, t: seq<string>)
    requires SameFiles(s, t)
    ensures s == [] <==> t == []
  {
    var f, g := if s == [] then "" else s[0], if t == [] then "" else t[0];
    assert (f in s <==> f in t) && (g in s <==> g in t);
  }

  lemma {:induction false} DistinctKeeps(files: seq<string>)
    ensures SameFiles(Distinct(files), files)
    ensures forall i, j :: 0 <= i < j < |Distinct(files)| ==> Distinct(files)[i] != Distinct(files)[j]
  {
    if files != [] {
      var front := files[..|files| - 1];
      DistinctKeeps(front);
      assert files == front + [files[|files| - 1]];
    }
  }

  lemma {:induction false} DealKeeps(file: string, dealt: seq<string>, weights: seq<Entry>)
    requires InDealOrder(dealt, weights) && file !in dealt
    ensures InDealOrder(Deal(file, dealt, weights), weights)
    ensures SameFiles(Deal(file, dealt, weights), [file] + dealt)
  {
    if dealt == [] {
    } else if DealtBefore(file, dealt[0], weights) {
      forall j | 0 <= j < |dealt| ensures DealtBefore(file, dealt[j], weights) {
        DealtOrder(file, dealt[0], dealt[j], weights);
      }
    } else {
      DealtOrder(file, dealt[0], file, weights);
      DealKeeps(file, dealt[1..], weights);
      var rest := Deal(file, dealt[1..], weights);
      assert dealt == [dealt[0]] + dealt[1..];
      forall j | 0 <= j < |rest| ensures DealtBefore(dealt[0], rest[j], weights) {
        assert rest[j] in [file] + dealt[1..];
      }
    }
  }

  lemma {:induction false} DealAllKeeps(files: seq<string>, weights: seq<Entry>)
    requires forall i, j :: 0 <= i < j < |files| ==> files[i] != files[j]
    ensures InDealOrder(DealAll(files, weights), weights)
    ensures SameFiles(DealAll(files, weights), files)
  {
    if files != [] {
      DealAllKeeps(files[1..], weights);
      assert files == [files[0]] + files[1..];
      assert files[0] !in files[1..];
      DealKeeps(files[0], DealAll(files[1..], weights), weights);
    }
  }

  lemma RankedKeeps(files: seq<string>, weights: seq<Entry>)
    ensures InDealOrder(Ranked(files, weights), weights) && SameFiles(Ranked(files, weights), files)
  {
    DistinctKeeps(files);
    DealAllKeeps(Distinct(files), weights);
  }

  /** Files are dealt heaviest first, and those of one weight by their paths. */
  lemma RankedSays(files: seq<string>, weights: seq<Entry>, i: nat, j: nat)
    requires i < j < |Ranked(files, weights)|
    ensures
      var a, b := Ranked(files, weights)[i], Ranked(files, weights)[j];
      && WeightOf(a, weights) >= WeightOf(b, weights)
      && (WeightOf(a, weights) == WeightOf(b, weights) ==>
            exists k: nat :: FirstSmaller(a, b, k))
  {
    RankedKeeps(files, weights);
    PathBeforeSays(Ranked(files, weights)[i], Ranked(files, weights)[j]);
  }

  lemma {:induction false} OneOrderPerSet(s: seq<string>, t: seq<string>, weights: seq<Entry>)
    requires InDealOrder(s, weights) && InDealOrder(t, weights) && SameFiles(s, t)
    ensures s == t
  {
    if s == [] {
      NoFiles(s, t);
    } else {
      assert s[0] in t;
      assert t != [] && t[0] in s;
      HeadsAgree(s, t, weights);
      TailsAgree(s, t, weights);
      TailsAgree(t, s, weights);
      OneOrderPerSet(s[1..], t[1..], weights);
      assert s == [s[0]] + s[1..] && t == [t[0]] + t[1..];
    }
  }

  lemma HeadsAgree(s: seq<string>, t: seq<string>, weights: seq<Entry>)
    requires InDealOrder(s, weights) && InDealOrder(t, weights) && s != [] && t != [] && s[0] in t && t[0] in s
    ensures s[0] == t[0]
  {
    var i :| 0 <= i < |t| && t[i] == s[0];
    var j :| 0 <= j < |s| && s[j] == t[0];
    DealtOrder(s[0], t[0], s[0], weights);
  }

  lemma TailsAgree(s: seq<string>, t: seq<string>, weights: seq<Entry>)
    requires InDealOrder(s, weights) && s != [] && t != [] && SameFiles(s, t) && s[0] == t[0]
    ensures forall f :: f in s[1..] ==> f in t[1..]
  {
    forall f | f in s[1..]
      ensures f in t[1..]
    {
      var i :| 0 < i < |s| && s[i] == f;
      DealtOrder(f, f, f, weights);
      assert f in t && t == [t[0]] + t[1..];
    }
  }

  /** Shards computed separately fit together: the deal depends on the set of files, not on their order or repeats. */
  lemma RankedDependsOnTheSet(files: seq<string>, others: seq<string>, weights: seq<Entry>)
    requires SameFiles(files, others)
    ensures Ranked(files, weights) == Ranked(others, weights)
  {
    RankedKeeps(files, weights);
    RankedKeeps(others, weights);
    OneOrderPerSet(Ranked(files, weights), Ranked(others, weights), weights);
  }

  // ---------- balancing ----------

  ghost function WeightsIn(order: seq<string>, weights: seq<Entry>): (w: seq<real>)
    ensures |w| == |order| && forall i :: 0 <= i < |w| ==> w[i] == WeightOf(order[i], weights)
  {
    seq(|order|, i requires 0 <= i < |order| => WeightOf(order[i], weights))
  }

  /** The first of the lightest shards among the first n. */
  ghost function FirstLightest(w: seq<real>, a: seq<nat>, k: nat, n: nat): (best: nat)
    requires k <= |w| && k <= |a| && n > 0
    ensures best < n
    ensures forall j :: 0 <= j < n ==> Load(w, a, k, best) <= Load(w, a, k, j)
    ensures forall j :: 0 <= j < best ==> Load(w, a, k, best) < Load(w, a, k, j)
  {
    if n == 1 then 0
    else
      var best := FirstLightest(w, a, k, n - 1);
      if Load(w, a, k, n - 1) < Load(w, a, k, best) then n - 1 else best
  }

  ghost function GreedyOf(w: seq<real>, m: nat, k: nat): (a: seq<nat>)
    requires m > 0 && k <= |w|
    ensures |a| == k
  {
    if k == 0 then [] else
      var before := GreedyOf(w, m, k - 1);
      before + [FirstLightest(w, before, k - 1, m)]
  }

  lemma {:induction false} LoadOfPrefix(w: seq<real>, a: seq<nat>, b: seq<nat>, k: nat, j: nat)
    requires k <= |w| && k <= |a| && k <= |b| && a[..k] == b[..k]
    ensures Load(w, a, k, j) == Load(w, b, k, j)
  {
    if k > 0 {
      assert a[..k - 1] == a[..k][..k - 1] && b[..k - 1] == b[..k][..k - 1];
      assert a[k - 1] == a[..k][k - 1] && b[k - 1] == b[..k][k - 1];
      LoadOfPrefix(w, a, b, k - 1, j);
    }
  }

  lemma {:induction false} GreedyPrefix(w: seq<real>, m: nat, i: nat, k: nat)
    requires m > 0 && i <= k <= |w|
    ensures GreedyOf(w, m, k)[..i] == GreedyOf(w, m, i)
  {
    if i < k {
      GreedyPrefix(w, m, i, k - 1);
      assert GreedyOf(w, m, k)[..i] == GreedyOf(w, m, k - 1)[..i];
    }
  }

  lemma GreedyOfIsGreedy(w: seq<real>, m: nat)
    requires m > 0
    ensures Greedy(w, GreedyOf(w, m, |w|), m)
  {
    var a := GreedyOf(w, m, |w|);
    forall i | 0 <= i < |w|
      ensures PlacedOnLightest(w, a, i, m)
    {
      GreedyPrefix(w, m, i, |w|);
      GreedyPrefix(w, m, i + 1, |w|);
      var before := GreedyOf(w, m, i);
      assert a[i] == a[..i + 1][i] == FirstLightest(w, before, i, m);
      forall j {
        LoadOfPrefix(w, a, before, i, j);
      }
    }
  }

  /** The files of the first k that lie on shard j, in the order they were dealt. */
  ghost function FilesOn(order: seq<string>, a: seq<nat>, k: nat, j: nat): seq<string>
    requires k <= |order| && k <= |a|
  {
    if k == 0 then []
    else FilesOn(order, a, k - 1, j) + (if a[k - 1] == j then [order[k - 1]] else [])
  }

  /** The shards the balancing returns. */
  ghost function Balanced(files: seq<string>, weights: seq<Entry>, count: nat): (r: seq<seq<string>>)
    requires count > 0
    ensures |r| == count
  {
    var order := Ranked(files, weights);
    var a := GreedyOf(WeightsIn(order, weights), count, |order|);
    seq(count, j requires 0 <= j < count => FilesOn(order, a, |order|, j))
  }

  /** shards.reduce((best, shard) => shard.total < best.total ? shard : best) */
  method Lightest(totals: array<real>) returns (best: nat)
    requires totals.Length > 0
    ensures best < totals.Length
    ensures forall j :: 0 <= j < totals.Length ==> totals[best] <= totals[j]
    ensures forall j :: 0 <= j < best ==> totals[best] < totals[j]
  {
    best := 0;
    for i := 1 to totals.Length
      invariant best < i
      invariant forall j :: 0 <= j < i ==> totals[best] <= totals[j]
      invariant forall j :: 0 <= j < best ==> totals[best] < totals[j]
    {
      if totals[i] < totals[best] {
        best := i;
      }
    }
  }

  /** balanceShards: None where reducing an empty list of shards throws. */
  method BalanceShards(files: seq<string>, weights: seq<Entry>, count: nat) returns (r: Option<seq<seq<string>>>)
    ensures r.None? <==> count == 0 && files != []
    ensures count == 0 && files == [] ==> r == Some([])
    ensures count > 0 ==> r == Some(Balanced(files, weights, count))
  {
    var order := Ranked(files, weights);
    RankedKeeps(files, weights);
    if count == 0 {
      if order == [] {
        NoFiles(order, files);
        return Some([]);
      }
      NoFiles(order, files);
      return None;
    }
    ghost var w := WeightsIn(order, weights);
    ghost var a := GreedyOf(w, count, |order|);
    GreedyOfIsGreedy(w, count);
    var shards := new seq<string>[count](_ => []);
    var totals := new real[count](_ => 0.0);
    for i := 0 to |order|
      invariant forall j :: 0 <= j < count ==> shards[j] == FilesOn(order, a, i, j)
      invariant forall j :: 0 <= j < count ==> totals[j] == Load(w, a, i, j)
    {
      var lightest := Lightest(totals);
      assert PlacedOnLightest(w, a, i, count);
      assert lightest == a[i] by {
        assert totals[lightest] <= totals[a[i]] && totals[a[i]] <= totals[lightest];
      }
      shards[lightest] := shards[lightest] + [order[i]];
      totals[lightest] := totals[lightest] + WeightOf(order[i], weights);
    }
    assert shards[..] == Balanced(files, weights, count);
    r := Some(shards[..]);
  }

  // ---------- what the balancing promises ----------

  ghost predicate OnSomeShard(f: string, shards: seq<seq<string>>) {
    exists j :: 0 <= j < |shards| && f in shards[j]
  }

  /** Every file lies on exactly one shard, once. */
  ghost predicate IsPartition(shards: seq<seq<string>>, files: seq<string>, count: nat) {
    && |shards| == count
    && (forall f :: f in files <==> OnSomeShard(f, shards))
    && (forall j, l, p, q :: 0 <= j < count && 0 <= l < count && 0 <= p < |shards[j]| && 0 <= q < |shards[l]| ==>
         shards[j][p] == shards[l][q] ==> j == l && p == q)
  }

  ghost function ShardWeight(shard: seq<string>, weights: seq<Entry>): real {
    if shard == [] then 0.0
    else ShardWeight(shard[..|shard| - 1], weights) + WeightOf(shard[|shard| - 1], weights)
  }

  lemma {:induction false} FilesOnIndex(order: seq<string>, a: seq<nat>, k: nat, j: nat, p: nat) returns (i: nat)
    requires k <= |order| && k <= |a| && p < |FilesOn(order, a, k, j)|
    ensures i < k && a[i] == j && order[i] == FilesOn(order, a, k, j)[p] && p == |FilesOn(order, a, i, j)|
  {
    if a[k - 1] == j && p == |FilesOn(order, a, k - 1, j)| {
      i := k - 1;
    } else {
      i := FilesOnIndex(order, a, k - 1, j, p);
    }
  }

  lemma {:induction false} FilesOnHolds(order: seq<string>, a: seq<nat>, k: nat, i: nat)
    requires i < k <= |order| && k <= |a|
    ensures order[i] in FilesOn(order, a, k, a[i])
  {
    if i < k - 1 {
      FilesOnHolds(order, a, k - 1, i);
    }
  }

  lemma DealtOnce(order: seq<string>, weights: seq<Entry>, i: nat, k: nat)
    requires InDealOrder(order, weights) && i < |order| && k < |order| && order[i] == order[k]
    ensures i == k
  {
    DealtOrder(order[i], order[i], order[i], weights);
  }

  lemma BalancedIsPartition(files: seq<string>, weights: seq<Entry>, count: nat)
    requires count > 0
    ensures IsPartition(Balanced(files, weights, count), files, count)
  {
    var order := Ranked(files, weights);
    var n := |order|;
    var a := GreedyOf(WeightsIn(order, weights), count, n);
    var shards := Balanced(files, weights, count);
    RankedKeeps(files, weights);
    GreedyOfIsGreedy(WeightsIn(order, weights), count);
    GreedyIsAssignment(WeightsIn(order, weights), a, count);
    forall f
      ensures f in files <==> OnSomeShard(f, shards)
    {
      if f in files {
        var i :| 0 <= i < n && order[i] == f;
        FilesOnHolds(order, a, n, i);
        assert f in shards[a[i]];
      }
      if OnSomeShard(f, shards) {
        var j :| 0 <= j < |shards| && f in shards[j];
        var p :| 0 <= p < |shards[j]| && shards[j][p] == f;
        var i := FilesOnIndex(order, a, n, j, p);
        assert f in order;
      }
    }
    forall j, l, p, q | 0 <= j < count && 0 <= l < count && 0 <= p < |shards[j]| && 0 <= q < |shards[l]|
      && shards[j][p] == shards[l][q]
      ensures j == l && p == q
    {
      var i := FilesOnIndex(order, a, n, j, p);
      var k := FilesOnIndex(order, a, n, l, q);
      DealtOnce(order, weights, i, k);
    }
  }

  lemma {:induction false} LoadIsShardWeight(order: seq<string>, weights: seq<Entry>, a: seq<nat>, k: nat, j: nat)
    requires k <= |order| && k <= |a|
    ensures Load(WeightsIn(order, weights), a, k, j) == ShardWeight(FilesOn(order, a, k, j), weights)
  {
    if k > 0 {
      LoadIsShardWeight(order, weights, a, k - 1, j);
      var before, now := FilesOn(order, a, k - 1, j), FilesOn(order, a, k, j);
      if a[k - 1] == j {
        assert now[..|now| - 1] == before;
      } else {
        assert now == before;
      }
    }
  }

  /** The heaviest and the lightest shard differ by at most the heaviest file. */
  lemma BalancedSpread(files: seq<string>, weights: seq<Entry>, count: nat, j: nat, l: nat, top: real)
    requires j < count && l < count && top >= 0.0
    requires forall f :: f in files ==> WeightOf(f, weights) <= top
    ensures ShardWeight(Balanced(files, weights, count)[j], weights) - ShardWeight(Balanced(files, weights, count)[l], weights) <= top
  {
    var order := Ranked(files, weights);
    var w := WeightsIn(order, weights);
    var a := GreedyOf(w, count, |order|);
    RankedKeeps(files, weights);
    GreedyOfIsGreedy(w, count);
    DealtWeights(order, weights);
    forall i | 0 <= i < |w| ensures w[i] <= top {
      assert order[i] in files;
    }
    GreedyBalance(w, a, count, |w|, j, l, top);
    LoadIsShardWeight(order, weights, a, |order|, j);
    LoadIsShardWeight(order, weights, a, |order|, l);
  }

  lemma DealtWeights(order: seq<string>, weights: seq<Entry>)
    requires InDealOrder(order, weights)
    ensures Positive(WeightsIn(order, weights)) && HeaviestFirst(WeightsIn(order, weights))
  {
    var w := WeightsIn(order, weights);
    forall i | 0 <= i < |w| ensures w[i] > 0.0 {
      WeightIsPositive(order[i], weights);
    }
  }

  // ---------- against every other split ----------

  /** The shard of another split that holds each file of the order. */
  ghost function HolderOf(order: seq<string>, shards: seq<seq<string>>): (b: seq<nat>)
    requires forall i :: 0 <= i < |order| ==> OnSomeShard(order[i], shards)
    ensures |b| == |order| && forall i :: 0 <= i < |order| ==> b[i] < |shards| && order[i] in shards[b[i]]
  {
    seq(|order|, i requires 0 <= i < |order| =>
      assert OnSomeShard(order[i], shards); var j: nat :| j < |shards| && order[i] in shards[j]; j)
  }

  lemma {:induction false} LoadMoved(w: seq<real>, b: seq<nat>, k: nat, p: nat, q: nat, j: nat)
    requires k <= |w| && k <= |b| && p < |b| && b[p] == j && q != j
    ensures Load(w, b[p := q], k, j) == Load(w, b, k, j) - (if p < k then w[p] else 0.0)
  {
    if k > 0 {
      LoadMoved(w, b, k - 1, p, q, j);
    }
  }

  lemma {:induction false} NothingOn(w: seq<real>, b: seq<nat>, k: nat, j: nat)
    requires k <= |w| && k <= |b| && forall i :: 0 <= i < k ==> b[i] != j
    ensures Load(w, b, k, j) == 0.0
  {
    if k > 0 {
      NothingOn(w, b, k - 1, j);
    }
  }

  /** However a shard lists its files, its weight is the load of the assignment it stands for. */
  lemma {:induction false} ShardWeightIsLoad(order: seq<string>, weights: seq<Entry>, b: seq<nat>, shard: seq<string>, j: nat)
    requires InDealOrder(order, weights) && |b| == |order|
    requires forall p, q :: 0 <= p < q < |shard| ==> shard[p] != shard[q]
    requires forall p :: 0 <= p < |shard| ==> shard[p] in order
    requires forall i :: 0 <= i < |order| ==> (b[i] == j <==> order[i] in shard)
    ensures ShardWeight(shard, weights) == Load(WeightsIn(order, weights), b, |order|, j)
    decreases |shard|
  {
    var w := WeightsIn(order, weights);
    if shard == [] {
      NothingOn(w, b, |order|, j);
    } else {
      var front, last := shard[..|shard| - 1], shard[|shard| - 1];
      assert shard == front + [last];
      var p: nat :| p < |order| && order[p] == last;
      var c := b[p := j + 1];
      forall i | 0 <= i < |order| ensures c[i] == j <==> order[i] in front {
        if order[i] == last {
          DealtOnce(order, weights, i, p);
        }
      }
      ShardWeightIsLoad(order, weights, c, front, j);
      LoadMoved(w, b, |order|, p, j + 1, j);
    }
  }

  /** Graham's bound for balanceShards: however else the same files are split over the same number of shards,
      if no shard of that split weighs more than h, none of ours weighs more than (4 - 1/count)/3 of h. */
  lemma BalancedWithinGraham(files: seq<string>, weights: seq<Entry>, count: nat, other: seq<seq<string>>, h: real, j: nat)
    requires j < count && IsPartition(other, files, count)
    requires forall l :: 0 <= l < count ==> ShardWeight(other[l], weights) <= h
    ensures WithinGraham(count, ShardWeight(Balanced(files, weights, count)[j], weights), h)
  {
    var order := Ranked(files, weights);
    var w := WeightsIn(order, weights);
    var a := GreedyOf(w, count, |order|);
    RankedKeeps(files, weights);
    GreedyOfIsGreedy(w, count);
    DealtWeights(order, weights);
    forall i | 0 <= i < |order| ensures OnSomeShard(order[i], other) {
      assert order[i] in files;
    }
    var b := HolderOf(order, other);
    assert Within(w, b, |w|, count, h) by {
      forall l | 0 <= l < count ensures Load(w, b, |w|, l) <= h {
        OtherShardIsLoad(order, weights, files, other, count, l);
      }
    }
    GrahamBound(w, a, b, count, h, j);
    LoadIsShardWeight(order, weights, a, |order|, j);
  }

  lemma {:induction false} OtherShardIsLoad(order: seq<string>, weights: seq<Entry>, files: seq<string>, other: seq<seq<string>>, count: nat, l: nat)
    requires IsPartition(other, files, count) && l < count && InDealOrder(order, weights) && SameFiles(order, files)
    requires forall i :: 0 <= i < |order| ==> OnSomeShard(order[i], other)
    ensures Load(WeightsIn(order, weights), HolderOf(order, other), |order|, l) == ShardWeight(other[l], weights)
  {
    var b := HolderOf(order, other);
    forall i | 0 <= i < |order| ensures b[i] == l <==> order[i] in other[l] {
      if order[i] in other[l] {
        var p :| 0 <= p < |other[l]| && other[l][p] == order[i];
        var q :| 0 <= q < |other[b[i]]| && other[b[i]][q] == order[i];
      }
    }
    forall p | 0 <= p < |other[l]| ensures other[l][p] in order {
      assert other[l][p] in other[l];
      assert other[l][p] in files;
    }
    ShardWeightIsLoad(order, weights, b, other[l], l);
  }

  /** Separately computed splits of the same set of files are the same split. */
  lemma BalancedDependsOnTheSet(files: seq<string>, others: seq<string>, weights: seq<Entry>, count: nat)
    requires count > 0 && SameFiles(files, others)
    ensures Balanced(files, weights, count) == Balanced(others, weights, count)
  {
    RankedDependsOnTheSet(files, others, weights);
  }
}
