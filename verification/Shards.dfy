/** Deterministic file shards for the test suite: longest-first greedy balancing.

    A sharding is a list of groups that together hold every file exactly once.  The loop below
    follows the script; what it promises is Graham's bound against every other sharding. */
module Shards {
  import Text

  datatype File = File(path: string, size: nat)

  datatype Result<+T> = Ok(value: T) | ValueError

  datatype Bucket = Bucket(weight: nat, members: seq<File>)

  function Weight(files: seq<File>): nat {
    if files == [] then 0 else Weight(files[..|files|-1]) + files[|files|-1].size
  }

  function Flatten(groups: seq<seq<File>>): multiset<File> {
    if groups == [] then multiset{} else Flatten(groups[..|groups|-1]) + multiset(groups[|groups|-1])
  }

  /** The groups hold exactly the given files, each as often as it is given. */
  ghost predicate IsSharding(groups: seq<seq<File>>, files: seq<File>, count: nat) {
    |groups| == count && Flatten(groups) == multiset(files)
  }

  /** Every group weighs at most `bound`; the smallest such bound is the fullest group's weight. */
  ghost predicate AllWithin(groups: seq<seq<File>>, bound: nat) {
    forall i :: 0 <= i < |groups| ==> Weight(groups[i]) <= bound
  }

  // ---- loads of an assignment ---------------------------------------------------------------

  /** The total size that assignment `a` gives to bucket `i`. */
  function Load(p: seq<nat>, a: seq<nat>, i: nat): nat
    requires |p| == |a|
  {
    if p == [] then 0
    else Load(p[..|p|-1], a[..|a|-1], i) + (if a[|a|-1] == i then p[|p|-1] else 0)
  }

  function Total(p: seq<nat>): nat {
    if p == [] then 0 else Total(p[..|p|-1]) + p[|p|-1]
  }

  function Sizes(files: seq<File>): seq<nat> {
    seq(|files|, i requires 0 <= i < |files| => files[i].size)
  }

  ghost predicate Descending(p: seq<nat>) {
    forall i, j :: 0 <= i < j < |p| ==> p[i] >= p[j]
  }

  ghost predicate Assigns(a: seq<nat>, n: nat, count: nat) {
    |a| == n && forall j :: 0 <= j < |a| ==> a[j] < count
  }

  /** Every bucket's load under `a` is at most `opt`. */
  ghost predicate LoadsWithin(p: seq<nat>, a: seq<nat>, count: nat, opt: nat)
    requires |p| == |a|
  {
    forall i :: 0 <= i < count ==> Load(p, a, i) <= opt
  }

  function Loads(p: seq<nat>, a: seq<nat>, count: nat): seq<nat>
    requires |p| == |a|
  {
    seq(count, i requires 0 <= i < count => Load(p, a, i))
  }

  lemma TotalUpdate(v: seq<nat>, i: nat, x: nat)
    requires i < |v|
    ensures Total(v[i := v[i] + x]) == Total(v) + x
  {
    var w := v[i := v[i] + x];
    if i == |v| - 1 {
      assert w[..|w|-1] == v[..|v|-1];
    } else {
      assert w[..|w|-1] == v[..|v|-1][i := v[i] + x];
      TotalUpdate(v[..|v|-1], i, x);
    }
  }

  /** Loads conserve the total size. */
  lemma {:induction false} LoadsConserveTotal(p: seq<nat>, a: seq<nat>, count: nat)
    requires Assigns(a, |p|, count)
    ensures Total(Loads(p, a, count)) == Total(p)
  {
    if p == [] {
      ZeroTotal(Loads(p, a, count));
    } else {
      var last := |p| - 1;
      LoadsConserveTotal(p[..last], a[..last], count);
      var before := Loads(p[..last], a[..last], count);
      assert Loads(p, a, count) == before[a[last] := before[a[last]] + p[last]];
      TotalUpdate(before, a[last], p[last]);
    }
  }

  lemma ZeroTotal(v: seq<nat>)
    requires forall i :: 0 <= i < |v| ==> v[i] == 0
    ensures Total(v) == 0
  {
  }

  lemma {:induction false} TotalAtLeast(v: seq<nat>, low: nat)
    requires forall i :: 0 <= i < |v| ==> low <= v[i]
    ensures |v| * low <= Total(v)
  {
    if v != [] {
      TotalAtLeast(v[..|v|-1], low);
      assert |v| * low == (|v| - 1) * low + low;
    }
  }

  lemma {:induction false} TotalAtMost(v: seq<nat>, high: nat)
    requires forall i :: 0 <= i < |v| ==> v[i] <= high
    ensures Total(v) <= |v| * high
  {
    if v != [] {
      TotalAtMost(v[..|v|-1], high);
      assert |v| * high == (|v| - 1) * high + high;
    }
  }

  lemma LoadOfPrefix(p: seq<nat>, a: seq<nat>, k: nat, i: nat)
    requires |p| == |a| && k <= |p|
    ensures Load(p[..k], a[..k], i) <= Load(p, a, i)
  {
    if k < |p| {
      LoadOfPrefix(p[..|p|-1], a[..|a|-1], k, i);
      assert p[..|p|-1][..k] == p[..k] && a[..|a|-1][..k] == a[..k];
    } else {
      assert p[..k] == p && a[..k] == a;
    }
  }

  // ---- counting files per bucket ------------------------------------------------------------

  function Ones(n: nat): seq<nat> { seq(n, _ => 1) }

  /** How many positions `a` sends to bucket `i`. */
  function Count(a: seq<nat>, i: nat): nat { Load(Ones(|a|), a, i) }

  lemma CountStep(a: seq<nat>, i: nat)
    requires a != []
    ensures Count(a, i) == Count(a[..|a|-1], i) + (if a[|a|-1] == i then 1 else 0)
  {
    assert Ones(|a|)[..|a|-1] == Ones(|a|-1);
  }

  lemma CountTotal(n: nat)
    ensures Total(Ones(n)) == n
  {
    if n > 0 {
      assert Ones(n)[..n-1] == Ones(n-1);
      CountTotal(n - 1);
    }
  }

  /** A bucket that received `c` files of size at least `small` weighs at least c * small. */
  lemma {:induction false} CountTimesSmallest(p: seq<nat>, a: seq<nat>, i: nat, small: nat)
    requires |p| == |a|
    requires forall j :: 0 <= j < |p| ==> p[j] >= small
    ensures Count(a, i) * small <= Load(p, a, i)
  {
    if p != [] {
      CountStep(a, i);
      CountTimesSmallest(p[..|p|-1], a[..|a|-1], i, small);
    }
  }

  lemma {:induction false} NoneCounted(p: seq<nat>, a: seq<nat>, i: nat)
    requires |p| == |a| && Count(a, i) == 0
    ensures Load(p, a, i) == 0 && forall j :: 0 <= j < |a| ==> a[j] != i
  {
    if p != [] {
      CountStep(a, i);
      NoneCounted(p[..|p|-1], a[..|a|-1], i);
    }
  }

  /** A bucket with one file weighs what that file weighs. */
  lemma {:induction false} OnlyFile(p: seq<nat>, a: seq<nat>, i: nat) returns (j: nat)
    requires |p| == |a| && Count(a, i) == 1
    ensures j < |a| && a[j] == i && Load(p, a, i) == p[j]
  {
    CountStep(a, i);
    if a[|a|-1] == i {
      j := |a| - 1;
      NoneCounted(p[..|p|-1], a[..|a|-1], i);
    } else {
      j := OnlyFile(p[..|p|-1], a[..|a|-1], i);
    }
  }

  lemma {:induction false} AtLeastOne(p: seq<nat>, a: seq<nat>, j: nat)
    requires |p| == |a| && j < |a|
    ensures Count(a, a[j]) >= 1 && Load(p, a, a[j]) >= p[j]
  {
    CountStep(a, a[j]);
    if j < |a| - 1 {
      AtLeastOne(p[..|p|-1], a[..|a|-1], j);
    }
  }

  /** Two files in one bucket weigh together at least their sum, counted from file `j`. */
  lemma {:induction false} SharedBucket(p: seq<nat>, a: seq<nat>, j: nat, small: nat)
    requires |p| == |a| && j < |a|
    requires forall x :: 0 <= x < |p| ==> p[x] >= small
    requires Count(a, a[j]) >= 2
    ensures Load(p, a, a[j]) >= p[j] + small
  {
    CountStep(a, a[j]);
    if j == |a| - 1 {
      CountTimesSmallest(p[..j], a[..j], a[j], small);
      assert Count(a[..j], a[j]) * small >= small;
    } else if a[|a|-1] == a[j] {
      AtLeastOne(p[..|p|-1], a[..|a|-1], j);
    } else {
      SharedBucket(p[..|p|-1], a[..|a|-1], j, small);
    }
  }

  function Singles(c: seq<nat>): set<nat> { set i | 0 <= i < |c| && c[i] == 1 }

  lemma {:induction false} PairsAndSingles(c: seq<nat>)
    requires forall i :: 0 <= i < |c| ==> c[i] <= 2
    ensures Total(c) + |Singles(c)| <= 2 * |c|
    ensures (forall i :: 0 <= i < |c| ==> c[i] >= 1) ==> Total(c) + |Singles(c)| == 2 * |c|
  {
    if c != [] {
      var front := c[..|c|-1];
      PairsAndSingles(front);
      if c[|c|-1] == 1 {
        assert Singles(c) == Singles(front) + {|c|-1};
      } else {
        assert Singles(c) == Singles(front);
      }
    }
  }

  lemma {:induction false} Injection(xs: set<nat>, f: map<nat, nat>, ys: set<nat>)
    requires forall x :: x in xs ==> x in f && f[x] in ys
    requires forall x, y :: x in xs && y in xs && f[x] == f[y] ==> x == y
    ensures |xs| <= |ys|
  {
    if xs != {} {
      var x :| x in xs;
      Injection(xs - {x}, f, ys - {f[x]});
      assert |xs - {x}| == |xs| - 1;
      assert |ys - {f[x]}| == |ys| - 1;
    }
  }

  // ---- Graham's argument --------------------------------------------------------------------

  /** When every file so far is larger than a third of `opt`, no bucket of either assignment
      holds three of them, and a count of singles and pairs forces the next file to fit. */
  lemma LargeFileFits(p: seq<nat>, k: nat, a: seq<nat>, other: seq<nat>, count: nat, opt: nat, low: nat)
    requires Descending(p) && k < |p|
    requires Assigns(a, k, count) && Assigns(other, |p|, count)
    requires LoadsWithin(p, other, count, opt)
    requires opt < 3 * p[k]
    requires LoadsWithin(p[..k], a, count, opt)
    requires forall i :: 0 <= i < count ==> low <= Load(p[..k], a, i)
    requires exists i :: 0 <= i < count && Load(p[..k], a, i) == low
    ensures low + p[k] <= opt
  {
    var q, o := p[..k+1], other[..k+1];
    var small := p[k];
    forall i | 0 <= i < count ensures Load(q, o, i) <= opt {
      LoadOfPrefix(p, other, k + 1, i);
    }
    AtLeastOne(q, o, k);
    assert small <= opt;
    if low + small > opt {
      var ca := Loads(Ones(k), a, count);
      var co := Loads(Ones(k + 1), o, count);
      forall i | 0 <= i < count ensures 1 <= ca[i] <= 2 && co[i] <= 2 {
        CountTimesSmallest(p[..k], a, i, small);
        CountTimesSmallest(q, o, i, small);
        assert Count(a, i) * small <= opt < 3 * small;
        assert Count(o, i) * small <= opt < 3 * small;
        FewerThan(Count(a, i), 3, small);
        FewerThan(Count(o, i), 3, small);
        if Count(a, i) == 0 {
          NoneCounted(p[..k], a, i);
        }
      }
      var lone := SinglesStaySingle(p, k, a, o, count, opt, low);
      Injection(Singles(ca), lone, Singles(co));
      PairsAndSingles(ca);
      PairsAndSingles(co);
      LoadsConserveTotal(Ones(k), a, count);
      LoadsConserveTotal(Ones(k + 1), o, count);
      CountTotal(k);
      CountTotal(k + 1);
      assert false;
    }
  }

  lemma FewerThan(c: nat, bound: nat, small: nat)
    requires c * small < bound * small
    ensures c < bound
  {
    if c >= bound {
      MulMonotone(bound, c, small);
    }
  }

  lemma MulMonotone(x: nat, y: nat, z: nat)
    requires x <= y
    ensures x * z <= y * z
  {
    assert y * z == x * z + (y - x) * z;
  }

  /** The file alone in a bucket of `a` is too large to share a bucket of `o`. */
  lemma SinglesStaySingle(p: seq<nat>, k: nat, a: seq<nat>, o: seq<nat>, count: nat, opt: nat, low: nat)
    returns (lone: map<nat, nat>)
    requires Descending(p) && k < |p|
    requires Assigns(a, k, count) && Assigns(o, k + 1, count)
    requires LoadsWithin(p[..k+1], o, count, opt)
    requires forall i :: 0 <= i < count ==> low <= Load(p[..k], a, i)
    requires low + p[k] > opt
    ensures forall i :: i in Singles(Loads(Ones(k), a, count)) ==>
              i in lone && lone[i] in Singles(Loads(Ones(k + 1), o, count))
    ensures forall i, j | i in Singles(Loads(Ones(k), a, count)) && j in Singles(Loads(Ones(k), a, count)) ::
              lone[i] == lone[j] ==> i == j
  {
    var q := p[..k+1];
    var singles := Singles(Loads(Ones(k), a, count));
    var file: map<nat, nat> := map[];
    var todo := singles;
    while todo != {}
      invariant todo <= singles
      invariant forall i :: i in singles - todo ==>
                  i in file && file[i] < k && a[file[i]] == i && Count(o, o[file[i]]) == 1
    {
      var i :| i in todo;
      var j := OnlyFile(p[..k], a, i);
      assert p[j] + p[k] > opt;
      AtLeastOne(q, o, j);
      if Count(o, o[j]) >= 2 {
        SharedBucket(q, o, j, p[k]);
        assert false;
      }
      file := file[i := j];
      todo := todo - {i};
    }
    lone := map i | i in singles :: o[file[i]];
    forall i, j | i in singles && j in singles && lone[i] == lone[j] ensures i == j {
      if file[i] != file[j] {
        TwoFilesCounted(o, file[i], file[j]);
      }
    }
  }

  lemma {:induction false} TwoFilesCounted(a: seq<nat>, x: nat, y: nat)
    requires x < |a| && y < |a| && x != y && a[x] == a[y]
    ensures Count(a, a[x]) >= 2
  {
    CountStep(a, a[x]);
    var front := a[..|a|-1];
    if x == |a| - 1 {
      AtLeastOne(Ones(|front|), front, y);
    } else if y == |a| - 1 {
      AtLeastOne(Ones(|front|), front, x);
    } else {
      TwoFilesCounted(front, x, y);
    }
  }

  /** A file of at most a third of `opt` adds little to the emptiest bucket. */
  lemma SmallFileFits(p: seq<nat>, k: nat, a: seq<nat>, other: seq<nat>, count: nat, opt: nat, low: nat)
    requires k < |p|
    requires Assigns(a, k, count) && Assigns(other, |p|, count)
    requires LoadsWithin(p, other, count, opt)
    requires 3 * p[k] <= opt
    requires forall i :: 0 <= i < count ==> low <= Load(p[..k], a, i)
    requires count > 0
    ensures 3 * count * (low + p[k]) <= (4 * count - 1) * opt
  {
    var q, o := p[..k+1], other[..k+1];
    forall i | 0 <= i < count ensures Load(q, o, i) <= opt {
      LoadOfPrefix(p, other, k + 1, i);
    }
    var mine, theirs := Loads(p[..k], a, count), Loads(q, o, count);
    LoadsConserveTotal(p[..k], a, count);
    LoadsConserveTotal(q, o, count);
    TotalAtLeast(mine, low);
    TotalAtMost(theirs, opt);
    assert q[..k] == p[..k];
    GrahamArithmetic(count, low, p[k], opt);
  }

  lemma GrahamArithmetic(count: nat, low: nat, size: nat, opt: nat)
    requires count > 0 && count * low + size <= count * opt && 3 * size <= opt
    ensures 3 * count * (low + size) <= (4 * count - 1) * opt
  {
    MulMonotone(3 * size, opt, count - 1);
    assert 3 * count * (low + size) == 3 * (count * low + size) + (3 * size) * (count - 1);
    assert (4 * count - 1) * opt == 3 * (count * opt) + opt * (count - 1);
  }


  // ---- the greedy assignment ----------------------------------------------------------------

  /** File j goes to the least loaded bucket, the first one among equals. */
  ghost predicate PicksLeast(p: seq<nat>, a: seq<nat>, j: nat, count: nat)
    requires |p| == |a| && j < |p|
  {
    forall i | 0 <= i < count ::
      && Load(p[..j], a[..j], a[j]) <= Load(p[..j], a[..j], i)
      && (i < a[j] ==> Load(p[..j], a[..j], a[j]) < Load(p[..j], a[..j], i))
  }

  ghost predicate Greedy(p: seq<nat>, a: seq<nat>, count: nat) {
    Assigns(a, |p|, count) && forall j | 0 <= j < |p| :: PicksLeast(p, a, j, count)
  }

  lemma GreedyPrefix(p: seq<nat>, a: seq<nat>, k: nat, count: nat)
    requires Greedy(p, a, count) && k <= |p|
    ensures Greedy(p[..k], a[..k], count)
  {
    forall j | 0 <= j < k ensures PicksLeast(p[..k], a[..k], j, count) {
      assert p[..k][..j] == p[..j] && a[..k][..j] == a[..j];
      assert PicksLeast(p, a, j, count);
    }
  }

  /** Graham's bound for the first k files: large files never exceed `opt`, small ones add little. */
  lemma {:induction false} GreedyBound(p: seq<nat>, k: nat, a: seq<nat>, other: seq<nat>, count: nat, opt: nat)
    requires Descending(p) && k <= |p| && count > 0
    requires Greedy(p[..k], a, count)
    requires Assigns(other, |p|, count) && LoadsWithin(p, other, count, opt)
    ensures k > 0 && opt < 3 * p[k-1] ==> LoadsWithin(p[..k], a, count, opt)
    ensures forall i :: 0 <= i < count ==> 3 * count * Load(p[..k], a, i) <= (4 * count - 1) * opt
  {
    if k > 0 {
      var q := p[..k-1];
      var b := a[..k-1];
      assert p[..k][..k-1] == q;
      GreedyPrefix(p[..k], a, k - 1, count);
      assert PicksLeast(p[..k], a, k - 1, count);
      GreedyBound(p, k - 1, b, other, count, opt);
      var low := Load(q, b, a[k-1]);
      forall i | 0 <= i < count ensures low <= Load(q, b, i) {
        assert p[..k][..k-1] == q;
      }
      if opt < 3 * p[k-1] {
        if k == 1 {
          forall i | 0 <= i < count ensures Load(q, b, i) <= opt {}
        }
        LargeFileFits(p, k - 1, b, other, count, opt, low);
        OptimumScales(low + p[k-1], opt, count);
      } else {
        SmallFileFits(p, k - 1, b, other, count, opt, low);
      }
    }
  }

  lemma OptimumScales(load: nat, opt: nat, count: nat)
    requires load <= opt && count > 0
    ensures 3 * count * load <= (4 * count - 1) * opt
  {
    MulMonotone(load, opt, 3 * count);
    MulMonotone(3 * count, 4 * count - 1, opt);
  }

  /** The fullest and the emptiest bucket differ by at most the largest file. */
  lemma {:induction false} GreedyGap(p: seq<nat>, a: seq<nat>, count: nat, i: nat, j: nat)
    requires Greedy(p, a, count) && Descending(p) && p != [] && i < count && j < count
    ensures Load(p, a, i) <= Load(p, a, j) + p[0]
  {
    if |p| > 1 {
      GreedyPrefix(p, a, |p| - 1, count);
      assert PicksLeast(p, a, |p| - 1, count);
      GreedyGap(p[..|p|-1], a[..|a|-1], count, i, j);
    }
  }

  // ---- which shards are empty ---------------------------------------------------------------

  /** While every file so far has a size, each one opens the next bucket. */
  lemma {:induction false} OpensInOrder(p: seq<nat>, a: seq<nat>, k: nat, count: nat)
    requires Greedy(p, a, count) && k <= |p| && k <= count
    requires forall j :: 0 <= j < k - 1 ==> p[j] > 0
    ensures forall j :: 0 <= j < k ==> a[j] == j
  {
    if k > 0 {
      OpensInOrder(p, a, k - 1, count);
      var q, b := p[..k-1], a[..k-1];
      assert PicksLeast(p, a, k - 1, count);
      forall i | 0 <= i < k - 1 ensures Load(q, b, i) > 0 {
        AtLeastOne(q, b, i);
      }
      LoadOfUnused(q, b, k - 1);
    }
  }

  lemma {:induction false} LoadOfUnused(p: seq<nat>, a: seq<nat>, i: nat)
    requires |p| == |a| && forall j :: 0 <= j < |a| ==> a[j] != i || p[j] == 0
    ensures Load(p, a, i) == 0
  {
    if p != [] {
      LoadOfUnused(p[..|p|-1], a[..|a|-1], i);
    }
  }

  /** Empty files all follow the first one into its bucket. */
  lemma {:induction false} EmptyFilesPileUp(p: seq<nat>, a: seq<nat>, q: nat, k: nat, count: nat)
    requires Greedy(p, a, count) && q < k <= |p| && q < count
    requires forall j :: 0 <= j < q ==> p[j] > 0
    requires forall j :: q <= j < |p| ==> p[j] == 0
    ensures forall j :: q <= j < k ==> a[j] == q
  {
    OpensInOrder(p, a, q + 1, count);
    if k > q + 1 {
      EmptyFilesPileUp(p, a, q, k - 1, count);
      var front, b := p[..k-1], a[..k-1];
      assert PicksLeast(p, a, k - 1, count);
      forall i | 0 <= i < q ensures Load(front, b, i) > 0 {
        AtLeastOne(front, b, i);
      }
      LoadOfUnused(front, b, q);
    }
  }

  /** Every bucket receives a file exactly when all but one of the `count` largest files has a size. */
  lemma EveryShardUsed(p: seq<nat>, a: seq<nat>, count: nat)
    requires Greedy(p, a, count) && Descending(p) && 0 < count <= |p|
    ensures (forall i :: 0 <= i < count ==> Count(a, i) >= 1) <==> (count == 1 || p[count-2] > 0)
  {
    if count == 1 || p[count-2] > 0 {
      OpensInOrder(p, a, count, count);
      forall i | 0 <= i < count ensures Count(a, i) >= 1 {
        AtLeastOne(p, a, i);
      }
    } else {
      var q := FirstEmptyFile(p, count - 2);
      OpensInOrder(p, a, q + 1, count);
      EmptyFilesPileUp(p, a, q, |p|, count);
      LoadOfUnused(Ones(|a|), a, count - 1);
      assert Count(a, count - 1) == 0;
    }
  }

  lemma {:induction false} FirstEmptyFile(p: seq<nat>, k: nat) returns (q: nat)
    requires Descending(p) && k < |p| && p[k] == 0
    ensures q <= k
    ensures forall j :: 0 <= j < q ==> p[j] > 0
    ensures forall j :: q <= j < |p| ==> p[j] == 0
  {
    if k > 0 && p[k-1] == 0 {
      q := FirstEmptyFile(p, k - 1);
    } else {
      q := k;
    }
  }

  // ---- other shardings as assignments -------------------------------------------------------

  lemma {:induction false} FileInSomeGroup(groups: seq<seq<File>>, f: File) returns (i: nat, j: nat)
    requires f in Flatten(groups)
    ensures i < |groups| && j < |groups[i]| && groups[i][j] == f
  {
    var last := |groups| - 1;
    if f in groups[last] {
      i := last;
      j :| 0 <= j < |groups[i]| && groups[i][j] == f;
    } else {
      i, j := FileInSomeGroup(groups[..last], f);
    }
  }

  lemma {:induction false} FlattenUpdate(groups: seq<seq<File>>, i: nat, g: seq<File>, extra: File)
    requires i < |groups| && multiset(groups[i]) == multiset(g) + multiset{extra}
    ensures Flatten(groups) == Flatten(groups[i := g]) + multiset{extra}
  {
    var last := |groups| - 1;
    if i == last {
      assert groups[i := g][..last] == groups[..last];
    } else {
      assert groups[i := g][..last] == groups[..last][i := g];
      FlattenUpdate(groups[..last], i, g, extra);
    }
  }

  lemma FilesWithout(g: seq<File>, j: nat)
    requires j < |g|
    ensures multiset(g) == multiset(g[..j] + g[j+1..]) + multiset{g[j]}
  {
    assert g == g[..j] + [g[j]] + g[j+1..];
  }

  lemma {:induction false} WeightWithout(g: seq<File>, j: nat)
    requires j < |g|
    ensures Weight(g) == Weight(g[..j] + g[j+1..]) + g[j].size
  {
    var rest := g[..j] + g[j+1..];
    if j == |g| - 1 {
      assert rest == g[..|g|-1];
    } else {
      WeightWithout(g[..|g|-1], j);
      assert rest[..|rest|-1] == g[..|g|-1][..j] + g[..|g|-1][j+1..];
    }
  }

  /** Any sharding is some assignment of the files, bucket weights and all. */
  lemma {:induction false} AssignmentOf(files: seq<File>, groups: seq<seq<File>>) returns (a: seq<nat>)
    requires Flatten(groups) == multiset(files)
    ensures Assigns(a, |files|, |groups|)
    ensures forall i :: 0 <= i < |groups| ==> Load(Sizes(files), a, i) == Weight(groups[i])
  {
    if files == [] {
      a := [];
      forall i | 0 <= i < |groups| ensures groups[i] == [] {
        if groups[i] != [] {
          GroupInFlatten(groups, i, groups[i][0]);
        }
      }
    } else {
      var front, f := files[..|files|-1], files[|files|-1];
      var i, g := RemoveLastFile(files, groups);
      var b := AssignmentOf(front, groups[i := g]);
      a := b + [i];
      assert a[..|a|-1] == b && Sizes(files)[..|files|-1] == Sizes(front);
    }
  }

  lemma RemoveLastFile(files: seq<File>, groups: seq<seq<File>>) returns (i: nat, g: seq<File>)
    requires files != [] && Flatten(groups) == multiset(files)
    ensures i < |groups| && Weight(groups[i]) == Weight(g) + files[|files|-1].size
    ensures Flatten(groups[i := g]) == multiset(files[..|files|-1])
  {
    var front, f := files[..|files|-1], files[|files|-1];
    assert files == front + [f];
    var j: nat;
    i, j := FileInSomeGroup(groups, f);
    g := groups[i][..j] + groups[i][j+1..];
    WeightWithout(groups[i], j);
    FilesWithout(groups[i], j);
    FlattenUpdate(groups, i, g, f);
    Cancel(Flatten(groups[i := g]), multiset(front), f);
  }

  lemma Cancel(x: multiset<File>, y: multiset<File>, f: File)
    requires x + multiset{f} == y + multiset{f}
    ensures x == y
  {
    assert x == (x + multiset{f}) - multiset{f};
    assert y == (y + multiset{f}) - multiset{f};
  }

  lemma {:induction false} GroupInFlatten(groups: seq<seq<File>>, i: nat, f: File)
    requires i < |groups| && f in groups[i]
    ensures f in Flatten(groups)
  {
    if i < |groups| - 1 {
      GroupInFlatten(groups[..|groups|-1], i, f);
    }
  }

  // ---- the script ---------------------------------------------------------------------------

  /** The sort key (-size, path). */
  predicate SortsBefore(f: File, g: File) {
    f.size > g.size || (f.size == g.size && Text.Leq(f.path, g.path))
  }

  ghost predicate LongestToShortest(files: seq<File>) {
    forall i, j :: 0 <= i < j < |files| ==> files[i].size >= files[j].size
  }

  function Insert(f: File, files: seq<File>): (r: seq<File>)
    ensures |r| == |files| + 1
  {
    if files == [] then [f]
    else if SortsBefore(f, files[0]) then [f] + files
    else [files[0]] + Insert(f, files[1..])
  }

  lemma {:induction false} InsertAdds(f: File, files: seq<File>)
    ensures multiset(Insert(f, files)) == multiset(files) + multiset{f}
  {
    if files != [] && !SortsBefore(f, files[0]) {
      InsertAdds(f, files[1..]);
      assert files == [files[0]] + files[1..];
    }
  }

  lemma {:induction false} InsertSorts(f: File, files: seq<File>)
    requires LongestToShortest(files)
    ensures LongestToShortest(Insert(f, files))
  {
    if files != [] && !SortsBefore(f, files[0]) {
      InsertSorts(f, files[1..]);
      var rest := Insert(f, files[1..]);
      InsertAdds(f, files[1..]);
      forall i | 0 <= i < |rest| ensures rest[i].size <= files[0].size {
        assert rest[i] in multiset(rest);
      }
    }
  }

  function LongestFirst(files: seq<File>): (r: seq<File>)
    ensures |r| == |files|
  {
    if files == [] then [] else Insert(files[|files|-1], LongestFirst(files[..|files|-1]))
  }

  lemma {:induction false} LongestFirstKeeps(files: seq<File>)
    ensures multiset(LongestFirst(files)) == multiset(files)
  {
    if files != [] {
      LongestFirstKeeps(files[..|files|-1]);
      InsertAdds(files[|files|-1], LongestFirst(files[..|files|-1]));
      assert files == files[..|files|-1] + [files[|files|-1]];
    }
  }

  lemma {:induction false} LongestFirstSorts(files: seq<File>)
    ensures LongestToShortest(LongestFirst(files))
  {
    if files != [] {
      LongestFirstSorts(files[..|files|-1]);
      InsertSorts(files[|files|-1], LongestFirst(files[..|files|-1]));
    }
  }

  /** The index of the lightest bucket, the first one among equals. */
  method Lightest(buckets: seq<Bucket>) returns (index: nat)
    requires buckets != []
    ensures index < |buckets|
    ensures forall i :: 0 <= i < |buckets| ==> buckets[index].weight <= buckets[i].weight
    ensures forall i :: 0 <= i < index ==> buckets[index].weight < buckets[i].weight
  {
    index := 0;
    for i := 1 to |buckets|
      invariant index < i
      invariant forall j :: 0 <= j < i ==> buckets[index].weight <= buckets[j].weight
      invariant forall j :: 0 <= j < index ==> buckets[index].weight < buckets[j].weight
    {
      if buckets[i].weight < buckets[index].weight {
        index := i;
      }
    }
  }

  function Members(buckets: seq<Bucket>): seq<seq<File>> {
    seq(|buckets|, i requires 0 <= i < |buckets| => buckets[i].members)
  }

  /** What the loop knows after placing `files`: `a` is the greedy assignment it made. */
  ghost predicate Balanced(buckets: seq<Bucket>, files: seq<File>, a: seq<nat>, count: nat) {
    && |buckets| == count
    && Greedy(Sizes(files), a, count)
    && forall i | 0 <= i < count ::
         && buckets[i].weight == Weight(buckets[i].members) == Load(Sizes(files), a, i)
         && |buckets[i].members| == Count(a, i) && buckets[i].members == Group(files, a, i)
  }

  /** The files that the assignment gives to bucket i, in order. */
  function Group(files: seq<File>, a: seq<nat>, i: nat): seq<File>
    requires |a| == |files|
  {
    if files == [] then []
    else Group(files[..|files|-1], a[..|a|-1], i) + if a[|a|-1] == i then [files[|files|-1]] else []
  }

  lemma PlaceFile(buckets: seq<Bucket>, files: seq<File>, a: seq<nat>, count: nat, f: File, index: nat)
    requires Balanced(buckets, files, a, count) && index < count
    requires forall i :: 0 <= i < count ==> buckets[index].weight <= buckets[i].weight
    requires forall i :: 0 <= i < index ==> buckets[index].weight < buckets[i].weight
    ensures Balanced(
              buckets[index := Bucket(buckets[index].weight + f.size, buckets[index].members + [f])],
              files + [f], a + [index], count)
  {
    var after := buckets[index := Bucket(buckets[index].weight + f.size, buckets[index].members + [f])];
    var b := a + [index];
    PlaceIsGreedy(buckets, files, a, count, f, index);
    forall i | 0 <= i < count
      ensures after[i].weight == Weight(after[i].members) == Load(Sizes(files + [f]), b, i)
      ensures |after[i].members| == Count(b, i) && after[i].members == Group(files + [f], b, i)
    {
      PlaceInto(buckets[i], files, a, f, index, i);
    }
  }

  lemma PlaceIsGreedy(buckets: seq<Bucket>, files: seq<File>, a: seq<nat>, count: nat, f: File, index: nat)
    requires Balanced(buckets, files, a, count) && index < count
    requires forall i :: 0 <= i < count ==> buckets[index].weight <= buckets[i].weight
    requires forall i :: 0 <= i < index ==> buckets[index].weight < buckets[i].weight
    ensures Greedy(Sizes(files + [f]), a + [index], count)
  {
    var p, b := Sizes(files + [f]), a + [index];
    assert p[..|p|-1] == Sizes(files) && b[..|a|] == a;
    forall j | 0 <= j < |p| ensures PicksLeast(p, b, j, count) {
      if j < |a| {
        assert PicksLeast(Sizes(files), a, j, count);
        assert p[..j] == Sizes(files)[..j] && b[..j] == a[..j];
      }
    }
  }

  /** What placing one more file does to bucket i. */
  lemma PlaceInto(bucket: Bucket, files: seq<File>, a: seq<nat>, f: File, index: nat, i: nat)
    requires |a| == |files| && |bucket.members| == Count(a, i) && bucket.members == Group(files, a, i)
    requires bucket.weight == Weight(bucket.members) == Load(Sizes(files), a, i)
    ensures var b := a + [index];
            var members := if i == index then bucket.members + [f] else bucket.members;
            && Weight(members) == Load(Sizes(files + [f]), b, i) == bucket.weight + (if i == index then f.size else 0)
            && |members| == Count(b, i) && members == Group(files + [f], b, i)
  {
    var p, b := Sizes(files + [f]), a + [index];
    assert p[..|p|-1] == Sizes(files) && b[..|a|] == a;
    assert (bucket.members + [f])[..|bucket.members|] == bucket.members;
    assert (files + [f])[..|files|] == files;
    CountStep(b, i);
  }

  /** Placing a file loses none and duplicates none. */
  lemma PlaceKeepsFiles(groups: seq<seq<File>>, files: seq<File>, index: nat, f: File)
    requires IsSharding(groups, files, |groups|) && index < |groups|
    ensures IsSharding(groups[index := groups[index] + [f]], files + [f], |groups|)
  {
    var after := groups[index := groups[index] + [f]];
    FlattenUpdate(after, index, groups[index], f);
    assert after[index := groups[index]] == groups;
  }

  /** The fullest shard is at most 4/3 - 1/(3 * count) times the fullest group of any sharding. */
  ghost predicate NearOptimal(shards: seq<seq<File>>, files: seq<File>, count: nat) {
    forall groups, opt | IsSharding(groups, files, count) && AllWithin(groups, opt) ::
      WithinRatio(shards, count, opt)
  }

  ghost predicate WithinRatio(shards: seq<seq<File>>, count: nat, opt: nat) {
    forall i :: 0 <= i < |shards| ==> 3 * count * Weight(shards[i]) <= (4 * count - 1) * opt
  }

  /** Fullest and emptiest differ by at most one file's size, the largest. */
  ghost predicate Even(shards: seq<seq<File>>, gap: nat) {
    forall i, j :: 0 <= i < |shards| && 0 <= j < |shards| ==> Weight(shards[i]) <= Weight(shards[j]) + gap
  }

  ghost predicate AllUsed(shards: seq<seq<File>>) {
    forall i :: 0 <= i < |shards| ==> shards[i] != []
  }

  lemma BalancedGuarantees(buckets: seq<Bucket>, files: seq<File>, a: seq<nat>, count: nat)
    requires 1 <= count <= |files| && Balanced(buckets, LongestFirst(files), a, count)
    ensures NearOptimal(Members(buckets), files, count)
    ensures Even(Members(buckets), LongestFirst(files)[0].size)
    ensures AllUsed(Members(buckets)) <==> count == 1 || LongestFirst(files)[count-2].size > 0
  {
    LongestFirstSorts(files);
    LongestFirstKeeps(files);
    BalancedIsNearOptimal(buckets, files, LongestFirst(files), a, count);
    BalancedIsEven(buckets, LongestFirst(files), a, count);
  }

  lemma BalancedIsNearOptimal(buckets: seq<Bucket>, files: seq<File>, sorted: seq<File>, a: seq<nat>, count: nat)
    requires count > 0 && Balanced(buckets, sorted, a, count)
    requires LongestToShortest(sorted) && multiset(sorted) == multiset(files)
    ensures NearOptimal(Members(buckets), files, count)
  {
    var p, shards := Sizes(sorted), Members(buckets);
    assert p[..|p|] == p;
    forall groups, opt | IsSharding(groups, files, count) && AllWithin(groups, opt)
      ensures WithinRatio(shards, count, opt)
    {
      var other := AssignmentOf(sorted, groups);
      GreedyBound(p, |p|, a, other, count, opt);
    }
  }

  lemma BalancedIsEven(buckets: seq<Bucket>, sorted: seq<File>, a: seq<nat>, count: nat)
    requires 1 <= count <= |sorted| && Balanced(buckets, sorted, a, count) && LongestToShortest(sorted)
    ensures Even(Members(buckets), sorted[0].size)
    ensures AllUsed(Members(buckets)) <==> (count == 1 || sorted[count-2].size > 0)
  {
    var p, shards := Sizes(sorted), Members(buckets);
    forall i, j | 0 <= i < count && 0 <= j < count
      ensures Weight(shards[i]) <= Weight(shards[j]) + sorted[0].size
    {
      GreedyGap(p, a, count, i, j);
    }
    EveryShardUsed(p, a, count);
    assert forall i :: 0 <= i < count ==> (shards[i] != [] <==> Count(a, i) >= 1);
  }

  /** Puts each file in turn into the lightest bucket. */
  method Distribute(sorted: seq<File>, count: nat) returns (buckets: seq<Bucket>, ghost a: seq<nat>)
    requires count > 0
    ensures Balanced(buckets, sorted, a, count)
    ensures IsSharding(Members(buckets), sorted, count)
  {
    hide Balanced, IsSharding;
    buckets := seq(count, _ => Bucket(0, []));
    a := [];
    NothingPlaced(buckets);
    assert sorted[..0] == [];
    for k := 0 to |sorted|
      invariant |buckets| == count
      invariant Balanced(buckets, sorted[..k], a, count)
      invariant IsSharding(Members(buckets), sorted[..k], count)
    {
      var index := Lightest(buckets);
      var path := sorted[k];
      var bucket := buckets[index];
      PlaceFile(buckets, sorted[..k], a, count, path, index);
      PlaceKeepsFiles(Members(buckets), sorted[..k], index, path);
      assert sorted[..k] + [path] == sorted[..k+1];
      ghost var groups := Members(buckets)[index := bucket.members + [path]];
      buckets := buckets[index := Bucket(bucket.weight + path.size, bucket.members + [path])];
      assert Members(buckets) == groups;
      a := a + [index];
    }
    assert sorted[..|sorted|] == sorted;
  }

  /** Every file lands in exactly one shard; the shards are near optimal and even; and every shard
      gets a file exactly when the count-1 largest files all have a size. */
  method Shards(files: seq<File>, count: nat) returns (r: Result<seq<seq<File>>>)
    ensures r.Ok? <==> 1 <= count <= |files|
    ensures r.Ok? ==> exists a :: IsPlacement(r.value, LongestFirst(files), a, count)
    ensures r.Ok? ==>
              && IsSharding(r.value, files, count)
              && NearOptimal(r.value, files, count)
              && Even(r.value, LongestFirst(files)[0].size)
              && (AllUsed(r.value) <==> count == 1 || LongestFirst(files)[count-2].size > 0)
  {
    if count < 1 {
      return ValueError;
    }
    var sorted := LongestFirst(files);
    if count > |sorted| {
      return ValueError;
    }
    var buckets, a := Distribute(sorted, count);
    LongestFirstKeeps(files);
    BalancedGuarantees(buckets, files, a, count);
    assert IsPlacement(Members(buckets), sorted, a, count);
    return Ok(Members(buckets));
  }

  // ---- every runner computes the same shards ------------------------------------------------

  /** The shards are what the greedy assignment makes of the files in order. */
  ghost predicate IsPlacement(shards: seq<seq<File>>, sorted: seq<File>, a: seq<nat>, count: nat) {
    && Greedy(Sizes(sorted), a, count) && |shards| == count
    && forall i: nat | i < count :: shards[i] == Group(sorted, a, i)
  }

  lemma LeastIsUnique(p: seq<nat>, a: seq<nat>, b: seq<nat>, j: nat, count: nat)
    requires |p| == |a| == |b| && j < |p| && a[..j] == b[..j] && a[j] < count && b[j] < count
    requires PicksLeast(p, a, j, count) && PicksLeast(p, b, j, count)
    ensures a[j] == b[j]
  {
    var x, y := Load(p[..j], a[..j], a[j]), Load(p[..j], b[..j], b[j]);
    assert x <= y && y <= x;
  }

  lemma {:induction false} GreedyIsUnique(p: seq<nat>, a: seq<nat>, b: seq<nat>, count: nat)
    requires Greedy(p, a, count) && Greedy(p, b, count)
    ensures a == b
  {
    if p != [] {
      var n := |p| - 1;
      GreedyPrefix(p, a, n, count);
      GreedyPrefix(p, b, n, count);
      GreedyIsUnique(p[..n], a[..n], b[..n], count);
      LeastIsUnique(p, a, b, n, count);
      assert a == a[..n] + [a[n]] && b == b[..n] + [b[n]];
    }
  }

  /** Each file sorts before all later ones. */
  ghost predicate SortedFiles(files: seq<File>) {
    forall i, j :: 0 <= i < j < |files| ==> SortsBefore(files[i], files[j])
  }

  lemma BeforeOrAfter(f: File, g: File)
    ensures SortsBefore(f, g) || SortsBefore(g, f)
    ensures SortsBefore(f, g) && SortsBefore(g, f) ==> f == g
  {
    Text.LeqTotal(f.path, g.path);
    if SortsBefore(f, g) && SortsBefore(g, f) {
      Text.LeqAntisymmetric(f.path, g.path);
    }
  }

  lemma BeforeTransitive(f: File, g: File, h: File)
    requires SortsBefore(f, g) && SortsBefore(g, h)
    ensures SortsBefore(f, h)
  {
    if f.size == g.size == h.size {
      Text.LeqTransitive(f.path, g.path, h.path);
    }
  }

  lemma {:induction false} InsertKeepsSorted(f: File, files: seq<File>)
    requires SortedFiles(files)
    ensures SortedFiles(Insert(f, files))
  {
    if files == [] {
    } else if SortsBefore(f, files[0]) {
      forall j | 0 <= j < |files| ensures SortsBefore(f, files[j]) {
        if j > 0 {
          BeforeTransitive(f, files[0], files[j]);
        }
      }
    } else {
      BeforeOrAfter(f, files[0]);
      InsertKeepsSorted(f, files[1..]);
      var rest := Insert(f, files[1..]);
      InsertAdds(f, files[1..]);
      forall j | 0 <= j < |rest| ensures SortsBefore(files[0], rest[j]) {
        assert rest[j] in multiset(rest);
        assert rest[j] == f || rest[j] in files[1..];
      }
    }
  }

  lemma {:induction false} LongestFirstIsSorted(files: seq<File>)
    ensures SortedFiles(LongestFirst(files))
  {
    if files != [] {
      LongestFirstIsSorted(files[..|files|-1]);
      InsertKeepsSorted(files[|files|-1], LongestFirst(files[..|files|-1]));
    }
  }

  /** There is one sorted listing of given files. */
  lemma {:induction false} SortedIsUnique(xs: seq<File>, ys: seq<File>)
    requires SortedFiles(xs) && SortedFiles(ys) && multiset(xs) == multiset(ys)
    ensures xs == ys
  {
    assert |xs| == |multiset(xs)| == |multiset(ys)| == |ys|;
    if xs != [] {
      SameFirst(xs, ys);
      SameRest(xs, ys);
      SortedIsUnique(xs[1..], ys[1..]);
      assert xs == [xs[0]] + xs[1..] && ys == [ys[0]] + ys[1..];
    }
  }

  lemma SameFirst(xs: seq<File>, ys: seq<File>)
    requires xs != [] && ys != [] && SortedFiles(xs) && SortedFiles(ys) && multiset(xs) == multiset(ys)
    ensures xs[0] == ys[0]
  {
    assert xs[0] in multiset(ys) && ys[0] in multiset(xs);
    var i :| 0 <= i < |ys| && ys[i] == xs[0];
    var j :| 0 <= j < |xs| && xs[j] == ys[0];
    if i > 0 && j > 0 {
      assert SortsBefore(xs[0], xs[j]) && SortsBefore(ys[0], ys[i]);
      BeforeOrAfter(xs[0], ys[0]);
    }
  }

  lemma SameRest(xs: seq<File>, ys: seq<File>)
    requires xs != [] && ys != [] && xs[0] == ys[0] && multiset(xs) == multiset(ys)
    ensures multiset(xs[1..]) == multiset(ys[1..])
  {
    assert xs == [xs[0]] + xs[1..] && ys == [ys[0]] + ys[1..];
    assert multiset(xs[1..]) == multiset(xs) - multiset{xs[0]};
    assert multiset(ys[1..]) == multiset(ys) - multiset{ys[0]};
  }

  /** The shards do not depend on the order in which the files are listed: any two runs over the same files
      agree on every shard and on the order within it. */
  lemma SameForEveryListing(files: seq<File>, listing: seq<File>, count: nat, shards: seq<seq<File>>,
                            again: seq<seq<File>>, a: seq<nat>, b: seq<nat>)
    requires multiset(files) == multiset(listing)
    requires IsPlacement(shards, LongestFirst(files), a, count) && IsPlacement(again, LongestFirst(listing), b, count)
    ensures shards == again
  {
    LongestFirstKeeps(files);
    LongestFirstKeeps(listing);
    LongestFirstIsSorted(files);
    LongestFirstIsSorted(listing);
    SortedIsUnique(LongestFirst(files), LongestFirst(listing));
    GreedyIsUnique(Sizes(LongestFirst(files)), a, b, count);
  }

  lemma NothingPlaced(buckets: seq<Bucket>)
    requires forall i :: 0 <= i < |buckets| ==> buckets[i] == Bucket(0, [])
    ensures Balanced(buckets, [], [], |buckets|) && IsSharding(Members(buckets), [], |buckets|)
  {
    EmptyBuckets(Members(buckets));
  }

  lemma {:induction false} EmptyBuckets(groups: seq<seq<File>>)
    requires forall i :: 0 <= i < |groups| ==> groups[i] == []
    ensures Flatten(groups) == multiset{}
  {
    if groups != [] {
      EmptyBuckets(groups[..|groups|-1]);
    }
  }
}
