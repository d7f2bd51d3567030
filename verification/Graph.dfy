/** The task graph: Kahn's order with exact cycle detection, the critical path, and layering. */
module Graph {
  import Text

  datatype Task = Task(dependsOn: seq<string>, terminal: bool, discoveredFrom: string)

  datatype Result<+T> = Ok(value: T) | GraphError(stuck: set<string>)

  type Tasks = map<string, Task>

  /** A dependency that names a task; unknown ones are ignored. */
  predicate DependsOn(tasks: Tasks, t: string, d: string) {
    t in tasks && d in tasks && d in tasks[t].dependsOn
  }

  // ---- walks and cycles ---------------------------------------------------------------------

  ghost predicate StepDown(tasks: Tasks, p: seq<string>, i: nat) {
    i + 1 < |p| && DependsOn(tasks, p[i], p[i+1])
  }

  /** Each task of the walk depends on the next one. */
  ghost predicate Walk(tasks: Tasks, p: seq<string>) {
    && (forall i :: 0 <= i < |p| ==> p[i] in tasks)
    && (forall i {:trigger StepDown(tasks, p, i)} :: 0 <= i < |p| - 1 ==> StepDown(tasks, p, i))
  }

  ghost predicate Repeats(p: seq<string>) {
    exists i, j :: 0 <= i < j < |p| && p[i] == p[j]
  }

  /** Following dependencies from t can come back to a task already passed. */
  ghost predicate ReachesCycle(tasks: Tasks, t: string) {
    exists p :: Walk(tasks, p) && p != [] && p[0] == t && Repeats(p)
  }

  /** A walk of dependencies that returns to where it started. */
  ghost predicate Loop(tasks: Tasks, p: seq<string>) {
    Walk(tasks, p) && |p| >= 2 && p[0] == p[|p|-1]
  }

  ghost predicate Cyclic(tasks: Tasks) { exists p :: Loop(tasks, p) }

  lemma CyclicMeansReached(tasks: Tasks)
    ensures Cyclic(tasks) <==> exists t :: t in tasks && ReachesCycle(tasks, t)
  {
    if Cyclic(tasks) {
      var p :| Loop(tasks, p);
      assert Repeats(p);
      assert ReachesCycle(tasks, p[0]);
    }
    if t :| t in tasks && ReachesCycle(tasks, t) {
      var p :| Walk(tasks, p) && p != [] && p[0] == t && Repeats(p);
      var i, j :| 0 <= i < j < |p| && p[i] == p[j];
      RepeatIsCycle(tasks, p, i, j);
    }
  }

  lemma WalkSlice(tasks: Tasks, p: seq<string>, i: nat, j: nat)
    requires Walk(tasks, p) && i <= j <= |p|
    ensures Walk(tasks, p[i..j])
  {
    forall k {:trigger StepDown(tasks, p[i..j], k)} | 0 <= k < j - i - 1 ensures StepDown(tasks, p[i..j], k) {
      assert StepDown(tasks, p, i + k);
    }
  }

  lemma RepeatIsCycle(tasks: Tasks, p: seq<string>, i: nat, j: nat)
    requires Walk(tasks, p) && i < j < |p| && p[i] == p[j]
    ensures Cyclic(tasks)
  {
    WalkSlice(tasks, p, i, j + 1);
    hide Walk;
    assert Loop(tasks, p[i..j+1]);
  }

  /** A sequence longer than its set of elements repeats one. */
  lemma {:induction false} Pigeonhole(p: seq<string>, s: set<string>)
    requires |p| > |s| && forall i :: 0 <= i < |p| ==> p[i] in s
    ensures Repeats(p)
  {
    var last := p[|p|-1];
    if i :| 0 <= i < |p| - 1 && p[i] == last {
    } else {
      Pigeonhole(p[..|p|-1], s - {last});
      var i, j :| 0 <= i < j < |p| - 1 && p[..|p|-1][i] == p[..|p|-1][j];
      assert p[i] == p[j];
    }
  }

  ghost predicate DependsWithin(tasks: Tasks, stuck: set<string>, x: string) {
    x in tasks && exists d :: d in stuck && DependsOn(tasks, x, d)
  }

  /** Where every task has a dependency among `stuck`, walks of any length stay there. */
  lemma {:induction false} EndlessWalk(tasks: Tasks, stuck: set<string>, t: string, n: nat) returns (p: seq<string>)
    requires forall x {:trigger DependsWithin(tasks, stuck, x)} :: x in stuck ==> DependsWithin(tasks, stuck, x)
    requires t in stuck
    ensures |p| == n + 1 && p[0] == t && Walk(tasks, p)
    ensures forall i :: 0 <= i < |p| ==> p[i] in stuck
    decreases n
  {
    assert DependsWithin(tasks, stuck, t);
    if n == 0 {
      p := [t];
    } else {
      var d :| d in stuck && DependsOn(tasks, t, d);
      var rest := EndlessWalk(tasks, stuck, d, n - 1);
      p := [t] + rest;
      forall i | 0 <= i < |p| - 1 ensures StepDown(tasks, p, i) {
        assert i > 0 ==> StepDown(tasks, rest, i - 1);
      }
    }
  }

  // ---- orders -------------------------------------------------------------------------------

  ghost predicate Distinct(xs: seq<string>) {
    forall i, j :: 0 <= i < j < |xs| ==> xs[i] != xs[j]
  }

  /** Every known dependency stands before the task that needs it. */
  ghost predicate DependenciesFirst(tasks: Tasks, order: seq<string>) {
    forall i, d :: 0 <= i < |order| && DependsOn(tasks, order[i], d) ==> d in order[..i]
  }

  lemma {:induction false} WalkGoesDown(tasks: Tasks, order: seq<string>, p: seq<string>, at: nat, j: nat)
    returns (k: nat)
    requires DependenciesFirst(tasks, order) && Walk(tasks, p) && j < |p|
    requires at < |order| && order[at] == p[0]
    ensures k < |order| && order[k] == p[j] && k + j <= at
  {
    k := at;
    if j > 0 {
      assert StepDown(tasks, p, 0);
      WalkSlice(tasks, p, 1, |p|);
      assert p[1..|p|] == p[1..];
      assert p[1] in order[..at];
      var next :| 0 <= next < at && order[next] == p[1];
      k := WalkGoesDown(tasks, order, p[1..], next, j - 1);
    }
  }

  /** An ordered task reaches no cycle. */
  lemma OrderedReachesNoCycle(tasks: Tasks, order: seq<string>, t: string)
    requires Distinct(order) && DependenciesFirst(tasks, order) && t in order
    ensures !ReachesCycle(tasks, t)
  {
    if ReachesCycle(tasks, t) {
      var p :| Walk(tasks, p) && p != [] && p[0] == t && Repeats(p);
      var i, j :| 0 <= i < j < |p| && p[i] == p[j];
      var at :| 0 <= at < |order| && order[at] == t;
      var x := WalkGoesDown(tasks, order, p, at, i);
      WalkSlice(tasks, p, i, |p|);
      assert p[i..|p|] == p[i..];
      var y := WalkGoesDown(tasks, order, p[i..], x, j - i);
      assert false;
    }
  }

  // ---- counting dependencies ----------------------------------------------------------------

  function Times(xs: seq<string>, x: string): nat {
    if xs == [] then 0 else Times(xs[..|xs|-1], x) + (if xs[|xs|-1] == x then 1 else 0)
  }

  /** How many entries of `deps` name a task that is not yet in `done`. */
  function Pending(deps: seq<string>, known: set<string>, done: set<string>): nat {
    if deps == [] then 0
    else Pending(deps[..|deps|-1], known, done) +
         (if deps[|deps|-1] in known && deps[|deps|-1] !in done then 1 else 0)
  }

  lemma {:induction false} PendingDrops(deps: seq<string>, known: set<string>, done: set<string>, x: string)
    requires x in known && x !in done
    ensures Pending(deps, known, done) == Pending(deps, known, done + {x}) + Times(deps, x)
  {
    if deps != [] {
      PendingDrops(deps[..|deps|-1], known, done, x);
    }
  }

  lemma {:induction false} PendingNone(deps: seq<string>, known: set<string>, done: set<string>)
    ensures Pending(deps, known, done) == 0 <==> forall d :: d in deps && d in known ==> d in done
  {
    if deps != [] {
      PendingNone(deps[..|deps|-1], known, done);
      assert deps == deps[..|deps|-1] + [deps[|deps|-1]];
    }
  }

  lemma {:induction false} TimesConcat(xs: seq<string>, ys: seq<string>, x: string)
    ensures Times(xs + ys, x) == Times(xs, x) + Times(ys, x)
  {
    if ys == [] {
      assert xs + ys == xs;
    } else {
      assert (xs + ys)[..|xs + ys|-1] == xs + ys[..|ys|-1];
      TimesConcat(xs, ys[..|ys|-1], x);
    }
  }

  // ---- sorting ids --------------------------------------------------------------------------

  function InsertId(x: string, xs: seq<string>): seq<string> {
    if xs == [] || Text.Leq(x, xs[0]) then [x] + xs else [xs[0]] + InsertId(x, xs[1..])
  }

  function SortedIds(xs: seq<string>): seq<string> {
    if xs == [] then [] else InsertId(xs[0], SortedIds(xs[1..]))
  }

  lemma {:induction false} InsertIdTimes(x: string, xs: seq<string>, y: string)
    ensures Times(InsertId(x, xs), y) == Times(xs, y) + (if x == y then 1 else 0)
  {
    if xs == [] || Text.Leq(x, xs[0]) {
      TimesConcat([x], xs, y);
    } else {
      InsertIdTimes(x, xs[1..], y);
      TimesConcat([xs[0]], InsertId(x, xs[1..]), y);
      TimesConcat([xs[0]], xs[1..], y);
      assert [xs[0]] + xs[1..] == xs;
    }
  }

  lemma {:induction false} SortedIdsTimes(xs: seq<string>, y: string)
    ensures Times(SortedIds(xs), y) == Times(xs, y)
  {
    if xs != [] {
      SortedIdsTimes(xs[1..], y);
      InsertIdTimes(xs[0], SortedIds(xs[1..]), y);
      TimesConcat([xs[0]], xs[1..], y);
      assert [xs[0]] + xs[1..] == xs;
    }
  }

  /** In the order of ids, repeats allowed. */
  ghost predicate Ascending(xs: seq<string>) {
    forall i, j :: 0 <= i < j < |xs| ==> Text.Leq(xs[i], xs[j])
  }

  lemma {:induction false} InsertIdAscends(x: string, xs: seq<string>)
    requires Ascending(xs)
    ensures Ascending(InsertId(x, xs))
    ensures forall y :: y in InsertId(x, xs) ==> y == x || y in xs
  {
    if xs == [] {
    } else if Text.Leq(x, xs[0]) {
      forall j | 0 <= j < |xs| ensures Text.Leq(x, xs[j]) {
        if j > 0 {
          Text.LeqTransitive(x, xs[0], xs[j]);
        }
      }
    } else {
      Text.LeqTotal(x, xs[0]);
      InsertIdAscends(x, xs[1..]);
      var rest := InsertId(x, xs[1..]);
      forall j | 0 <= j < |rest| ensures Text.Leq(xs[0], rest[j]) {
        assert rest[j] in rest;
      }
    }
  }

  lemma {:induction false} SortedIdsAscend(xs: seq<string>)
    ensures Ascending(SortedIds(xs))
  {
    if xs != [] {
      SortedIdsAscend(xs[1..]);
      InsertIdAscends(xs[0], SortedIds(xs[1..]));
    }
  }

  lemma {:induction false} TimesMember(xs: seq<string>, x: string)
    ensures Times(xs, x) > 0 <==> x in xs
  {
    if xs != [] {
      TimesMember(xs[..|xs|-1], x);
      assert xs == xs[..|xs|-1] + [xs[|xs|-1]];
    }
  }

  // ---- Kahn's algorithm ---------------------------------------------------------------------

  ghost predicate Counted(tasks: Tasks, indeg: map<string, nat>, done: set<string>) {
    indeg.Keys == tasks.Keys && forall t :: t in tasks ==> indeg[t] == Pending(tasks[t].dependsOn, tasks.Keys, done)
  }

  /** children[d] lists t as often as the entries `deps[t]` list d, and nothing else. */
  ghost predicate Mirrors(children: map<string, seq<string>>, deps: map<string, seq<string>>) {
    && children.Keys == deps.Keys
    && (forall d, t {:trigger Times(children[d], t)} :: d in children ==>
          Times(children[d], t) == if t in deps then Times(deps[t], d) else 0)
  }

  ghost function Dependencies(tasks: Tasks): map<string, seq<string>> { map t | t in tasks :: tasks[t].dependsOn }

  lemma TimesAppend(xs: seq<string>, y: string, x: string)
    ensures Times(xs + [y], x) == Times(xs, x) + (if x == y then 1 else 0)
  {
    assert (xs + [y])[..|xs|] == xs;
  }

  lemma MirrorOne(children: map<string, seq<string>>, deps: map<string, seq<string>>, t: string, d: string)
    requires Mirrors(children, deps) && t in deps && d in deps
    ensures Mirrors(children[d := children[d] + [t]], deps[t := deps[t] + [d]])
  {
    var c, e := children[d := children[d] + [t]], deps[t := deps[t] + [d]];
    forall x, y | x in c ensures Times(c[x], y) == if y in e then Times(e[y], x) else 0 {
      TimesAppend(children[d], t, y);
      TimesAppend(deps[t], d, x);
      assert Times(children[x], y) == if y in deps then Times(deps[y], x) else 0;
    }
  }

  lemma MirrorUnknown(children: map<string, seq<string>>, deps: map<string, seq<string>>, t: string, d: string)
    requires Mirrors(children, deps) && t in deps && d !in deps
    ensures Mirrors(children, deps[t := deps[t] + [d]])
  {
    var e := deps[t := deps[t] + [d]];
    forall x, y | x in children ensures Times(children[x], y) == if y in e then Times(e[y], x) else 0 {
      TimesAppend(deps[t], d, x);
      assert Times(children[x], y) == if y in deps then Times(deps[y], x) else 0;
    }
  }

  ghost predicate DegreesOf(indeg: map<string, nat>, deps: map<string, seq<string>>) {
    indeg.Keys == deps.Keys && forall t :: t in deps ==> indeg[t] == Pending(deps[t], deps.Keys, {})
  }

  lemma DegreeOne(indeg: map<string, nat>, deps: map<string, seq<string>>, t: string, d: string)
    requires DegreesOf(indeg, deps) && t in deps
    ensures DegreesOf(if d in deps then indeg[t := indeg[t] + 1] else indeg, deps[t := deps[t] + [d]])
  {
    assert (deps[t] + [d])[..|deps[t]|] == deps[t];
    assert deps[t := deps[t] + [d]].Keys == deps.Keys;
  }

  lemma CountOne(indeg: map<string, nat>, children: map<string, seq<string>>, before: map<string, seq<string>>,
                 t: string, deps: seq<string>, i: nat)
    requires t in before && i < |deps|
    requires DegreesOf(indeg, before[t := deps[..i]]) && Mirrors(children, before[t := deps[..i]])
    ensures t in indeg && (deps[i] in before ==> deps[i] in children)
    ensures DegreesOf(if deps[i] in before then indeg[t := indeg[t] + 1] else indeg, before[t := deps[..i+1]])
    ensures Mirrors(if deps[i] in before then children[deps[i] := children[deps[i]] + [t]] else children,
                    before[t := deps[..i+1]])
  {
    var seen := before[t := deps[..i]];
    assert deps[..i] + [deps[i]] == deps[..i+1];
    assert before[t := deps[..i+1]] == seen[t := seen[t] + [deps[i]]];
    DegreeOne(indeg, seen, t, deps[i]);
    if deps[i] in before {
      MirrorOne(children, seen, t, deps[i]);
    } else {
      MirrorUnknown(children, seen, t, deps[i]);
    }
  }

  /** Reads every dependency list once. */
  method CountDependencies(tasks: Tasks) returns (indeg: map<string, nat>, children: map<string, seq<string>>)
    ensures Counted(tasks, indeg, {}) && Mirrors(children, Dependencies(tasks))
  {
    indeg := map t | t in tasks :: 0;
    children := map t | t in tasks :: [];
    var todo := tasks.Keys;
    while todo != {}
      invariant todo <= tasks.Keys
      invariant DegreesOf(indeg, ReadSoFar(tasks, todo)) && Mirrors(children, ReadSoFar(tasks, todo))
    {
      var t :| t in todo;
      indeg, children := CountTask(tasks, t, indeg, children, ReadSoFar(tasks, todo));
      ReadOne(tasks, todo, t);
      todo := todo - {t};
    }
    ReadAll(tasks, indeg, children);
  }

  lemma ReadOne(tasks: Tasks, todo: set<string>, t: string)
    requires t in todo && t in tasks
    ensures ReadSoFar(tasks, todo - {t}) == ReadSoFar(tasks, todo)[t := tasks[t].dependsOn]
  {
  }

  lemma ReadAll(tasks: Tasks, indeg: map<string, nat>, children: map<string, seq<string>>)
    requires DegreesOf(indeg, ReadSoFar(tasks, {})) && Mirrors(children, ReadSoFar(tasks, {}))
    ensures Counted(tasks, indeg, {}) && Mirrors(children, Dependencies(tasks))
  {
    assert ReadSoFar(tasks, {}) == Dependencies(tasks);
    assert Dependencies(tasks).Keys == tasks.Keys;
  }

  ghost function ReadSoFar(tasks: Tasks, todo: set<string>): map<string, seq<string>> {
    map t | t in tasks :: if t in todo then [] else tasks[t].dependsOn
  }

  method CountTask(tasks: Tasks, t: string, indeg0: map<string, nat>, children0: map<string, seq<string>>,
                   ghost before: map<string, seq<string>>)
    returns (indeg: map<string, nat>, children: map<string, seq<string>>)
    requires DegreesOf(indeg0, before) && Mirrors(children0, before)
    requires t in tasks && tasks.Keys == before.Keys && before[t] == []
    ensures DegreesOf(indeg, before[t := tasks[t].dependsOn])
    ensures Mirrors(children, before[t := tasks[t].dependsOn])
  {
    indeg, children := indeg0, children0;
    var deps := tasks[t].dependsOn;
    assert before == before[t := deps[..0]];
    for i := 0 to |deps|
      invariant DegreesOf(indeg, before[t := deps[..i]])
      invariant Mirrors(children, before[t := deps[..i]])
    {
      var d := deps[i];
      CountOne(indeg, children, before, t, deps, i);
      if d in tasks {
        indeg := indeg[t := indeg[t] + 1];
        children := children[d := children[d] + [t]];
      }
    }
    assert deps[..|deps|] == deps;
  }

  /** What Kahn's loop keeps: `order` is done, `queue` is ready, the rest still waits. */
  ghost predicate Kahn(tasks: Tasks, indeg: map<string, nat>, order: seq<string>, queue: seq<string>) {
    && Counted(tasks, indeg, Elements(order))
    && Distinct(order + queue)
    && DependenciesFirst(tasks, order)
    && (forall t :: t in order + queue <==> t in tasks && indeg[t] == 0)
  }

  function Elements(xs: seq<string>): set<string> { set x | x in xs }

  method InitialQueue(tasks: Tasks, indeg: map<string, nat>) returns (queue: seq<string>)
    requires Counted(tasks, indeg, {})
    ensures Kahn(tasks, indeg, [], queue) && Ascending(queue)
  {
    var free: seq<string> := [];
    var todo := tasks.Keys;
    while todo != {}
      invariant todo <= tasks.Keys
      invariant forall t :: t in tasks ==> Times(free, t) == if t !in todo && indeg[t] == 0 then 1 else 0
      invariant forall t :: t in free ==> t in tasks
    {
      var t :| t in todo;
      if indeg[t] == 0 {
        var longer := free + [t];
        assert longer[..|longer|-1] == free;
        free := longer;
      }
      todo := todo - {t};
    }
    queue := SortedIds(free);
    SortedIdsAscend(free);
    forall t ensures Times(queue, t) <= 1 && (t in queue <==> t in tasks && indeg[t] == 0) {
      SortedIdsTimes(free, t);
      TimesMember(free, t);
      TimesMember(queue, t);
    }
    OnceEachIsDistinct(queue);
    assert [] + queue == queue && Elements([]) == {};
  }

  lemma {:induction false} OnceEachIsDistinct(xs: seq<string>)
    requires forall x :: Times(xs, x) <= 1
    ensures Distinct(xs)
  {
    if xs != [] {
      var front := xs[..|xs|-1];
      forall x ensures Times(front, x) <= 1 {
        assert Times(xs, x) <= 1;
      }
      OnceEachIsDistinct(front);
      assert Times(xs, xs[|xs|-1]) <= 1;
      TimesMember(front, xs[|xs|-1]);
    }
  }

  /** Part of the finished task's children are read: counts have dropped, and what reached zero is ready. */
  ghost predicate Settling(tasks: Tasks, indeg: map<string, nat>, done: set<string>, ready: seq<string>,
                           seen: seq<string>) {
    && indeg.Keys == tasks.Keys
    && (forall t :: t in tasks ==> indeg[t] + Times(seen, t) == Pending(tasks[t].dependsOn, tasks.Keys, done))
    && Distinct(ready)
    && (forall t :: t in ready <==> t in tasks && indeg[t] == 0)
  }

  lemma SettleOne(tasks: Tasks, indeg: map<string, nat>, done: set<string>, ready: seq<string>,
                  seen: seq<string>, c: string, after: seq<string>)
    requires Settling(tasks, indeg, done, ready, seen) && after == seen + [c]
    requires c in tasks && indeg[c] > 0
    ensures var next := indeg[c := indeg[c] - 1];
            Settling(tasks, next, done, if next[c] == 0 then ready + [c] else ready, after)
  {
    var next := indeg[c := indeg[c] - 1];
    assert c !in ready;
    forall t | t in tasks ensures next[t] + Times(after, t) == Pending(tasks[t].dependsOn, tasks.Keys, done) {
      TimesAppend(seen, c, t);
    }
  }

  /** The sorted children of tid list each task as often as that task lists tid. */
  ghost predicate Listed(tasks: Tasks, tid: string, cs: seq<string>) {
    forall t {:trigger Times(cs, t)} :: Times(cs, t) == if t in tasks then Times(tasks[t].dependsOn, tid) else 0
  }

  lemma ChildrenListed(tasks: Tasks, children: map<string, seq<string>>, tid: string)
    requires Mirrors(children, Dependencies(tasks)) && tid in tasks
    ensures Listed(tasks, tid, SortedIds(children[tid]))
  {
    forall t ensures Times(SortedIds(children[tid]), t) == if t in tasks then Times(tasks[t].dependsOn, tid) else 0 {
      SortedIdsTimes(children[tid], t);
    }
  }

  lemma StartSettling(tasks: Tasks, indeg: map<string, nat>, order: seq<string>, queue: seq<string>)
    requires Kahn(tasks, indeg, order, queue) && queue != []
    ensures Settling(tasks, indeg, Elements(order), order + [queue[0]] + queue[1..], [])
    ensures queue[0] in tasks && queue[0] !in order
    ensures Pending(tasks[queue[0]].dependsOn, tasks.Keys, Elements(order)) == 0
  {
    assert order + [queue[0]] + queue[1..] == order + queue;
    assert (order + queue)[|order|] == queue[0];
    assert queue[0] in order + queue;
    forall k | 0 <= k < |order| ensures order[k] != queue[0] {
      assert (order + queue)[k] == order[k];
    }
  }

  lemma NotYetSettled(tasks: Tasks, indeg: map<string, nat>, done: set<string>, ready: seq<string>,
                      tid: string, cs: seq<string>, i: nat)
    requires i < |cs| && Settling(tasks, indeg, done, ready, cs[..i]) && Listed(tasks, tid, cs)
    requires tid in tasks && tid !in done
    ensures cs[i] in tasks && indeg[cs[i]] > 0
  {
    var c := cs[i];
    TimesPrefix(cs, i, c);
    assert Times(cs, c) > 0;
    PendingDrops(tasks[c].dependsOn, tasks.Keys, done, tid);
  }

  lemma SettleNext(tasks: Tasks, indeg: map<string, nat>, done: set<string>, ready: seq<string>,
                   tid: string, cs: seq<string>, i: nat)
    requires i < |cs| && Settling(tasks, indeg, done, ready, cs[..i]) && Listed(tasks, tid, cs)
    requires tid in tasks && tid !in done
    ensures cs[i] in indeg && indeg[cs[i]] > 0
    ensures var next := indeg[cs[i] := indeg[cs[i]] - 1];
            Settling(tasks, next, done, if next[cs[i]] == 0 then ready + [cs[i]] else ready, cs[..i+1])
  {
    NotYetSettled(tasks, indeg, done, ready, tid, cs, i);
    SettleOne(tasks, indeg, done, ready, cs[..i], cs[i], cs[..i+1]);
  }

  /** Takes `tid` off the queue into the order and releases its children. */
  method Settle(tasks: Tasks, indeg0: map<string, nat>, children: map<string, seq<string>>,
                order: seq<string>, queue0: seq<string>)
    returns (indeg: map<string, nat>, queue: seq<string>, ghost freed: seq<string>)
    requires Kahn(tasks, indeg0, order, queue0) && Mirrors(children, Dependencies(tasks)) && queue0 != []
    ensures Kahn(tasks, indeg, order + [queue0[0]], queue)
    ensures queue == queue0[1..] + freed && Ascending(freed)
    ensures forall c :: c in freed ==> DependsOn(tasks, c, queue0[0])
  {
    var tid := queue0[0];
    StartSettling(tasks, indeg0, order, queue0);
    indeg, queue, freed := indeg0, queue0[1..], [];
    var cs := SortedIds(children[tid]);
    SortedIdsAscend(children[tid]);
    ChildrenListed(tasks, children, tid);
    NoneFreed(cs);
    hide SortedIds, Listed, Settling, Pending, Ascending, Kahn, Mirrors, FreedFrom, DependenciesFirst;
    ghost var ready := order + [tid] + queue;
    for i := 0 to |cs|
      invariant ready == order + [tid] + queue
      invariant queue == queue0[1..] + freed && Ascending(freed) && FreedFrom(freed, cs, i)
      invariant Settling(tasks, indeg, Elements(order), ready, cs[..i])
    {
      var c := cs[i];
      SettleNext(tasks, indeg, Elements(order), ready, tid, cs, i);
      FreedBefore(freed, cs, i);
      indeg := indeg[c := indeg[c] - 1];
      if indeg[c] == 0 {
        AscendsTo(freed, cs, i);
        Associative(queue0[1..], freed, [c]);
        Associative(order + [tid], queue, [c]);
        queue, ready, freed := queue + [c], ready + [c], freed + [c];
      }
    }
    FreedDepend(tasks, tid, cs, freed);
    SettledIsKahn(tasks, indeg, order, queue, tid, cs);
  }

  lemma Associative(xs: seq<string>, ys: seq<string>, zs: seq<string>)
    ensures xs + ys + zs == xs + (ys + zs)
  {
  }

  lemma FreedDepend(tasks: Tasks, tid: string, cs: seq<string>, freed: seq<string>)
    requires Listed(tasks, tid, cs) && tid in tasks && FreedFrom(freed, cs, |cs|)
    ensures forall c :: c in freed ==> DependsOn(tasks, c, tid)
  {
    forall c | c in freed ensures DependsOn(tasks, c, tid) {
      ListedDepends(tasks, tid, cs, c);
    }
  }

  /** All of them are among the first i children. */
  ghost predicate FreedFrom(freed: seq<string>, cs: seq<string>, i: nat)
    requires i <= |cs|
  {
    forall x :: x in freed ==> x in cs[..i]
  }

  lemma FreedBefore(freed: seq<string>, cs: seq<string>, i: nat)
    requires i < |cs| && FreedFrom(freed, cs, i)
    ensures FreedFrom(freed, cs, i + 1)
  {
    assert cs[..i+1] == cs[..i] + [cs[i]];
  }

  lemma NoneFreed(cs: seq<string>)
    ensures Ascending([]) && FreedFrom([], cs, 0)
  {
  }

  lemma AscendsTo(freed: seq<string>, cs: seq<string>, i: nat)
    requires i < |cs| && Ascending(cs) && Ascending(freed) && FreedFrom(freed, cs, i)
    ensures Ascending(freed + [cs[i]]) && FreedFrom(freed + [cs[i]], cs, i + 1)
  {
    assert cs[..i+1] == cs[..i] + [cs[i]];
    forall k | 0 <= k < |freed| ensures Text.Leq(freed[k], cs[i]) {
      assert freed[k] in cs[..i];
    }
  }

  lemma ListedDepends(tasks: Tasks, tid: string, cs: seq<string>, c: string)
    requires Listed(tasks, tid, cs) && c in cs && tid in tasks
    ensures DependsOn(tasks, c, tid)
  {
    TimesMember(cs, c);
    if c in tasks {
      TimesMember(tasks[c].dependsOn, tid);
    }
  }

  // ---- the order is unique ------------------------------------------------------------------

  /** The position in the order of the last dependency of t, or -1 without one. */
  function LastDependency(tasks: Tasks, order: seq<string>, t: string): int {
    if order == [] then -1
    else if DependsOn(tasks, t, order[|order|-1]) then |order| - 1
    else LastDependency(tasks, order[..|order|-1], t)
  }

  /** x was ready before y: its last dependency came earlier, or the same one released both and its id is smaller. */
  predicate ReadyBefore(tasks: Tasks, order: seq<string>, x: string, y: string) {
    var i, j := LastDependency(tasks, order, x), LastDependency(tasks, order, y);
    i < j || (i == j && x != y && Text.Leq(x, y))
  }

  ghost predicate Ready(tasks: Tasks, order: seq<string>, listed: seq<string>) {
    forall i, j :: 0 <= i < j < |listed| ==> ReadyBefore(tasks, order, listed[i], listed[j])
  }

  /** Tasks stand in the order in which they become ready. */
  ghost predicate InReadyOrder(tasks: Tasks, order: seq<string>) { Ready(tasks, order, order) }

  lemma {:induction false} LastDependencyBounds(tasks: Tasks, order: seq<string>, t: string)
    ensures -1 <= LastDependency(tasks, order, t) < |order|
  {
    if order != [] {
      LastDependencyBounds(tasks, order[..|order|-1], t);
    }
  }

  /** One more task in the order is the last dependency of those that depend on it, and of no other. */
  lemma LastDependencyMore(tasks: Tasks, order: seq<string>, tid: string, t: string)
    ensures LastDependency(tasks, order + [tid], t) ==
              if DependsOn(tasks, t, tid) then |order| else LastDependency(tasks, order, t)
  {
    assert (order + [tid])[..|order|] == order;
  }

  lemma StartsReady(tasks: Tasks, indeg: map<string, nat>, queue: seq<string>)
    requires Ascending(queue) && Kahn(tasks, indeg, [], queue)
    ensures Ready(tasks, [], [] + queue)
  {
    assert [] + queue == queue;
  }

  /** Nothing that is ready waits for the task at the head of the queue. */
  lemma ReadyWaitsForNobody(tasks: Tasks, indeg: map<string, nat>, order: seq<string>, queue: seq<string>, x: string)
    requires Kahn(tasks, indeg, order, queue) && queue != [] && x in order + queue
    ensures !DependsOn(tasks, x, queue[0])
  {
    assert x in tasks && indeg[x] == 0;
    PendingNone(tasks[x].dependsOn, tasks.Keys, Elements(order));
    assert (order + queue)[|order|] == queue[0];
    assert forall k :: 0 <= k < |order| ==> (order + queue)[k] == order[k];
  }

  lemma StaysReady(tasks: Tasks, indeg: map<string, nat>, order: seq<string>, queue: seq<string>, freed: seq<string>)
    requires Kahn(tasks, indeg, order, queue) && queue != [] && Ready(tasks, order, order + queue)
    requires Ascending(freed) && Distinct(freed) && forall c :: c in freed ==> DependsOn(tasks, c, queue[0])
    ensures Ready(tasks, order + [queue[0]], order + queue + freed)
  {
    var tid, all, listed := queue[0], order + queue + freed, order + queue;
    forall x ensures
      && (x in listed ==> LastDependency(tasks, order + [tid], x) == LastDependency(tasks, order, x) < |order|)
      && (x in freed ==> LastDependency(tasks, order + [tid], x) == |order|)
    {
      LastDependencyMore(tasks, order, tid, x);
      LastDependencyBounds(tasks, order, x);
      if x in listed {
        ReadyWaitsForNobody(tasks, indeg, order, queue, x);
      }
    }
    forall i, j | 0 <= i < j < |all| ensures ReadyBefore(tasks, order + [tid], all[i], all[j]) {
      if j < |listed| {
        assert all[i] == listed[i] && all[j] == listed[j] && ReadyBefore(tasks, order, listed[i], listed[j]);
      } else if i < |listed| {
        assert all[i] == listed[i] && all[j] == freed[j - |listed|];
      } else {
        assert all[i] == freed[i - |listed|] && all[j] == freed[j - |listed|];
      }
    }
  }

  /** Dependencies outside the first n tasks do not matter for a task whose dependencies are all among them. */
  lemma {:induction false} LastDependencyWithin(tasks: Tasks, order: seq<string>, n: nat, t: string)
    requires n <= |order| && Distinct(order) && forall d :: d in order && DependsOn(tasks, t, d) ==> d in order[..n]
    ensures LastDependency(tasks, order, t) == LastDependency(tasks, order[..n], t)
  {
    if n < |order| {
      var front := order[..|order|-1];
      assert order[|order|-1] !in order[..n];
      assert front[..n] == order[..n];
      LastDependencyWithin(tasks, front, n, t);
    } else {
      assert order[..n] == order;
    }
  }

  /** There is one order of the tasks in which they become ready: the result is a function of the tasks. */
  lemma {:induction false} OneReadyOrder(tasks: Tasks, order: seq<string>, other: seq<string>, n: nat)
    requires Distinct(order) && Elements(order) == tasks.Keys && DependenciesFirst(tasks, order)
             && InReadyOrder(tasks, order)
    requires Distinct(other) && Elements(other) == tasks.Keys && DependenciesFirst(tasks, other)
             && InReadyOrder(tasks, other)
    requires n <= |order| && n <= |other|
    ensures order[..n] == other[..n]
  {
    if n > 0 {
      OneReadyOrder(tasks, order, other, n - 1);
      var x, y := order[n-1], other[n-1];
      if x != y {
        ComesLater(tasks, order, other, n - 1);
        ComesLater(tasks, other, order, n - 1);
        Text.LeqAntisymmetric(x, y);
      }
      assert order[..n] == order[..n-1] + [x] && other[..n] == other[..n-1] + [y];
    }
  }

  /** Where two orders first differ, what the other one puts there became ready later by this one. */
  lemma ComesLater(tasks: Tasks, order: seq<string>, other: seq<string>, n: nat)
    requires Distinct(order) && Elements(order) == tasks.Keys && DependenciesFirst(tasks, order)
             && InReadyOrder(tasks, order)
    requires Distinct(other) && Elements(other) == tasks.Keys && DependenciesFirst(tasks, other)
    requires n < |order| && n < |other| && order[..n] == other[..n] && order[n] != other[n]
    ensures ReadyBefore(tasks, order[..n], order[n], other[n])
  {
    var x, y := order[n], other[n];
    assert y in Elements(other) && x in Elements(order) && y in Elements(order);
    var j :| 0 <= j < |order| && order[j] == y;
    assert forall k :: 0 <= k < n ==> order[k] == order[..n][k] == other[..n][k] == other[k];
    assert ReadyBefore(tasks, order, order[n], order[j]);
    OrderPrefix(tasks, order, n);
    OrderPrefix(tasks, other, n);
    LastDependencyWithin(tasks, order, n, x);
    LastDependencyWithin(tasks, order, n, y);
  }

  lemma {:induction false} TimesPrefix(xs: seq<string>, i: nat, x: string)
    requires i < |xs| && xs[i] == x
    ensures Times(xs[..i], x) < Times(xs, x)
  {
    if i < |xs| - 1 {
      TimesPrefix(xs[..|xs|-1], i, x);
      assert xs[..|xs|-1][..i] == xs[..i];
    }
  }

  lemma SettledIsKahn(tasks: Tasks, indeg: map<string, nat>, order: seq<string>, queue: seq<string>,
                      tid: string, cs: seq<string>)
    requires Settling(tasks, indeg, Elements(order), order + [tid] + queue, cs[..|cs|])
             && DependenciesFirst(tasks, order)
    requires tid in tasks && tid !in order && Pending(tasks[tid].dependsOn, tasks.Keys, Elements(order)) == 0
    requires Listed(tasks, tid, cs)
    ensures Kahn(tasks, indeg, order + [tid], queue)
  {
    var longer := order + [tid];
    assert cs[..|cs|] == cs;
    assert Elements(longer) == Elements(order) + {tid};
    forall t | t in tasks ensures indeg[t] == Pending(tasks[t].dependsOn, tasks.Keys, Elements(longer)) {
      PendingDrops(tasks[t].dependsOn, tasks.Keys, Elements(order), tid);
      assert Times(cs, t) == Times(tasks[t].dependsOn, tid);
    }
    PendingNone(tasks[tid].dependsOn, tasks.Keys, Elements(order));
    forall i, d | 0 <= i < |longer| && DependsOn(tasks, longer[i], d) ensures d in longer[..i] {
      if i < |order| {
        assert longer[..i] == order[..i];
      } else {
        assert longer[..i] == order;
      }
    }
  }

  /** When nothing is ready any more, each task outside the order waits for another one outside it. */
  lemma LeftoversReachCycle(tasks: Tasks, indeg: map<string, nat>, order: seq<string>, t: string)
    requires Kahn(tasks, indeg, order, []) && t in tasks && t !in order
    ensures ReachesCycle(tasks, t)
  {
    assert order + [] == order;
    var stuck := tasks.Keys - Elements(order);
    forall x | x in stuck ensures DependsWithin(tasks, stuck, x) {
      assert indeg[x] > 0;
      PendingNone(tasks[x].dependsOn, tasks.Keys, Elements(order));
      var d :| d in tasks[x].dependsOn && d in tasks.Keys && d !in Elements(order);
      assert DependsOn(tasks, x, d);
    }
    var p := EndlessWalk(tasks, stuck, t, |stuck|);
    Pigeonhole(p, stuck);
  }

  /** The order is a permutation of all tasks with dependencies first, and the error is raised
      exactly when the known dependencies contain a cycle, naming the tasks that lead into one. */
  method TopologicalOrder(tasks: Tasks) returns (r: Result<seq<string>>)
    ensures r.GraphError? <==> Cyclic(tasks)
    ensures r.Ok? ==> Distinct(r.value) && Elements(r.value) == tasks.Keys && DependenciesFirst(tasks, r.value)
    ensures r.Ok? ==> InReadyOrder(tasks, r.value)
    ensures r.GraphError? ==> r.stuck == set t | t in tasks && ReachesCycle(tasks, t)
  {
    var indeg, children := CountDependencies(tasks);
    var q := InitialQueue(tasks, indeg);
    var order: seq<string> := [];
    StartsReady(tasks, indeg, q);
    hide Kahn, Ready, Mirrors, Counted, DependenciesFirst, Ascending;
    while q != []
      invariant Kahn(tasks, indeg, order, q)
      invariant Ready(tasks, order, order + q)
      decreases |tasks| - |order|
    {
      var tid := q[0];
      RoomForMore(tasks, indeg, order, q);
      indeg, q := Release(tasks, indeg, children, order, q);
      order := order + [tid];
    }
    assert order + [] == order;
    KahnDecides(tasks, indeg, order);
    if |order| != |tasks| {
      r := GraphError(set t | t in tasks && indeg[t] > 0);
    } else {
      r := Ok(order);
    }
  }

  /** Takes the head of the queue into the order, so that all tasks still stand as they became ready. */
  method Release(tasks: Tasks, indeg0: map<string, nat>, children: map<string, seq<string>>,
                 order: seq<string>, queue0: seq<string>)
    returns (indeg: map<string, nat>, queue: seq<string>)
    requires Kahn(tasks, indeg0, order, queue0) && Mirrors(children, Dependencies(tasks)) && queue0 != []
    requires Ready(tasks, order, order + queue0)
    ensures Kahn(tasks, indeg, order + [queue0[0]], queue)
    ensures Ready(tasks, order + [queue0[0]], order + [queue0[0]] + queue)
  {
    hide Ready, Mirrors, Counted, DependenciesFirst, Ascending, Kahn;
    ghost var freed;
    indeg, queue, freed := Settle(tasks, indeg0, children, order, queue0);
    FreedIsDistinct(tasks, indeg, order + [queue0[0]], queue0[1..], freed);
    StaysReady(tasks, indeg0, order, queue0, freed);
    assert order + queue0 + freed == order + [queue0[0]] + queue;
  }

  lemma FreedIsDistinct(tasks: Tasks, indeg: map<string, nat>, order: seq<string>, rest: seq<string>,
                        freed: seq<string>)
    requires Kahn(tasks, indeg, order, rest + freed)
    ensures Distinct(freed)
  {
    var all := order + (rest + freed);
    forall i, j | 0 <= i < j < |freed| ensures freed[i] != freed[j] {
      assert all[|order| + |rest| + i] == freed[i] && all[|order| + |rest| + j] == freed[j];
    }
  }

  lemma RoomForMore(tasks: Tasks, indeg: map<string, nat>, order: seq<string>, queue: seq<string>)
    requires Kahn(tasks, indeg, order, queue) && queue != []
    ensures |order| < |tasks|
  {
    OrderIsShort(tasks, order + queue);
  }

  lemma KahnDecides(tasks: Tasks, indeg: map<string, nat>, order: seq<string>)
    requires Kahn(tasks, indeg, order, [])
    ensures Distinct(order) && DependenciesFirst(tasks, order)
    ensures |order| == |tasks| <==> Elements(order) == tasks.Keys
    ensures |order| == |tasks| <==> !Cyclic(tasks)
    ensures forall t :: t in tasks ==> (indeg[t] > 0 <==> ReachesCycle(tasks, t))
  {
    assert order + [] == order;
    forall t | t in tasks ensures t in order <==> !ReachesCycle(tasks, t) {
      if t in order {
        OrderedReachesNoCycle(tasks, order, t);
      } else {
        LeftoversReachCycle(tasks, indeg, order, t);
      }
    }
    CyclicMeansReached(tasks);
    OrderIsShort(tasks, order);
  }

  lemma {:induction false} DistinctSize(xs: seq<string>)
    requires Distinct(xs)
    ensures |Elements(xs)| == |xs|
  {
    if xs != [] {
      var front := xs[..|xs|-1];
      DistinctSize(front);
      assert Elements(xs) == Elements(front) + {xs[|xs|-1]};
    }
  }

  lemma SubsetSize(xs: set<string>, ys: set<string>)
    requires xs <= ys
    ensures |xs| <= |ys| && (|xs| == |ys| ==> xs == ys)
  {
    assert |ys| == |xs| + |ys - xs|;
  }

  lemma OrderIsShort(tasks: Tasks, order: seq<string>)
    requires Distinct(order) && forall t :: t in order ==> t in tasks
    ensures |order| <= |tasks|
    ensures |order| == |tasks| <==> Elements(order) == tasks.Keys
  {
    DistinctSize(order);
    SubsetSize(Elements(order), tasks.Keys);
    assert |tasks| == |tasks.Keys|;
  }

  // ---- longest chains -----------------------------------------------------------------------

  /** Each task of the chain is a direct dependency of the next one, and all are eligible. */
  ghost predicate Chain(tasks: Tasks, eligible: set<string>, p: seq<string>) {
    && (forall i :: 0 <= i < |p| ==> p[i] in eligible && p[i] in tasks)
    && (forall i {:trigger StepUp(tasks, p, i)} :: 0 <= i < |p| - 1 ==> StepUp(tasks, p, i))
  }

  ghost predicate StepUp(tasks: Tasks, p: seq<string>, i: nat) {
    i + 1 < |p| && DependsOn(tasks, p[i+1], p[i])
  }

  ghost predicate EndsIn(p: seq<string>, t: string) { p != [] && p[|p|-1] == t }

  /** No chain of eligible tasks that ends in t has more than n tasks. */
  ghost predicate NoLonger(tasks: Tasks, eligible: set<string>, t: string, n: nat) {
    forall p :: Chain(tasks, eligible, p) && EndsIn(p, t) ==> |p| <= n
  }

  ghost predicate Reaches(tasks: Tasks, eligible: set<string>, t: string, n: nat) {
    exists p :: Chain(tasks, eligible, p) && EndsIn(p, t) && |p| == n
  }

  lemma ExtendChain(tasks: Tasks, eligible: set<string>, p: seq<string>, t: string)
    requires Chain(tasks, eligible, p) && t in eligible && t in tasks
    requires p != [] ==> DependsOn(tasks, t, p[|p|-1])
    ensures Chain(tasks, eligible, p + [t])
  {
    forall i | 0 <= i < |p| ensures StepUp(tasks, p + [t], i) {
      assert i < |p| - 1 ==> StepUp(tasks, p, i);
    }
  }

  /** Longest chains are built one task at a time: a bound for each dependency gives one for t. */
  lemma ChainBound(tasks: Tasks, eligible: set<string>, t: string, n: nat)
    requires forall d :: d in eligible && DependsOn(tasks, t, d) ==> NoLonger(tasks, eligible, d, n)
    ensures NoLonger(tasks, eligible, t, n + 1)
  {
    forall p | Chain(tasks, eligible, p) && EndsIn(p, t) ensures |p| <= n + 1 {
      if |p| > 1 {
        var front := p[..|p|-1];
        assert StepUp(tasks, p, |p| - 2);
        forall i | 0 <= i < |front| - 1 ensures StepUp(tasks, front, i) {
          assert StepUp(tasks, p, i);
        }
        assert Chain(tasks, eligible, front) && EndsIn(front, p[|p|-2]);
        assert NoLonger(tasks, eligible, p[|p|-2], n);
      }
    }
  }

  // ---- the critical path --------------------------------------------------------------------

  datatype Best = Best(length: nat, chain: seq<string>)

  function Live(tasks: Tasks): set<string> { set t | t in tasks && !tasks[t].terminal }

  /** The entry of a task: its longest chain of live tasks, empty for a terminal one. */
  ghost predicate BestOf(tasks: Tasks, t: string, b: Best) {
    && t in tasks && b.length == |b.chain| && Chain(tasks, Live(tasks), b.chain)
    && (tasks[t].terminal ==> b.chain == [])
    && (!tasks[t].terminal ==> EndsIn(b.chain, t))
    && NoLonger(tasks, Live(tasks), t, b.length)
  }

  ghost predicate AllBest(tasks: Tasks, best: map<string, Best>) {
    forall t {:trigger BestOf(tasks, t, best[t])} :: t in best ==> BestOf(tasks, t, best[t])
  }

  /** Considering the first dependencies of t: the chain is one more than the longest of theirs. */
  ghost predicate BestSoFar(tasks: Tasks, best: map<string, Best>, t: string, deps: seq<string>, chain: Best) {
    && t in tasks && !tasks[t].terminal
    && chain.length == |chain.chain| > 0 && Chain(tasks, Live(tasks), chain.chain) && EndsIn(chain.chain, t)
    && forall d :: d in deps && d in best ==> best[d].length + 1 <= chain.length
  }

  lemma LongerChain(tasks: Tasks, best: map<string, Best>, t: string, deps: seq<string>, chain: Best, d: string)
    requires BestSoFar(tasks, best, t, deps, chain) && AllBest(tasks, best)
    requires d in best && DependsOn(tasks, t, d) && best[d].length + 1 > chain.length
    ensures BestSoFar(tasks, best, t, deps + [d], Best(best[d].length + 1, best[d].chain + [t]))
  {
    assert BestOf(tasks, d, best[d]);
    ExtendChain(tasks, Live(tasks), best[d].chain, t);
  }

  method LongestThrough(tasks: Tasks, best: map<string, Best>, tid: string) returns (chain: Best)
    requires AllBest(tasks, best) && tid in tasks && !tasks[tid].terminal
    requires forall d :: DependsOn(tasks, tid, d) ==> d in best
    ensures BestOf(tasks, tid, chain)
  {
    var deps := tasks[tid].dependsOn;
    chain := Best(1, [tid]);
    for i := 0 to |deps|
      invariant BestSoFar(tasks, best, tid, deps[..i], chain)
    {
      var d := deps[i];
      assert deps[..i+1] == deps[..i] + [d];
      if d in best && best[d].length + 1 > chain.length {
        assert BestOf(tasks, d, best[d]);
        LongerChain(tasks, best, tid, deps[..i], chain, d);
        chain := Best(best[d].length + 1, best[d].chain + [tid]);
      }
    }
    assert deps[..|deps|] == deps;
    forall d | d in Live(tasks) && DependsOn(tasks, tid, d) ensures NoLonger(tasks, Live(tasks), d, chain.length - 1) {
      assert BestOf(tasks, d, best[d]);
    }
    ChainBound(tasks, Live(tasks), tid, chain.length - 1);
  }

  /** What the loop over the order has found: each task's best chain, and the longest of them. */
  ghost predicate LongestSoFar(tasks: Tasks, best: map<string, Best>, longest: seq<string>) {
    && AllBest(tasks, best)
    && Chain(tasks, Live(tasks), longest)
    && forall t :: t in best ==> best[t].length <= |longest|
  }

  lemma AddBest(tasks: Tasks, best: map<string, Best>, longest: seq<string>, t: string, b: Best)
    requires LongestSoFar(tasks, best, longest) && BestOf(tasks, t, b)
    ensures LongestSoFar(tasks, best[t := b], if b.length > |longest| then b.chain else longest)
  {
    var after := best[t := b];
    forall u | u in after ensures BestOf(tasks, u, after[u]) {
      assert u != t ==> BestOf(tasks, u, best[u]);
    }
  }

  lemma LongestOverall(tasks: Tasks, best: map<string, Best>, longest: seq<string>)
    requires LongestSoFar(tasks, best, longest) && best.Keys == tasks.Keys
    ensures forall p :: Chain(tasks, Live(tasks), p) ==> |p| <= |longest|
  {
    forall p | Chain(tasks, Live(tasks), p) ensures |p| <= |longest| {
      if p != [] {
        var t := p[|p|-1];
        assert BestOf(tasks, t, best[t]) && EndsIn(p, t);
      }
    }
  }

  lemma OrderPrefix(tasks: Tasks, order: seq<string>, i: nat)
    requires i < |order| && Elements(order) == tasks.Keys && DependenciesFirst(tasks, order) && Distinct(order)
    ensures order[i] in tasks && order[i] !in Elements(order[..i])
    ensures Elements(order[..i+1]) == Elements(order[..i]) + {order[i]}
    ensures forall d :: DependsOn(tasks, order[i], d) ==> d in Elements(order[..i])
  {
    assert order[i] in Elements(order);
  }

  /** The dynamic program over an order with dependencies first. */
  method LongestInOrder(tasks: Tasks, order: seq<string>) returns (longest: seq<string>)
    requires Distinct(order) && Elements(order) == tasks.Keys && DependenciesFirst(tasks, order)
    ensures Chain(tasks, Live(tasks), longest)
    ensures forall p :: Chain(tasks, Live(tasks), p) ==> |p| <= |longest|
  {
    var best: map<string, Best> := map[];
    longest := [];
    for i := 0 to |order|
      invariant best.Keys == Elements(order[..i])
      invariant LongestSoFar(tasks, best, longest)
    {
      var tid := order[i];
      OrderPrefix(tasks, order, i);
      var chain := Best(0, []);
      if !tasks[tid].terminal {
        chain := LongestThrough(tasks, best, tid);
      }
      AddBest(tasks, best, longest, tid, chain);
      best := best[tid := chain];
      if chain.length > |longest| {
        longest := chain.chain;
      }
    }
    assert order[..|order|] == order;
    LongestOverall(tasks, best, longest);
  }

  /** For an acyclic graph: a chain of live tasks linked by dependencies, and no such chain is longer. */
  method CriticalPath(tasks: Tasks) returns (r: Result<seq<string>>)
    ensures r.GraphError? <==> Cyclic(tasks)
    ensures r.Ok? ==> Chain(tasks, Live(tasks), r.value)
    ensures r.Ok? ==> forall p :: Chain(tasks, Live(tasks), p) ==> |p| <= |r.value|
  {
    var ordered := TopologicalOrder(tasks);
    if ordered.GraphError? {
      return ordered;
    }
    var path := LongestInOrder(tasks, ordered.value);
    r := Ok(path);
  }

  // ---- layers -------------------------------------------------------------------------------

  predicate Precedes(order: seq<string>, d: string, t: string) {
    exists i, j :: 0 <= i < j < |order| && order[i] == d && order[j] == t
  }

  /** The tasks with one more dependency each: the task it was discovered from, if that one stands earlier. */
  ghost function Extended(tasks: Tasks, order: seq<string>): Tasks {
    map t | t in tasks ::
      if Precedes(order, tasks[t].discoveredFrom, t)
      then tasks[t].(dependsOn := tasks[t].dependsOn + [tasks[t].discoveredFrom]) else tasks[t]
  }

  ghost predicate NothingDiscovered(tasks: Tasks) {
    forall t :: t in tasks ==> tasks[t].discoveredFrom !in tasks
  }

  /** Layer n of t: the longest visible chain that ends in t has n + 1 tasks. */
  ghost predicate LayerOf(tasks: Tasks, visible: set<string>, t: string, n: nat) {
    NoLonger(tasks, visible, t, n + 1) && Reaches(tasks, visible, t, n + 1)
  }

  ghost predicate AllLayers(tasks: Tasks, visible: set<string>, out: map<string, nat>) {
    forall t {:trigger LayerOf(tasks, visible, t, out[t])} :: t in out ==> LayerOf(tasks, visible, t, out[t])
  }

  lemma ExtendedOrder(tasks: Tasks, order: seq<string>)
    requires Distinct(order) && Elements(order) == tasks.Keys && DependenciesFirst(tasks, order)
    ensures Extended(tasks, order).Keys == tasks.Keys && DependenciesFirst(Extended(tasks, order), order)
  {
    var wide := Extended(tasks, order);
    forall i, d | 0 <= i < |order| && DependsOn(wide, order[i], d) ensures d in order[..i] {
      if !DependsOn(tasks, order[i], d) {
        var k, j :| 0 <= k < j < |order| && order[k] == d && order[j] == order[i];
        assert j == i && order[..i][k] == d;
      }
    }
  }

  /** What the loop collects for a task: its visible dependencies and the visible task it was discovered from. */
  lemma CollectedDependencies(tasks: Tasks, order: seq<string>, i: nat, out: map<string, nat>, visible: set<string>,
                              d: string)
    requires Distinct(order) && Elements(order) == tasks.Keys && DependenciesFirst(tasks, order)
    requires i < |order| && out.Keys == Elements(order[..i]) * visible
    ensures order[i] in tasks
    ensures d in out && DependsOn(Extended(tasks, order), order[i], d) <==>
              d in out && (d in tasks[order[i]].dependsOn || d == tasks[order[i]].discoveredFrom)
    ensures d in visible && DependsOn(Extended(tasks, order), order[i], d) ==> d in out
  {
    ExtendedOrder(tasks, order);
    assert order[i] in Elements(order);
    if d in out {
      var k :| 0 <= k < i && order[k] == d;
      assert d in Elements(order) && Precedes(order, d, order[i]);
    }
    if d in visible && DependsOn(Extended(tasks, order), order[i], d) {
      assert d in order[..i];
    }
  }

  /** 1 + the largest layer among `deps`, or 0 when there is none. */
  method NextLayer(ghost tasks: Tasks, visible: set<string>, out: map<string, nat>, tid: string, deps: seq<string>)
    returns (layer: nat)
    requires AllLayers(tasks, visible, out) && tid in tasks && tid in visible
    requires forall d :: d in deps ==> d in out && DependsOn(tasks, tid, d)
    ensures forall d :: d in deps ==> out[d] < layer
    ensures Reaches(tasks, visible, tid, layer + 1)
  {
    layer := 0;
    assert Chain(tasks, visible, [tid]) && EndsIn([tid], tid);
    for i := 0 to |deps|
      invariant forall j :: 0 <= j < i ==> out[deps[j]] < layer
      invariant Reaches(tasks, visible, tid, layer + 1)
    {
      var d := deps[i];
      if out[d] + 1 > layer {
        layer := out[d] + 1;
        assert LayerOf(tasks, visible, d, out[d]);
        ghost var p :| Chain(tasks, visible, p) && EndsIn(p, d) && |p| == out[d] + 1;
        ExtendChain(tasks, visible, p, tid);
        assert EndsIn(p + [tid], tid) && |p + [tid]| == layer + 1;
      }
    }
  }

  ghost predicate LayersRise(tasks: Tasks, out: map<string, nat>) {
    forall t, d {:trigger DependsOn(tasks, t, d)} :: t in out && d in out && DependsOn(tasks, t, d) ==> out[d] < out[t]
  }

  lemma AddLayer(tasks: Tasks, visible: set<string>, out: map<string, nat>, order: seq<string>, i: nat,
                 deps: seq<string>, layer: nat)
    requires i < |order| && Elements(order) == tasks.Keys && DependenciesFirst(tasks, order) && Distinct(order)
    requires order[i] in visible && out.Keys == Elements(order[..i]) * visible
    requires AllLayers(tasks, visible, out) && LayersRise(tasks, out)
    requires forall d :: d in out && DependsOn(tasks, order[i], d) ==> d in deps
    requires forall d :: d in deps ==> d in out && out[d] < layer
    requires Reaches(tasks, visible, order[i], layer + 1)
    ensures AllLayers(tasks, visible, out[order[i] := layer]) && LayersRise(tasks, out[order[i] := layer])
  {
    var tid := order[i];
    var after := out[tid := layer];
    OrderPrefix(tasks, order, i);
    forall d | d in visible && DependsOn(tasks, tid, d) ensures NoLonger(tasks, visible, d, layer) {
      assert LayerOf(tasks, visible, d, out[d]);
    }
    ChainBound(tasks, visible, tid, layer);
    forall t | t in after ensures LayerOf(tasks, visible, t, after[t]) {
      assert t != tid ==> LayerOf(tasks, visible, t, out[t]);
    }
    forall t, d | t in after && d in after && DependsOn(tasks, t, d) ensures after[d] < after[t] {
      if t != tid {
        var k :| 0 <= k < i && order[k] == t;
        OrderPrefix(tasks, order, k);
        assert d in order[..k];
      } else {
        assert d in Elements(order[..i]);
      }
    }
  }

  /** The layer of the next visible task of the order. */
  method LayerFor(tasks: Tasks, visible: set<string>, order: seq<string>, i: nat, out: map<string, nat>)
    returns (layer: nat)
    requires Distinct(order) && Elements(order) == tasks.Keys && DependenciesFirst(tasks, order)
    requires i < |order| && order[i] in visible && out.Keys == Elements(order[..i]) * visible
    requires AllLayers(Extended(tasks, order), visible, out) && LayersRise(Extended(tasks, order), out)
    ensures AllLayers(Extended(tasks, order), visible, out[order[i] := layer])
    ensures LayersRise(Extended(tasks, order), out[order[i] := layer])
  {
    ghost var wide := Extended(tasks, order);
    ExtendedOrder(tasks, order);
    OrderPrefix(tasks, order, i);
    hide AllLayers, LayersRise, DependenciesFirst, Extended, Distinct;
    var tid := order[i];
    var deps := Filter(tasks[tid].dependsOn, out.Keys);
    if tasks[tid].discoveredFrom in out {
      deps := deps + [tasks[tid].discoveredFrom];
    }
    forall d ensures d in deps <==> d in out && DependsOn(wide, tid, d) {
      CollectedDependencies(tasks, order, i, out, visible, d);
    }
    layer := NextLayer(wide, visible, out, tid, deps);
    AddLayer(wide, visible, out, order, i, deps, layer);
  }

  method LayersInOrder(tasks: Tasks, visible: set<string>, order: seq<string>) returns (out: map<string, nat>)
    requires Distinct(order) && Elements(order) == tasks.Keys && DependenciesFirst(tasks, order)
    ensures out.Keys == tasks.Keys * visible
    ensures AllLayers(Extended(tasks, order), visible, out) && LayersRise(Extended(tasks, order), out)
  {
    out := map[];
    NoLayers(Extended(tasks, order), visible);
    hide AllLayers, LayersRise, Extended;
    for i := 0 to |order|
      invariant out.Keys == Elements(order[..i]) * visible
      invariant AllLayers(Extended(tasks, order), visible, out) && LayersRise(Extended(tasks, order), out)
    {
      OrderPrefix(tasks, order, i);
      if order[i] in visible {
        var layer := LayerFor(tasks, visible, order, i, out);
        out := out[order[i] := layer];
      }
    }
    assert order[..|order|] == order;
  }

  lemma NoLayers(tasks: Tasks, visible: set<string>)
    ensures AllLayers(tasks, visible, map[]) && LayersRise(tasks, map[])
  {
  }

  /** Without discovered tasks nothing is added, and in any case dependencies are kept. */
  lemma ExtensionOnlyAdds(tasks: Tasks, order: seq<string>, visible: set<string>, out: map<string, nat>)
    requires Elements(order) == tasks.Keys
    requires AllLayers(Extended(tasks, order), visible, out) && LayersRise(Extended(tasks, order), out)
    ensures NothingDiscovered(tasks) ==> Extended(tasks, order) == tasks
    ensures LayersRise(tasks, out) && forall t :: t in out ==> NoLonger(tasks, visible, t, out[t] + 1)
  {
    var wide := Extended(tasks, order);
    forall t, d | DependsOn(tasks, t, d) ensures DependsOn(wide, t, d) {
    }
    if NothingDiscovered(tasks) {
      forall t | t in tasks ensures wide[t] == tasks[t] {
        assert tasks[t].discoveredFrom !in Elements(order);
      }
    }
    forall t, p | t in out && Chain(tasks, visible, p) && EndsIn(p, t) ensures |p| <= out[t] + 1 {
      assert LayerOf(wide, visible, t, out[t]);
      forall i | 0 <= i < |p| - 1 ensures StepUp(wide, p, i) {
        assert StepUp(tasks, p, i);
      }
      assert Chain(wide, visible, p);
    }
  }

  /** Every visible task gets the length of its longest visible chain, where a task that was discovered from an
      earlier one of the order also depends on that one; so it lies beyond its visible dependencies. */
  method Layers(tasks: Tasks, visible: set<string>) returns (r: Result<map<string, nat>>, ghost order: seq<string>)
    ensures r.GraphError? <==> Cyclic(tasks)
    ensures r.Ok? ==> Distinct(order) && Elements(order) == tasks.Keys && DependenciesFirst(tasks, order)
    ensures r.Ok? ==> InReadyOrder(tasks, order)
    ensures r.Ok? ==> r.value.Keys == tasks.Keys * visible && AllLayers(Extended(tasks, order), visible, r.value)
    ensures r.Ok? ==> LayersRise(tasks, r.value)
    ensures r.Ok? ==> forall t :: t in r.value ==> NoLonger(tasks, visible, t, r.value[t] + 1)
    ensures r.Ok? && NothingDiscovered(tasks) ==> AllLayers(tasks, visible, r.value)
  {
    order := [];
    var ordered := TopologicalOrder(tasks);
    if ordered.GraphError? {
      return GraphError(ordered.stuck), order;
    }
    order := ordered.value;
    var out := LayersInOrder(tasks, visible, ordered.value);
    ExtensionOnlyAdds(tasks, order, visible, out);
    r := Ok(out);
  }

  function Filter(xs: seq<string>, keep: set<string>): (r: seq<string>)
    ensures forall x :: x in r <==> x in xs && x in keep
  {
    if xs == [] then []
    else
      assert xs == xs[..|xs|-1] + [xs[|xs|-1]];
      Filter(xs[..|xs|-1], keep) + (if xs[|xs|-1] in keep then [xs[|xs|-1]] else [])
  }
}
