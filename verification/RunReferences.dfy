/** Which run ids does a state snapshot still mention?

    `HasRunReference` is the per-id search: an occurrence of the id with no word character or hyphen
    on either side.  `RunReferences` answers the same question for all ids in one pass, with a trie,
    failure links and merged outputs.  `word` stands for the character class `[\w-]`. */
module RunReferences {

  predicate OccursAt(text: string, id: string, start: nat) {
    start + |id| <= |text| && text[start..start+|id|] == id
  }

  predicate Delimited(text: string, start: nat, end: nat, word: char -> bool)
    requires start <= end <= |text|
  {
    (start == 0 || !word(text[start-1])) && (end == |text| || !word(text[end]))
  }

  /** A literal, boundary-delimited occurrence that ends at or before `limit`. */
  predicate ReferencedBy(text: string, id: string, word: char -> bool, limit: nat) {
    exists start :: 0 <= start <= |text| && OccursAt(text, id, start) && start + |id| <= limit
      && Delimited(text, start, start + |id|, word)
  }

  predicate HasRunReference(text: string, id: string, word: char -> bool) {
    id != "" && ReferencedBy(text, id, word, |text|)
  }

  // ---- words, suffixes and the trie ---------------------------------------------------------

  ghost predicate Suffix(u: string, w: string) {
    |u| <= |w| && w[|w|-|u|..] == u
  }

  lemma SuffixOfSuffix(u: string, v: string, w: string)
    requires Suffix(u, w) && Suffix(v, w) && |u| <= |v|
    ensures Suffix(u, v)
  {
    assert v[|v|-|u|..] == w[|w|-|u|..];
  }

  lemma WholeSuffix(u: string, w: string)
    requires Suffix(u, w) && u != w
    ensures |u| < |w|
  {
    assert w[0..] == w;
  }

  lemma SuffixTransitive(u: string, v: string, w: string)
    requires Suffix(u, v) && Suffix(v, w)
    ensures Suffix(u, w)
  {
    assert w[|w|-|u|..] == v[|v|-|u|..];
  }

  lemma SuffixExtends(u: string, w: string, c: char)
    ensures Suffix(u + [c], w + [c]) <==> Suffix(u, w)
  {
    if |u| <= |w| {
      assert (w + [c])[|w|-|u|..] == w[|w|-|u|..] + [c];
    }
    if Suffix(u + [c], w + [c]) {
      assert u == (u + [c])[..|u|];
    }
  }

  /** How a reader sees the trie: the word that leads to each node, the node each word leads to,
      and the node each node was added to. */
  datatype View = View(words: seq<string>, at: map<string, nat>, parent: seq<nat>)

  ghost predicate Trie(transitions: seq<map<char, nat>>, v: View) {
    && |transitions| == |v.words| == |v.parent| > 0
    && v.words[0] == ""
    && (forall n, c | 0 <= n < |transitions| && c in transitions[n] ::
          0 < transitions[n][c] < |v.words| && v.words[transitions[n][c]] == v.words[n] + [c])
    && (forall n | 0 <= n < |v.words| :: v.words[n] in v.at && v.at[v.words[n]] == n)
    && (forall u | u in v.at :: v.at[u] < |v.words| && v.words[v.at[u]] == u)
    && (forall n {:trigger HangsFrom(transitions, v.words, n, v.parent[n])} | 0 < n < |v.words| ::
          HangsFrom(transitions, v.words, n, v.parent[n]))
  }

  ghost predicate HangsFrom(transitions: seq<map<char, nat>>, words: seq<string>, n: nat, p: nat)
    requires |transitions| == |words| && n < |words|
  {
    && p < |words| && words[n] != ""
    && words[n] == words[p] + [words[n][|words[n]|-1]]
    && words[n][|words[n]|-1] in transitions[p]
    && transitions[p][words[n][|words[n]|-1]] == n
  }

  /** A node whose word extends another node's word by c is that node's c-child. */
  lemma ChildOf(transitions: seq<map<char, nat>>, v: View, n: nat, c: char)
    requires Trie(transitions, v) && n < |v.words|
    ensures v.words[n] + [c] in v.at <==> c in transitions[n]
  {
    var u := v.words[n] + [c];
    if u in v.at {
      var m := v.at[u];
      assert HangsFrom(transitions, v.words, m, v.parent[m]);
      assert u[..|u|-1] == v.words[n] == v.words[v.parent[m]];
    }
  }

  /** Words of the trie are closed under dropping the last character. */
  lemma PrefixClosed(transitions: seq<map<char, nat>>, v: View, u: string, c: char)
    requires Trie(transitions, v) && u + [c] in v.at
    ensures u in v.at
  {
    var m := v.at[u + [c]];
    assert HangsFrom(transitions, v.words, m, v.parent[m]);
    assert v.words[m][..|v.words[m]|-1] == u == v.words[v.parent[m]];
  }

  // ---- the longest word that ends the text so far -------------------------------------------

  /** Word x is the longest one shorter than `limit` that is a suffix of w. */
  ghost predicate Longest(at: map<string, nat>, w: string, limit: nat, x: string) {
    && Suffix(x, w) && |x| < limit
    && forall u :: u in at && Suffix(u, w) && |u| < limit ==> |u| <= |x|
  }

  /** No word longer than x both ends w and can be extended by c. */
  ghost predicate Extensible(at: map<string, nat>, w: string, limit: nat, c: char, x: string) {
    && Suffix(x, w) && |x| < limit
    && forall u :: u in at && Suffix(u, w) && |u| < limit && u + [c] in at ==> |u| <= |x|
  }

  lemma HopKeepsExtensible(at: map<string, nat>, w: string, limit: nat, c: char, x: string, next: string)
    requires Extensible(at, w, limit, c, x)
    requires x + [c] !in at && Longest(at, x, |x|, next)
    ensures Extensible(at, w, limit, c, next)
  {
    SuffixTransitive(next, x, w);
    forall u | u in at && Suffix(u, w) && |u| < limit && u + [c] in at ensures |u| <= |next| {
      SuffixOfSuffix(u, x, w);
      assert u != x;
    }
  }

  lemma AdvanceIsLongest(transitions: seq<map<char, nat>>, v: View, w: string, limit: nat, c: char, x: string)
    requires Trie(transitions, v) && Extensible(v.at, w, limit, c, x)
    requires x == "" || x + [c] in v.at
    ensures Longest(v.at, w + [c], limit + 1, if x + [c] in v.at then x + [c] else "")
  {
    var next := if x + [c] in v.at then x + [c] else "";
    SuffixExtends(x, w, c);
    forall y | y in v.at && Suffix(y, w + [c]) && |y| < limit + 1 ensures |y| <= |next| {
      if y != "" {
        var u := y[..|y|-1];
        assert y[|y|-1] == (w + [c])[|w|] == c;
        assert y == u + [c];
        PrefixClosed(transitions, v, u, c);
        SuffixExtends(u, w, c);
      }
    }
  }

  // ---- building the trie --------------------------------------------------------------------

  ghost predicate OwnOutputs(outputs: seq<string>, word: string, ids: set<string>) {
    outputs == if word in ids then [word] else []
  }

  /** The trie of `ids`: every id is a word, and each node so far lists just its own id. */
  ghost predicate TrieOf(transitions: seq<map<char, nat>>, failures: seq<nat>, outputs: seq<seq<string>>,
                         v: View, ids: set<string>) {
    && Trie(transitions, v)
    && |failures| == |outputs| == |v.words|
    && (forall n :: 0 <= n < |failures| ==> failures[n] == 0)
    && (forall id :: id in ids ==> id in v.at)
    && (forall n {:trigger OwnOutputs(outputs[n], v.words[n], ids)} | 0 <= n < |outputs| ::
          OwnOutputs(outputs[n], v.words[n], ids))
  }

  method BuildTrie(ids: set<string>)
    returns (transitions: seq<map<char, nat>>, failures: seq<nat>, outputs: seq<seq<string>>, ghost v: View)
    ensures TrieOf(transitions, failures, outputs, v, ids)
  {
    transitions, failures, outputs := [map[]], [0], [[]];
    v := View([""], map["" := 0], [0]);
    var todo := ids;
    while todo != {}
      invariant todo <= ids
      invariant TrieOf(transitions, failures, outputs, v, ids - todo)
    {
      var id :| id in todo;
      var node: nat := 0;
      for k := 0 to |id|
        invariant TrieOf(transitions, failures, outputs, v, ids - todo)
        invariant node < |v.words| && v.words[node] == id[..k]
      {
        var character := id[k];
        assert id[..k+1] == id[..k] + [character];
        if character in transitions[node] {
          node := transitions[node][character];
        } else {
          var next := |transitions|;
          AddNode(transitions, failures, outputs, v, ids - todo, node, character);
          v := Grown(v, node, character);
          transitions := WithChild(transitions, node, character);
          failures := failures + [0];
          outputs := outputs + [[]];
          node := next;
        }
      }
      assert id[..|id|] == id;
      RecordId(transitions, failures, outputs, v, ids - todo, node, id);
      outputs := outputs[node := outputs[node] + [id]];
      assert ids - (todo - {id}) == (ids - todo) + {id};
      todo := todo - {id};
    }
    assert ids - todo == ids;
  }

  lemma RecordId(transitions: seq<map<char, nat>>, failures: seq<nat>, outputs: seq<seq<string>>,
                 v: View, ids: set<string>, node: nat, id: string)
    requires TrieOf(transitions, failures, outputs, v, ids)
    requires node < |v.words| && v.words[node] == id && id !in ids
    ensures TrieOf(transitions, failures, outputs[node := outputs[node] + [id]], v, ids + {id})
  {
    var o := outputs[node := outputs[node] + [id]];
    forall n | 0 <= n < |o| ensures OwnOutputs(o[n], v.words[n], ids + {id}) {
      assert OwnOutputs(outputs[n], v.words[n], ids);
    }
  }

  /** A new last node, reached from `node` by c. */
  function WithChild(transitions: seq<map<char, nat>>, node: nat, c: char): seq<map<char, nat>>
    requires node < |transitions|
  {
    var next: nat := |transitions|;
    var row: map<char, nat> := transitions[node][c := next];
    transitions[node := row] + [map[]]
  }

  ghost function Grown(v: View, node: nat, c: char): View
    requires node < |v.words|
  {
    var u := v.words[node] + [c];
    var next: nat := |v.words|;
    View(v.words + [u], v.at[u := next], v.parent + [node])
  }

  lemma AddNode(transitions: seq<map<char, nat>>, failures: seq<nat>, outputs: seq<seq<string>>,
                v: View, ids: set<string>, node: nat, c: char)
    requires TrieOf(transitions, failures, outputs, v, ids)
    requires node < |v.words| && c !in transitions[node]
    ensures TrieOf(WithChild(transitions, node, c), failures + [0], outputs + [[]], Grown(v, node, c), ids)
  {
    var t, g := WithChild(transitions, node, c), Grown(v, node, c);
    ChildOf(transitions, v, node, c);
    forall n | 0 < n < |g.words| ensures HangsFrom(t, g.words, n, g.parent[n]) {
      if n < |v.words| {
        assert HangsFrom(transitions, v.words, n, v.parent[n]);
      }
    }
    forall n | 0 <= n < |g.words| ensures OwnOutputs((outputs + [[]])[n], g.words[n], ids) {
      if n < |v.words| {
        assert OwnOutputs(outputs[n], v.words[n], ids);
      } else {
        assert g.words[n] !in ids;
      }
    }
  }

  // ---- failure links ------------------------------------------------------------------------

  ghost predicate AllSuffixes(outputs: seq<string>, word: string, ids: set<string>) {
    forall id :: id in outputs <==> id in ids && Suffix(id, word)
  }

  /** Node n's failure link leads to the longest other word that ends its word. */
  ghost predicate FailsTo(failures: seq<nat>, v: View, n: nat)
    requires |failures| == |v.words| && n < |failures|
  {
    failures[n] < |v.words| && Longest(v.at, v.words[n], |v.words[n]|, v.words[failures[n]])
  }

  /** Node n has its final failure link and its final outputs. */
  ghost predicate Done(failures: seq<nat>, outputs: seq<seq<string>>, v: View, ids: set<string>, n: nat)
    requires |failures| == |outputs| == |v.words| && n < |failures|
  {
    && FailsTo(failures, v, n)
    && AllSuffixes(outputs[n], v.words[n], ids)
  }

  /** Links and outputs are final for `linked` nodes and untouched for the others. */
  ghost predicate Linking(failures: seq<nat>, outputs: seq<seq<string>>, v: View, ids: set<string>, linked: set<nat>) {
    && |failures| == |outputs| == |v.words| > 0
    && v.words[0] == "" && outputs[0] == []
    && (forall n :: n in linked ==> 0 < n < |v.words|)
    && (forall n {:trigger Done(failures, outputs, v, ids, n)} :: n in linked ==> Done(failures, outputs, v, ids, n))
    && (forall n {:trigger OwnOutputs(outputs[n], v.words[n], ids)} ::
          0 < n < |v.words| && n !in linked ==> OwnOutputs(outputs[n], v.words[n], ids))
  }

  /** An id ends a word either as the whole word or by ending the word's failure target. */
  lemma EndsWordOrTarget(at: map<string, nat>, w: string, target: string, id: string)
    requires Longest(at, w, |w|, target) && id in at
    ensures Suffix(id, w) <==> id == w || Suffix(id, target)
  {
    if Suffix(id, w) && id != w {
      WholeSuffix(id, w);
      SuffixOfSuffix(id, target, w);
    }
    if Suffix(id, target) {
      SuffixTransitive(id, target, w);
    }
  }

  lemma MergedOutputs(own: seq<string>, inherited: seq<string>, at: map<string, nat>, ids: set<string>,
                      w: string, target: string)
    requires forall id :: id in ids ==> id in at && id != ""
    requires OwnOutputs(own, w, ids) && AllSuffixes(inherited, target, ids)
    requires Longest(at, w, |w|, target)
    ensures AllSuffixes(own + inherited, w, ids)
  {
    forall id ensures id in own + inherited <==> id in ids && Suffix(id, w) {
      assert id in own + inherited <==> id in own || id in inherited;
      if id in ids {
        EndsWordOrTarget(at, w, target, id);
      }
    }
  }

  /** Linking one more node: its outputs become all ids that end its word. */
  lemma LinkOne(failures: seq<nat>, outputs: seq<seq<string>>, v: View, ids: set<string>,
                linked: set<nat>, child: nat, target: nat)
    requires Linking(failures, outputs, v, ids, linked)
    requires forall id :: id in ids ==> id in v.at && id != ""
    requires 0 < child < |v.words| && child !in linked && (target == 0 || target in linked)
    requires target < |v.words| && Longest(v.at, v.words[child], |v.words[child]|, v.words[target])
    ensures Linking(failures[child := target], outputs[child := outputs[child] + outputs[target]],
                    v, ids, linked + {child})
  {
    assert AllSuffixes(outputs[target], v.words[target], ids) by {
      assert target in linked ==> Done(failures, outputs, v, ids, target);
    }
    MergedOutputs(outputs[child], outputs[target], v.at, ids, v.words[child], v.words[target]);
    var f, o := failures[child := target], outputs[child := outputs[child] + outputs[target]];
    forall n | n in linked + {child} ensures Done(f, o, v, ids, n) {
      assert n != child ==> Done(failures, outputs, v, ids, n);
    }
  }

  /** Follow failure links until c can be read, then read it. */
  method Advance(transitions: seq<map<char, nat>>, failures: seq<nat>, start: nat, c: char,
                 ghost v: View, ghost w: string, ghost limit: nat)
    returns (next: nat, ghost hops: nat)
    requires Trie(transitions, v) && |failures| == |v.words|
    requires start < |v.words| && Longest(v.at, w, limit, v.words[start])
    requires forall n {:trigger FailsTo(failures, v, n)} ::
               0 < n < |v.words| && |v.words[n]| <= |v.words[start]| ==> FailsTo(failures, v, n)
    ensures next < |v.words| && Longest(v.at, w + [c], limit + 1, v.words[next])
    ensures hops + |v.words[next]| <= |v.words[start]| + 1
  {
    var node: nat := start;
    hops := 0;
    while node != 0 && c !in transitions[node]
      invariant node < |v.words| && Extensible(v.at, w, limit, c, v.words[node])
      invariant hops + |v.words[node]| <= |v.words[start]|
      decreases |v.words[node]|
    {
      ChildOf(transitions, v, node, c);
      assert FailsTo(failures, v, node);
      HopKeepsExtensible(v.at, w, limit, c, v.words[node], v.words[failures[node]]);
      node := failures[node];
      hops := hops + 1;
    }
    ChildOf(transitions, v, node, c);
    AdvanceIsLongest(transitions, v, w, limit, c, v.words[node]);
    next := if c in transitions[node] then transitions[node][c] else 0;
  }

  // ---- breadth-first order ------------------------------------------------------------------

  /** Depths in the queue rise, and by at most one from end to end. */
  ghost predicate Layered(words: seq<string>, pending: seq<nat>, depth: nat) {
    && (forall i :: 0 <= i < |pending| ==> pending[i] < |words| && depth <= |words[pending[i]]| <= depth + 1)
    && (forall i, j :: 0 <= i < j < |pending| ==> |words[pending[i]]| <= |words[pending[j]]|)
  }

  /** The queue holds each linked node that has not been taken off yet, once, and a node is linked
      only after its parent was taken off. */
  ghost predicate Frontier(parent: seq<nat>, pending: seq<nat>, popped: set<nat>, linked: set<nat>) {
    && (forall n :: n in linked ==> 0 < n < |parent| && (parent[n] == 0 || parent[n] in popped))
    && (forall n :: n in linked <==> n in popped || n in pending)
    && (forall i :: 0 <= i < |pending| ==> pending[i] !in popped)
    && (forall i, j :: 0 <= i < j < |pending| ==> pending[i] != pending[j])
  }

  ghost predicate ChildrenLinked(transitions: seq<map<char, nat>>, n: nat, linked: set<nat>) {
    n < |transitions| && forall c :: c in transitions[n] ==> transitions[n][c] in linked
  }

  /** Adding a child of the node taken off last keeps the queue breadth-first. */
  lemma Enqueue(v: View, pending: seq<nat>, popped: set<nat>, linked: set<nat>, depth: nat, n: nat)
    requires |v.words| == |v.parent| && Frontier(v.parent, pending, popped, linked)
    requires Layered(v.words, pending, depth)
    requires n !in linked && 0 < n < |v.parent| && (v.parent[n] == 0 || v.parent[n] in popped)
    requires |v.words[n]| == depth + 1
    ensures Frontier(v.parent, pending + [n], popped, linked + {n})
    ensures Layered(v.words, pending + [n], depth)
  {
  }

  lemma Relayer(words: seq<string>, pending: seq<nat>, depth: nat)
    requires Layered(words, pending, depth) && pending != []
    ensures Layered(words, pending, |words[pending[0]]|)
  {
  }

  lemma Dequeue(parent: seq<nat>, pending: seq<nat>, popped: set<nat>, linked: set<nat>)
    requires Frontier(parent, pending, popped, linked) && pending != []
    ensures Frontier(parent, pending[1..], popped + {pending[0]}, linked)
  {
    assert pending == [pending[0]] + pending[1..];
  }

  /** When a node reaches the head of the queue, every node of at most its depth is linked. */
  lemma {:induction false} ShallowNodesLinked(transitions: seq<map<char, nat>>, v: View, pending: seq<nat>,
                                              popped: set<nat>, linked: set<nat>, n: nat)
    requires Trie(transitions, v) && pending != []
    requires Frontier(v.parent, pending, popped, linked)
    requires pending[0] < |v.words| && Layered(v.words, pending, |v.words[pending[0]]|)
    requires ChildrenLinked(transitions, 0, linked)
    requires forall m :: m in popped ==> ChildrenLinked(transitions, m, linked)
    requires 0 < n < |v.words| && |v.words[n]| <= |v.words[pending[0]]|
    ensures n in linked
    decreases |v.words[n]|
  {
    var p := v.parent[n];
    assert HangsFrom(transitions, v.words, n, p);
    if p != 0 {
      ShallowNodesLinked(transitions, v, pending, popped, linked, p);
      assert p in popped;
    }
  }

  /** Once the queue is empty, every node is linked. */
  lemma {:induction false} EveryNodeLinked(transitions: seq<map<char, nat>>, v: View, linked: set<nat>, n: nat)
    requires Trie(transitions, v)
    requires ChildrenLinked(transitions, 0, linked)
    requires forall m :: m in linked ==> ChildrenLinked(transitions, m, linked)
    requires 0 < n < |v.words|
    ensures n in linked
    decreases |v.words[n]|
  {
    var p := v.parent[n];
    assert HangsFrom(transitions, v.words, n, p);
    if p != 0 {
      EveryNodeLinked(transitions, v, linked, p);
    }
  }

  /** Every node has its final failure link and outputs. */
  ghost predicate Searchable(failures: seq<nat>, outputs: seq<seq<string>>, v: View, ids: set<string>) {
    && |failures| == |outputs| == |v.words| > 0
    && v.words[0] == "" && outputs[0] == []
    && forall n {:trigger Done(failures, outputs, v, ids, n)} ::
         0 < n < |v.words| ==> Done(failures, outputs, v, ids, n)
  }

  method LinkFailures(transitions: seq<map<char, nat>>, failures0: seq<nat>, outputs0: seq<seq<string>>,
                      ghost v: View, ghost ids: set<string>)
    returns (failures: seq<nat>, outputs: seq<seq<string>>)
    requires TrieOf(transitions, failures0, outputs0, v, ids) && "" !in ids
    ensures Searchable(failures, outputs, v, ids)
  {
    failures, outputs := failures0, outputs0;
    ghost var popped: set<nat> := {};
    ghost var linked;
    ghost var depth: nat := 0;
    var pending: seq<nat>;
    pending, linked := RootChildren(transitions, failures, outputs, v, ids);
    while pending != []
      invariant Linking(failures, outputs, v, ids, linked)
      invariant Layered(v.words, pending, depth)
      invariant Frontier(v.parent, pending, popped, linked)
      invariant ChildrenLinked(transitions, 0, linked)
      invariant forall n :: n in popped ==> ChildrenLinked(transitions, n, linked)
      decreases |v.words| - |popped|
    {
      var node := pending[0];
      Relayer(v.words, pending, depth);
      depth := |v.words[node]|;
      forall n | 0 < n < |v.words| && |v.words[n]| <= |v.words[node]| ensures n in linked {
        ShallowNodesLinked(transitions, v, pending, popped, linked, n);
      }
      failures, outputs, pending, linked :=
        LinkChildren(transitions, failures, outputs, pending, v, ids, popped, linked);
      popped := popped + {node};
      NodesAreFew(popped, |v.words|);
    }
    forall n | 0 < n < |v.words| ensures Done(failures, outputs, v, ids, n) {
      EveryNodeLinked(transitions, v, linked, n);
    }
  }

  lemma {:induction false} NodesAreFew(nodes: set<nat>, bound: nat)
    requires forall n :: n in nodes ==> n < bound
    ensures |nodes| <= bound
  {
    if bound > 0 {
      NodesAreFew(nodes - {bound - 1}, bound - 1);
    } else {
      assert nodes == {};
    }
  }

  /** The queue starts with the children of the root, which fall back to the root. */
  method RootChildren(transitions: seq<map<char, nat>>, failures: seq<nat>, outputs: seq<seq<string>>,
                      ghost v: View, ghost ids: set<string>)
    returns (pending: seq<nat>, ghost linked: set<nat>)
    requires TrieOf(transitions, failures, outputs, v, ids) && "" !in ids
    ensures Linking(failures, outputs, v, ids, linked)
    ensures Layered(v.words, pending, 0)
    ensures Frontier(v.parent, pending, {}, linked)
    ensures ChildrenLinked(transitions, 0, linked)
  {
    NothingLinked(transitions, failures, outputs, v, ids);
    hide Trie, TrieOf, Linking, Layered, Frontier;
    pending, linked := [], {};
    var keys := transitions[0].Keys;
    while keys != {}
      invariant keys <= transitions[0].Keys
      invariant Linking(failures, outputs, v, ids, linked)
      invariant Layered(v.words, pending, 0)
      invariant Frontier(v.parent, pending, {}, linked)
      invariant forall c :: c in transitions[0] ==> (c !in keys <==> transitions[0][c] in linked)
    {
      var c :| c in keys;
      var child := transitions[0][c];
      EnqueueRootChild(transitions, failures, outputs, v, ids, pending, linked, c);
      pending := pending + [child];
      linked := linked + {child};
      keys := keys - {c};
    }
  }

  lemma NothingLinked(transitions: seq<map<char, nat>>, failures: seq<nat>, outputs: seq<seq<string>>,
                      v: View, ids: set<string>)
    requires TrieOf(transitions, failures, outputs, v, ids) && "" !in ids
    ensures |transitions| > 0 && Linking(failures, outputs, v, ids, {})
    ensures Layered(v.words, [], 0) && Frontier(v.parent, [], {}, {})
  {
    assert OwnOutputs(outputs[0], v.words[0], ids);
  }

  /** A child of the root needs no link but the root, and goes last in the queue. */
  lemma EnqueueRootChild(transitions: seq<map<char, nat>>, failures: seq<nat>, outputs: seq<seq<string>>,
                         v: View, ids: set<string>, pending: seq<nat>, linked: set<nat>, c: char)
    requires TrieOf(transitions, failures, outputs, v, ids) && "" !in ids
    requires c in transitions[0] && transitions[0][c] !in linked
    requires Linking(failures, outputs, v, ids, linked)
    requires Layered(v.words, pending, 0) && Frontier(v.parent, pending, {}, linked)
    ensures Linking(failures, outputs, v, ids, linked + {transitions[0][c]})
    ensures Layered(v.words, pending + [transitions[0][c]], 0)
    ensures Frontier(v.parent, pending + [transitions[0][c]], {}, linked + {transitions[0][c]})
    ensures forall x :: x in transitions[0] && transitions[0][x] == transitions[0][c] ==> x == c
  {
    RootChild(transitions, failures, outputs, v, ids, c);
    OnlyParent(transitions, v, 0, c);
    hide Trie;
    Enqueue(v, pending, {}, linked, 0, transitions[0][c]);
  }

  lemma RootChild(transitions: seq<map<char, nat>>, failures: seq<nat>, outputs: seq<seq<string>>,
                  v: View, ids: set<string>, c: char)
    requires TrieOf(transitions, failures, outputs, v, ids) && "" !in ids
    requires c in transitions[0]
    ensures var n := transitions[0][c];
            v.words[n] == [c] && v.parent[n] == 0 && Done(failures, outputs, v, ids, n)
  {
    var n := transitions[0][c];
    assert HangsFrom(transitions, v.words, n, v.parent[n]);
    assert v.words[n] == [c] && |v.words[v.parent[n]]| == 0;
    assert v.words[v.parent[n]] == v.words[0];
    assert OwnOutputs(outputs[n], v.words[n], ids);
    forall id ensures id in outputs[n] <==> id in ids && Suffix(id, v.words[n]) {
      if id in ids && Suffix(id, v.words[n]) {
        assert id == v.words[n];
      }
    }
  }

  /** The children of the node at the head of the queue are not linked yet. */
  lemma ChildrenAreNew(transitions: seq<map<char, nat>>, v: View, pending: seq<nat>, popped: set<nat>, linked: set<nat>)
    requires Trie(transitions, v) && pending != [] && pending[0] < |v.words| && pending[0] > 0
    requires Frontier(v.parent, pending, popped, linked)
    ensures forall c :: c in transitions[pending[0]] ==> transitions[pending[0]][c] !in linked
  {
    forall c | c in transitions[pending[0]] ensures transitions[pending[0]][c] !in linked {
      OnlyParent(transitions, v, pending[0], c);
    }
  }

  /** Linking one child and putting it last keeps the queue breadth-first. */
  lemma EnqueueChild(transitions: seq<map<char, nat>>, v: View, pending: seq<nat>, popped: set<nat>, linked: set<nat>,
                     node: nat, c: char)
    requires Trie(transitions, v) && node < |v.words| && c in transitions[node] && transitions[node][c] !in linked
    requires node in popped && Frontier(v.parent, pending, popped, linked) && Layered(v.words, pending, |v.words[node]|)
    ensures Frontier(v.parent, pending + [transitions[node][c]], popped, linked + {transitions[node][c]})
    ensures Layered(v.words, pending + [transitions[node][c]], |v.words[node]|)
    ensures forall x :: x in transitions[node] && transitions[node][x] == transitions[node][c] ==> x == c
  {
    OnlyParent(transitions, v, node, c);
    Enqueue(v, pending, popped, linked, |v.words[node]|, transitions[node][c]);
  }

  lemma LayersKeepOrder(words: seq<string>, pending: seq<nat>)
    requires pending != [] && pending[0] < |words| && Layered(words, pending, |words[pending[0]]|)
    ensures Layered(words, pending[1..], |words[pending[0]]|)
  {
  }

  lemma HeadIsLinked(transitions: seq<map<char, nat>>, failures: seq<nat>, outputs: seq<seq<string>>, v: View,
                     ids: set<string>, pending: seq<nat>, popped: set<nat>, linked: set<nat>)
    requires Trie(transitions, v) && pending != [] && Frontier(v.parent, pending, popped, linked)
    requires Linking(failures, outputs, v, ids, linked)
    ensures |transitions| == |v.words| == |v.parent| && pending[0] in linked && 0 < pending[0] < |v.words|
  {
  }

  /** Takes the first node off the queue and links its children. */
  method LinkChildren(transitions: seq<map<char, nat>>, failures0: seq<nat>, outputs0: seq<seq<string>>,
                      pending0: seq<nat>, ghost v: View, ghost ids: set<string>,
                      ghost popped: set<nat>, ghost linked0: set<nat>)
    returns (failures: seq<nat>, outputs: seq<seq<string>>, pending: seq<nat>, ghost linked: set<nat>)
    requires Trie(transitions, v) && pending0 != []
    requires forall id :: id in ids ==> id in v.at && id != ""
    requires Linking(failures0, outputs0, v, ids, linked0)
    requires pending0[0] < |v.words| && Layered(v.words, pending0, |v.words[pending0[0]]|)
    requires Frontier(v.parent, pending0, popped, linked0)
    requires forall n :: 0 < n < |v.words| && |v.words[n]| <= |v.words[pending0[0]]| ==> n in linked0
    ensures linked0 <= linked
    ensures Linking(failures, outputs, v, ids, linked)
    ensures Layered(v.words, pending, |v.words[pending0[0]]|)
    ensures Frontier(v.parent, pending, popped + {pending0[0]}, linked)
    ensures ChildrenLinked(transitions, pending0[0], linked)
  {
    hide Trie, Linking, Layered, Frontier;
    failures, outputs, linked := failures0, outputs0, linked0;
    var node := pending0[0];
    pending := pending0[1..];
    HeadIsLinked(transitions, failures, outputs, v, ids, pending0, popped, linked);
    Dequeue(v.parent, pending0, popped, linked0);
    LayersKeepOrder(v.words, pending0);
    ChildrenAreNew(transitions, v, pending0, popped, linked0);
    var characters := transitions[node].Keys;
    while characters != {}
      invariant characters <= transitions[node].Keys
      invariant linked0 <= linked
      invariant Linking(failures, outputs, v, ids, linked)
      invariant Layered(v.words, pending, |v.words[node]|)
      invariant Frontier(v.parent, pending, popped + {node}, linked)
      invariant forall c :: c in transitions[node] ==> (c !in characters <==> transitions[node][c] in linked)
    {
      var character :| character in characters;
      var child := transitions[node][character];
      EnqueueChild(transitions, v, pending, popped + {node}, linked, node, character);
      pending := pending + [child];
      failures, outputs := LinkChild(transitions, failures, outputs, v, ids, linked, node, character);
      linked := linked + {child};
      characters := characters - {character};
    }
  }

  /** Gives one child its failure link and the outputs it inherits through it. */
  method LinkChild(transitions: seq<map<char, nat>>, failures0: seq<nat>, outputs0: seq<seq<string>>,
                   ghost v: View, ghost ids: set<string>, ghost linked: set<nat>, node: nat, character: char)
    returns (failures: seq<nat>, outputs: seq<seq<string>>)
    requires Trie(transitions, v) && node in linked
    requires forall id :: id in ids ==> id in v.at && id != ""
    requires Linking(failures0, outputs0, v, ids, linked)
    requires forall n :: 0 < n < |v.words| && |v.words[n]| <= |v.words[node]| ==> n in linked
    requires character in transitions[node] && transitions[node][character] !in linked
    ensures Linking(failures, outputs, v, ids, linked + {transitions[node][character]})
  {
    failures, outputs := failures0, outputs0;
    var child := transitions[node][character];
    assert Done(failures, outputs, v, ids, node);
    var fallback := failures[node];
    forall n {:trigger FailsTo(failures, v, n)} | 0 < n < |v.words| && |v.words[n]| <= |v.words[fallback]|
      ensures FailsTo(failures, v, n) {
      assert Done(failures, outputs, v, ids, n);
    }
    var target, _ := Advance(transitions, failures, fallback, character, v, v.words[node], |v.words[node]|);
    LinkOne(failures, outputs, v, ids, linked, child, target);
    failures := failures[child := target];
    outputs := outputs[child := outputs[child] + outputs[failures[child]]];
  }

  lemma DropLast(s: string, c: char)
    ensures (s + [c])[..|s + [c]|-1] == s
  {
  }

  lemma OnlyParent(transitions: seq<map<char, nat>>, v: View, node: nat, c: char)
    requires Trie(transitions, v) && node < |v.words| && c in transitions[node]
    ensures v.parent[transitions[node][c]] == node
    ensures v.words[transitions[node][c]] == v.words[node] + [c]
    ensures forall x :: x in transitions[node] && transitions[node][x] == transitions[node][c] ==> x == c
  {
    var child := transitions[node][c];
    assert HangsFrom(transitions, v.words, child, v.parent[child]);
    DropLast(v.words[node], c);
    DropLast(v.words[v.parent[child]], v.words[child][|v.words[child]|-1]);
    assert v.at[v.words[node]] == node && v.at[v.words[v.parent[child]]] == v.parent[child];
    forall x | x in transitions[node] && transitions[node][x] == child ensures x == c {
      assert v.words[child] == v.words[node] + [x];
      assert v.words[child][|v.words[node]|] == x;
    }
  }

  // ---- the scan -----------------------------------------------------------------------------

  /** Exactly the ids referenced so far have been collected. */
  ghost predicate Collected(referenced: set<string>, text: string, ids: set<string>, word: char -> bool, limit: nat) {
    forall id :: id in referenced <==> id in ids && ReferencedBy(text, id, word, limit)
  }

  /** The id occurs, delimited, right before `end`. */
  ghost predicate EndsAt(text: string, id: string, word: char -> bool, end: nat)
    requires end <= |text|
  {
    |id| <= end && OccursAt(text, id, end - |id|) && Delimited(text, end - |id|, end, word)
  }

  lemma SuffixOccurs(text: string, end: nat, id: string)
    requires end <= |text|
    ensures Suffix(id, text[..end]) <==> |id| <= end && OccursAt(text, id, end - |id|)
  {
    if |id| <= end {
      assert text[..end][end-|id|..] == text[end-|id|..end];
    }
  }

  lemma EndsLongest(at: map<string, nat>, w: string, longest: string, id: string)
    requires Longest(at, w, |w| + 1, longest) && id in at
    ensures Suffix(id, longest) <==> Suffix(id, w)
  {
    if Suffix(id, w) {
      SuffixOfSuffix(id, longest, w);
    }
    if Suffix(id, longest) {
      SuffixTransitive(id, longest, w);
    }
  }

  /** The outputs at the current node are the ids that end here. */
  lemma OutputsEndHere(failures: seq<nat>, outputs: seq<seq<string>>, v: View, ids: set<string>,
                       text: string, end: nat, node: nat)
    requires Searchable(failures, outputs, v, ids) && node < |v.words|
    requires forall x :: x in ids ==> x in v.at && x != ""
    requires end <= |text| && Longest(v.at, text[..end], end + 1, v.words[node])
    ensures forall id :: id in outputs[node] <==> id in ids && |id| <= end && OccursAt(text, id, end - |id|)
  {
    assert AllSuffixes(outputs[node], v.words[node], ids) by {
      assert node != 0 ==> Done(failures, outputs, v, ids, node);
    }
    forall id ensures id in outputs[node] <==> id in ids && |id| <= end && OccursAt(text, id, end - |id|) {
      if id in ids {
        EndsLongest(v.at, text[..end], v.words[node], id);
        SuffixOccurs(text, end, id);
      }
    }
  }

  /** The ids referenced up to `end` are those referenced before it and those ending there. */
  lemma ReferencedStep(text: string, id: string, word: char -> bool, end: nat)
    requires 0 < end <= |text|
    ensures ReferencedBy(text, id, word, end) <==>
              ReferencedBy(text, id, word, end - 1) || EndsAt(text, id, word, end)
  {
    if EndsAt(text, id, word, end) {
      var start := end - |id|;
      assert OccursAt(text, id, start) && start + |id| <= end && Delimited(text, start, start + |id|, word);
    }
  }

  lemma ReferencedLater(text: string, id: string, word: char -> bool, early: nat, late: nat)
    requires ReferencedBy(text, id, word, early) && early <= late
    ensures ReferencedBy(text, id, word, late)
  {
    var start :| 0 <= start <= |text| && OccursAt(text, id, start) && start + |id| <= early
      && Delimited(text, start, start + |id|, word);
    assert start + |id| <= late;
  }

  /** The finished automaton for `ids`. */
  ghost predicate Ready(transitions: seq<map<char, nat>>, failures: seq<nat>, outputs: seq<seq<string>>,
                        v: View, ids: set<string>) {
    && Trie(transitions, v) && Searchable(failures, outputs, v, ids)
    && forall x :: x in ids ==> x in v.at && x != ""
  }

  method BuildAutomaton(ids: set<string>)
    returns (transitions: seq<map<char, nat>>, failures: seq<nat>, outputs: seq<seq<string>>, ghost v: View)
    requires "" !in ids
    ensures Ready(transitions, failures, outputs, v, ids)
  {
    transitions, failures, outputs, v := BuildTrie(ids);
    failures, outputs := LinkFailures(transitions, failures, outputs, v, ids);
  }

  /** The pass over the text. */
  method Scan(text: string, ids: set<string>, word: char -> bool)
    returns (referenced: set<string>, ghost hops: nat)
    requires "" !in ids
    ensures Collected(referenced, text, ids, word, |text|)
    ensures hops <= |text|
  {
    ghost var v;
    var transitions, failures, outputs;
    transitions, failures, outputs, v := BuildAutomaton(ids);
    referenced, hops := {}, 0;
    var node: nat := 0;
    var end := 0;
    while end < |text|
      invariant end <= |text|
      invariant Collected(referenced, text, ids, word, end)
      invariant node < |v.words| && Longest(v.at, text[..end], end + 1, v.words[node])
      invariant hops + |v.words[node]| <= end
    {
      ghost var more;
      node, referenced, more := Read(transitions, failures, outputs, v, text, ids, word, end, node, referenced);
      hops := hops + more;
      end := end + 1;
      if |referenced| == |ids| {
        AllFound(text, ids, word, end, referenced);
        return;
      }
    }
  }

  /** Exactly the non-empty ids that the per-id search finds, in one pass over the text whose failure
      hops never exceed the text's length. */
  method FindReferences(text: string, ids: set<string>, word: char -> bool)
    returns (referenced: set<string>, ghost hops: nat)
    ensures referenced == set id | id in ids && HasRunReference(text, id, word)
    ensures hops <= |text|
  {
    var named := set id | id in ids && id != "";
    hops := 0;
    if text == "" || named == {} {
      NothingInEmptyText(text, word);
      return {}, hops;
    }
    referenced, hops := Scan(text, named, word);
  }

  lemma NothingInEmptyText(text: string, word: char -> bool)
    ensures text == "" ==> forall id :: !HasRunReference(text, id, word)
  {
    if text == "" {
      forall id ensures !HasRunReference(text, id, word) {
      }
    }
  }

  lemma EveryNodeFails(failures: seq<nat>, outputs: seq<seq<string>>, v: View, ids: set<string>)
    requires Searchable(failures, outputs, v, ids)
    ensures forall n {:trigger FailsTo(failures, v, n)} :: 0 < n < |v.words| ==> FailsTo(failures, v, n)
  {
    forall n {:trigger FailsTo(failures, v, n)} | 0 < n < |v.words| ensures FailsTo(failures, v, n) {
      assert Done(failures, outputs, v, ids, n);
    }
  }

  /** Reads one character and collects the ids that end with it. */
  method Read(transitions: seq<map<char, nat>>, failures: seq<nat>, outputs: seq<seq<string>>, ghost v: View,
              text: string, ghost ids: set<string>, word: char -> bool, end: nat, node: nat, before: set<string>)
    returns (next: nat, referenced: set<string>, ghost hops: nat)
    requires Ready(transitions, failures, outputs, v, ids) && end < |text|
    requires Collected(before, text, ids, word, end)
    requires node < |v.words| && Longest(v.at, text[..end], end + 1, v.words[node])
    ensures next < |v.words| && Longest(v.at, text[..end+1], end + 2, v.words[next])
    ensures hops + |v.words[next]| <= |v.words[node]| + 1
    ensures Collected(referenced, text, ids, word, end + 1)
  {
    EveryNodeFails(failures, outputs, v, ids);
    next, hops := Advance(transitions, failures, node, text[end], v, text[..end], end + 1);
    assert text[..end] + [text[end]] == text[..end+1];
    OutputsEndHere(failures, outputs, v, ids, text, end + 1, next);
    referenced := Collect(text, ids, word, end + 1, outputs[next], before);
  }

  /** Keeps those of the ids ending at `end` that are delimited there. */
  method Collect(text: string, ghost ids: set<string>, word: char -> bool, end: nat, ending: seq<string>,
                 before: set<string>)
    returns (referenced: set<string>)
    requires 0 < end <= |text| && Collected(before, text, ids, word, end - 1)
    requires forall id :: id in ending <==> id in ids && |id| <= end && OccursAt(text, id, end - |id|)
    ensures Collected(referenced, text, ids, word, end)
  {
    referenced := before;
    for k := 0 to |ending|
      invariant before <= referenced
      invariant forall j :: 0 <= j < k && EndsAt(text, ending[j], word, end) ==> ending[j] in referenced
      invariant forall id :: id in referenced - before ==> id in ids && EndsAt(text, id, word, end)
    {
      var id := ending[k];
      assert id in ending;
      if Delimited(text, end - |id|, end, word) {
        referenced := referenced + {id};
      }
    }
    forall id ensures id in referenced <==> id in ids && ReferencedBy(text, id, word, end) {
      ReferencedStep(text, id, word, end);
    }
  }

  /** Stopping early is sound: nothing is left to find. */
  lemma AllFound(text: string, ids: set<string>, word: char -> bool, end: nat, referenced: set<string>)
    requires end <= |text| && Collected(referenced, text, ids, word, end) && |referenced| == |ids|
    ensures Collected(referenced, text, ids, word, |text|)
  {
    assert forall id :: id in referenced ==> id in ids;
    SubsetOfSameSize(referenced, ids);
    forall id | id in ids ensures ReferencedBy(text, id, word, |text|) {
      assert id in referenced;
      ReferencedLater(text, id, word, end, |text|);
    }
  }

  lemma SubsetOfSameSize(xs: set<string>, ys: set<string>)
    requires xs <= ys && |xs| == |ys|
    ensures xs == ys
  {
    assert |ys - xs| == |ys| - |xs|;
  }
}
