/** Layered configuration: documents merged in order, and the tree that remembers which document
    every surviving value came from. */
module ConfigMerge {
  import opened Options

  /** A scalar or a list is one opaque leaf; only mappings merge. */
  datatype Value = Leaf(text: string) | Dict(entries: map<string, Value>)

  datatype Owners = Owner(name: string) | Tree(children: map<string, Owners>)

  /** A named document, or the part of one below some key. */
  datatype Layer = Layer(name: string, value: Value)

  /** Later keys override earlier ones; two mappings under one key merge. */
  function Merge(base: map<string, Value>, override: map<string, Value>): map<string, Value>
    decreases Dict(override), 0
  {
    map k | k in base.Keys + override.Keys ::
      if k !in override then base[k]
      else if k in base then MergeValue(base[k], override[k])
      else override[k]
  }

  function MergeValue(base: Value, override: Value): Value
    decreases override, 1
  {
    if base.Dict? && override.Dict? then Dict(Merge(base.entries, override.entries)) else override
  }

  function Kept(current: Option<Owners>): map<string, Owners> {
    if current.Some? && current.value.Tree? then current.value.children else map[]
  }

  function MergeSourceOwners(current: Option<Owners>, override: Value, source: string): Owners
    decreases override
  {
    if override.Leaf? then Owner(source)
    else
      var kept := Kept(current);
      var owners := map k | k in kept.Keys + override.entries.Keys ::
        if k in override.entries
        then MergeSourceOwners(if k in kept then Some(kept[k]) else None, override.entries[k], source)
        else kept[k];
      if owners == map[] then Owner(source) else Tree(owners)
  }

  // ---- folding documents --------------------------------------------------------------------

  function MergeOption(base: Option<Value>, override: Value): Value {
    if base.Some? then MergeValue(base.value, override) else override
  }

  /** The resolved value: the first layer, and every later one merged onto it. */
  function Resolved(layers: seq<Layer>): Option<Value> {
    if layers == [] then None
    else Some(MergeOption(Resolved(layers[..|layers|-1]), layers[|layers|-1].value))
  }

  function OwnersOf(layers: seq<Layer>): Option<Owners> {
    if layers == [] then None
    else Some(MergeSourceOwners(OwnersOf(layers[..|layers|-1]), layers[|layers|-1].value, layers[|layers|-1].name))
  }

  // ---- same shape ---------------------------------------------------------------------------

  predicate LeafLike(v: Value) { v.Leaf? || v.entries == map[] }

  /** The owner tree branches exactly where the value does; an empty mapping has one owner. */
  ghost predicate SameShape(v: Value, o: Owners)
    decreases v
  {
    if LeafLike(v) then o.Owner?
    else
      && o.Tree? && o.children.Keys == v.entries.Keys
      && forall k :: k in v.entries ==> SameShape(v.entries[k], o.children[k])
  }

  ghost predicate Mirrors(v: Option<Value>, o: Option<Owners>) {
    (v.Some? <==> o.Some?) && (v.Some? ==> SameShape(v.value, o.value))
  }

  function Child(v: Option<Value>, k: string): Option<Value> {
    if v.Some? && v.value.Dict? && k in v.value.entries then Some(v.value.entries[k]) else None
  }

  function OwnerChild(o: Option<Owners>, k: string): Option<Owners> {
    if o.Some? && o.value.Tree? && k in o.value.children then Some(o.value.children[k]) else None
  }

  /** One merge, seen from above: the children of the result are the merged children. */
  lemma MergeChildren(base: Option<Value>, o: Option<Owners>, override: Value, source: string, k: string)
    requires override.Dict?
    ensures Child(Some(MergeOption(base, override)), k) ==
              if k in override.entries then Some(MergeOption(Child(base, k), override.entries[k])) else Child(base, k)
    ensures OwnerChild(Some(MergeSourceOwners(o, override, source)), k) ==
              if k in override.entries
              then Some(MergeSourceOwners(OwnerChild(o, k), override.entries[k], source)) else OwnerChild(o, k)
  {
    if base.Some? && base.value.Dict? {
      assert MergeOption(base, override) == Dict(Merge(base.value.entries, override.entries));
    }
    var kept := Kept(o);
    var owners := map x | x in kept.Keys + override.entries.Keys ::
      if x in override.entries
      then MergeSourceOwners(if x in kept then Some(kept[x]) else None, override.entries[x], source)
      else kept[x];
    assert k in owners <==> k in kept || k in override.entries;
    assert owners == map[] ==> k !in owners;
  }

  /** Merging keeps the owner tree in the shape of the value. */
  lemma {:induction false} MergeKeepsShape(base: Option<Value>, o: Option<Owners>, override: Value, source: string)
    requires Mirrors(base, o)
    ensures SameShape(MergeOption(base, override), MergeSourceOwners(o, override, source))
    decreases override
  {
    if override.Dict? {
      var v, w := MergeOption(base, override), MergeSourceOwners(o, override, source);
      forall k ensures Mirrors(Child(Some(v), k), OwnerChild(Some(w), k)) {
        MergeChildren(base, o, override, source, k);
        assert Mirrors(Child(base, k), OwnerChild(o, k));
        if k in override.entries {
          MergeKeepsShape(Child(base, k), OwnerChild(o, k), override.entries[k], source);
        }
      }
      ChildrenGiveShape(v, w);
    }
  }

  lemma ChildrenGiveShape(v: Value, w: Owners)
    requires v.Dict? && w != Tree(map[])
    requires forall k :: Mirrors(Child(Some(v), k), OwnerChild(Some(w), k))
    ensures SameShape(v, w)
  {
    forall k ensures k in v.entries <==> OwnerChild(Some(w), k).Some? {
      assert Mirrors(Child(Some(v), k), OwnerChild(Some(w), k));
      assert Child(Some(v), k).Some? <==> k in v.entries;
    }
    assert w.Tree? ==> w.children.Keys == v.entries.Keys by {
      forall k | w.Tree? ensures k in w.children <==> k in v.entries {
        assert OwnerChild(Some(w), k).Some? <==> k in w.children;
      }
    }
    if !LeafLike(v) {
      var some :| some in v.entries;
      assert Child(Some(v), some).Some?;
      forall k ensures k in v.entries <==> k in w.children {
        assert Child(Some(v), k).Some? <==> k in v.entries;
      }
      forall k | k in v.entries ensures SameShape(v.entries[k], w.children[k]) {
        assert Mirrors(Child(Some(v), k), OwnerChild(Some(w), k));
      }
    }
  }

  /** The owner tree of any list of documents has the shape of their merged value. */
  lemma {:induction false} OwnersMirrorValue(layers: seq<Layer>)
    ensures Mirrors(Resolved(layers), OwnersOf(layers))
  {
    if layers != [] {
      var front, last := layers[..|layers|-1], layers[|layers|-1];
      OwnersMirrorValue(front);
      MergeKeepsShape(Resolved(front), OwnersOf(front), last.value, last.name);
    }
  }

  // ---- who wrote a leaf ---------------------------------------------------------------------

  function At(v: Option<Value>, path: seq<string>): Option<Value>
    decreases path
  {
    if path == [] then v else At(Child(v, path[0]), path[1..])
  }

  function OwnerAt(o: Option<Owners>, path: seq<string>): Option<Owners>
    decreases path
  {
    if path == [] then o else OwnerAt(OwnerChild(o, path[0]), path[1..])
  }

  predicate Holds(layer: Layer, path: seq<string>) { At(Some(layer.value), path).Some? }

  predicate IsLeaf(v: Option<Value>, path: seq<string>) { At(v, path).Some? && LeafLike(At(v, path).value) }

  ghost predicate LastHolder(layers: seq<Layer>, path: seq<string>, j: nat) {
    && j < |layers| && Holds(layers[j], path)
    && forall i :: j < i < |layers| ==> !Holds(layers[i], path)
  }

  /** At a leaf of the merged value, the document just merged owns what it holds and nothing else. */
  lemma {:induction false} MergeAtLeaf(base: Option<Value>, o: Option<Owners>, override: Value, source: string,
                                       path: seq<string>)
    requires Mirrors(base, o)
    requires IsLeaf(Some(MergeOption(base, override)), path)
    ensures At(Some(override), path).Some? ==>
              && At(Some(MergeOption(base, override)), path) == At(Some(override), path)
              && OwnerAt(Some(MergeSourceOwners(o, override, source)), path) == Some(Owner(source))
    ensures At(Some(override), path).None? ==>
              && At(Some(MergeOption(base, override)), path) == At(base, path)
              && OwnerAt(Some(MergeSourceOwners(o, override, source)), path) == OwnerAt(o, path)
    decreases path
  {
    MergeKeepsShape(base, o, override, source);
    if path != [] && override.Dict? {
      var k := path[0];
      MergeChildren(base, o, override, source, k);
      assert Mirrors(Child(base, k), OwnerChild(o, k));
      if k in override.entries {
        MergeAtLeaf(Child(base, k), OwnerChild(o, k), override.entries[k], source, path[1..]);
      } else {
        NothingBelowNone(path[1..]);
      }
    } else if path != [] {
      NothingBelowNone(path[1..]);
    }
  }

  lemma {:induction false} NothingBelowNone(path: seq<string>)
    ensures At(None, path) == None
  {
    if path != [] {
      NothingBelowNone(path[1..]);
    }
  }

  /** Each leaf of the merged value comes from, and is owned by, the last document that holds it. */
  lemma {:induction false} LastWriterOwnsLeaf(layers: seq<Layer>, path: seq<string>) returns (j: nat)
    requires IsLeaf(Resolved(layers), path)
    ensures LastHolder(layers, path, j)
    ensures At(Resolved(layers), path) == At(Some(layers[j].value), path)
    ensures OwnerAt(OwnersOf(layers), path) == Some(Owner(layers[j].name))
  {
    if layers == [] {
      NothingBelowNone(path);
      assert false;
    } else {
      var front, last := layers[..|layers|-1], layers[|layers|-1];
      OwnersMirrorValue(front);
      MergeAtLeaf(Resolved(front), OwnersOf(front), last.value, last.name, path);
      if Holds(last, path) {
        j := |layers| - 1;
      } else {
        j := LastWriterOwnsLeaf(front, path);
      }
    }
  }

  // ---- naming the sources of one setting ----------------------------------------------------

  /** The part of each document below `key`, for the documents that have one. */
  function Below(layers: seq<Layer>, key: seq<string>): seq<Layer> {
    if layers == [] then []
    else
      var last := layers[|layers|-1];
      Below(layers[..|layers|-1], key) +
      (if Holds(last, key) then [Layer(last.name, At(Some(last.value), key).value)] else [])
  }

  function OwnerNames(o: Owners): set<string> {
    match o
    case Owner(name) => {name}
    case Tree(children) => set k, n | k in children && n in OwnerNames(children[k]) :: n
  }

  function Contributing(owners: Option<Owners>): set<string> {
    if owners.Some? then OwnerNames(owners.value) else {"default"}
  }

  /** The names of the layers that contribute, in load order. */
  function NamesAmong(layers: seq<Layer>, contributing: set<string>): (names: seq<string>)
    ensures forall n :: n in names <==> n in contributing && exists i :: 0 <= i < |layers| && layers[i].name == n
  {
    if layers == [] then []
    else
      var last := layers[|layers|-1].name;
      NamesAmong(layers[..|layers|-1], contributing) + (if last in contributing then [last] else [])
  }

  function ReportedNames(layers: seq<Layer>, owners: Option<Owners>): seq<string> {
    var found := NamesAmong(layers, Contributing(owners)); if found == [] then ["default"] else found
  }

  /** The documents named as the source of a setting, in load order. */
  method SettingSource(layers: seq<Layer>, key: seq<string>) returns (names: seq<string>)
    ensures names == ReportedNames(layers, OwnersOf(Below(layers, key)))
  {
    var owners: Option<Owners> := None;
    for i := 0 to |layers|
      invariant owners == OwnersOf(Below(layers[..i], key))
    {
      assert layers[..i+1][..i] == layers[..i];
      var found := At(Some(layers[i].value), key);
      if found.Some? {
        var part := Layer(layers[i].name, found.value);
        assert Below(layers[..i+1], key) == Below(layers[..i], key) + [part];
        assert (Below(layers[..i], key) + [part])[..|Below(layers[..i], key)|] == Below(layers[..i], key);
        owners := Some(MergeSourceOwners(owners, found.value, layers[i].name));
      } else {
        assert Below(layers[..i+1], key) == Below(layers[..i], key);
      }
    }
    assert layers[..|layers|] == layers;
    var contributing := Contributing(owners);
    names := [];
    for i := 0 to |layers|
      invariant names == NamesAmong(layers[..i], contributing)
    {
      assert layers[..i+1][..i] == layers[..i];
      if layers[i].name in contributing {
        names := names + [layers[i].name];
      }
    }
    if names == [] {
      names := ["default"];
    }
  }

  lemma {:induction false} AtConcat(v: Option<Value>, key: seq<string>, path: seq<string>)
    ensures At(v, key + path) == At(At(v, key), path)
    decreases key
  {
    if key == [] {
      assert key + path == path;
    } else {
      assert (key + path)[1..] == key[1..] + path;
      AtConcat(Child(v, key[0]), key[1..], path);
    }
  }

  lemma {:induction false} OwnerAtConcat(o: Option<Owners>, key: seq<string>, path: seq<string>)
    ensures OwnerAt(o, key + path) == OwnerAt(OwnerAt(o, key), path)
    decreases key
  {
    if key == [] {
      assert key + path == path;
    } else {
      assert (key + path)[1..] == key[1..] + path;
      OwnerAtConcat(OwnerChild(o, key[0]), key[1..], path);
    }
  }

  lemma {:induction false} MirrorsBelow(v: Option<Value>, o: Option<Owners>, key: seq<string>)
    requires Mirrors(v, o)
    ensures Mirrors(At(v, key), OwnerAt(o, key))
    decreases key
  {
    if key != [] {
      MirrorsBelow(Child(v, key[0]), OwnerChild(o, key[0]), key[1..]);
    }
  }

  lemma LeafBelowChild(v: Value, k: string, path: seq<string>)
    requires v.Dict? && k in v.entries
    ensures At(Some(v), [k] + path) == At(Some(v.entries[k]), path)
  {
    assert ([k] + path)[1..] == path;
  }

  /** Owner trees of one shape that agree on every leaf are equal. */
  lemma {:induction false} LeavesDetermineOwners(v: Value, o: Owners, p: Owners)
    requires SameShape(v, o) && SameShape(v, p)
    requires forall path :: IsLeaf(Some(v), path) ==> OwnerAt(Some(o), path) == OwnerAt(Some(p), path)
    ensures o == p
    decreases v
  {
    if LeafLike(v) {
      assert IsLeaf(Some(v), []);
    } else {
      forall k | k in v.entries ensures o.children[k] == p.children[k] {
        forall path | IsLeaf(Some(v.entries[k]), path)
          ensures OwnerAt(Some(o.children[k]), path) == OwnerAt(Some(p.children[k]), path)
        {
          LeafBelowChild(v, k, path);
          assert IsLeaf(Some(v), [k] + path) && ([k] + path)[1..] == path;
        }
        LeavesDetermineOwners(v.entries[k], o.children[k], p.children[k]);
      }
    }
  }

  // ---- what one document does to one path ---------------------------------------------------

  /** The value has something other than a mapping on the way to the path. */
  predicate Cuts(v: Value, path: seq<string>)
    decreases path
  {
    path != [] && (v.Leaf? || (path[0] in v.entries && Cuts(v.entries[path[0]], path[1..])))
  }

  /** Merging one more document cuts the path off, merges below it, or leaves it alone. */
  lemma {:induction false} MergeAt(base: Option<Value>, o: Option<Owners>, override: Value, source: string,
                                   path: seq<string>)
    ensures var v, w := At(Some(MergeOption(base, override)), path),
            OwnerAt(Some(MergeSourceOwners(o, override, source)), path);
            var part := At(Some(override), path);
            && (Cuts(override, path) ==> part == None && v == None && w == None)
            && (part.Some? ==> v == Some(MergeOption(At(base, path), part.value))
                               && w == Some(MergeSourceOwners(OwnerAt(o, path), part.value, source)))
            && (part.None? && !Cuts(override, path) ==> v == At(base, path) && w == OwnerAt(o, path))
    decreases path
  {
    if path != [] {
      NothingBelowNone(path[1..]);
      NoOwnerBelowNone(path[1..]);
      if override.Dict? {
        MergeChildren(base, o, override, source, path[0]);
        if path[0] in override.entries {
          MergeAt(Child(base, path[0]), OwnerChild(o, path[0]), override.entries[path[0]], source, path[1..]);
        }
      }
    }
  }

  lemma {:induction false} NoOwnerBelowNone(path: seq<string>)
    ensures OwnerAt(None, path) == None
  {
    if path != [] {
      NoOwnerBelowNone(path[1..]);
    }
  }

  /** The position after the last document that cuts the path off. */
  function CutAt(layers: seq<Layer>, path: seq<string>): (c: nat)
    ensures c <= |layers|
  {
    if layers == [] then 0
    else if Cuts(layers[|layers|-1].value, path) then |layers|
    else CutAt(layers[..|layers|-1], path)
  }

  lemma BelowOneMore(layers: seq<Layer>, last: Layer, key: seq<string>)
    ensures Below(layers + [last], key) ==
            Below(layers, key) + (if Holds(last, key) then [Layer(last.name, At(Some(last.value), key).value)] else [])
  {
    assert (layers + [last])[..|layers|] == layers;
  }

  lemma BelowMerges(layers: seq<Layer>, last: Layer, key: seq<string>)
    ensures var before, after, part := Below(layers, key), Below(layers + [last], key), At(Some(last.value), key);
            && (part.None? ==> Resolved(after) == Resolved(before) && OwnersOf(after) == OwnersOf(before))
            && (part.Some? ==> Resolved(after) == Some(MergeOption(Resolved(before), part.value))
                               && OwnersOf(after) == Some(MergeSourceOwners(OwnersOf(before), part.value, last.name)))
  {
    hide At, MergeOption, MergeSourceOwners, Resolved, OwnersOf;
    BelowOneMore(layers, last, key);
    assert Below(layers, key) + [] == Below(layers, key);
    if Holds(last, key) {
      OneMore(Below(layers, key), Layer(last.name, At(Some(last.value), key).value));
    }
  }

  /** The merged configuration has, under any key, exactly what the documents after the last cut merge to,
      with exactly their owners. */
  lemma {:induction false} CutDecides(layers: seq<Layer>, key: seq<string>)
    ensures At(Resolved(layers), key) == Resolved(Below(layers[CutAt(layers, key)..], key))
    ensures OwnerAt(OwnersOf(layers), key) == OwnersOf(Below(layers[CutAt(layers, key)..], key))
  {
    hide At, OwnerAt, MergeOption, MergeSourceOwners, Cuts;
    var c := CutAt(layers, key);
    if layers == [] {
      NothingBelowNone(key);
      NoOwnerBelowNone(key);
      assert layers[c..] == [];
    } else {
      var front, last := layers[..|layers|-1], layers[|layers|-1];
      MergeAt(Resolved(front), OwnersOf(front), last.value, last.name, key);
      if c < |layers| {
        CutDecides(front, key);
        assert layers[c..] == front[c..] + [last];
        BelowMerges(front[c..], last, key);
        hide Resolved, OwnersOf, Below;
      } else {
        CutIsLast(layers, key);
        assert layers[c..] == [];
      }
    }
  }

  lemma CutIsLast(layers: seq<Layer>, key: seq<string>)
    requires layers != []
    ensures CutAt(layers, key) == |layers| <==> Cuts(layers[|layers|-1].value, key)
  {
  }

  lemma BelowNothing(key: seq<string>)
    ensures Below([], key) == []
  {
  }

  lemma {:induction false} BelowSplits(layers: seq<Layer>, c: nat, key: seq<string>)
    requires c <= |layers|
    ensures Below(layers, key) == Below(layers[..c], key) + Below(layers[c..], key)
  {
    hide Below, Holds, At;
    if c == |layers| {
      BelowNothing(key);
      assert layers[..c] == layers && layers[c..] == [];
      assert Below(layers, key) + [] == Below(layers, key);
    } else {
      var front, last := layers[..|layers|-1], layers[|layers|-1];
      BelowSplits(front, c, key);
      assert front[..c] == layers[..c] && layers[c..] == front[c..] + [last] && layers == front + [last];
      BelowOneMore(front[c..], last, key);
      BelowOneMore(front, last, key);
    }
  }

  // ---- which document writes a leaf last ----------------------------------------------------

  predicate Overrides(v: Value, path: seq<string>) { At(Some(v), path).Some? || Cuts(v, path) }

  /** The document writes the leaf, and no later one writes it again or cuts it off. */
  ghost predicate WritesLast(layers: seq<Layer>, i: nat, path: seq<string>) {
    && i < |layers| && IsLeaf(Some(layers[i].value), path)
    && forall k :: i < k < |layers| ==> !Overrides(layers[k].value, path)
  }

  lemma {:induction false} WrittenStays(layers: seq<Layer>, i: nat, path: seq<string>)
    requires WritesLast(layers, i, path)
    ensures At(Resolved(layers), path).Some?
  {
    var front, last := layers[..|layers|-1], layers[|layers|-1];
    MergeAt(Resolved(front), OwnersOf(front), last.value, last.name, path);
    if i < |layers| - 1 {
      WrittenStays(front, i, path);
    }
  }

  /** What is there was written by some document and not cut off by a later one. */
  lemma {:induction false} FoundIsHeld(layers: seq<Layer>, path: seq<string>) returns (j: nat)
    requires At(Resolved(layers), path).Some?
    ensures LastHolder(layers, path, j) && forall k :: j < k < |layers| ==> !Cuts(layers[k].value, path)
  {
    NothingBelowNone(path);
    var front, last := layers[..|layers|-1], layers[|layers|-1];
    MergeAt(Resolved(front), OwnersOf(front), last.value, last.name, path);
    if Holds(last, path) {
      j := |layers| - 1;
    } else {
      j := FoundIsHeld(front, path);
    }
  }

  lemma SameHolder(layers: seq<Layer>, path: seq<string>, i: nat, j: nat)
    requires LastHolder(layers, path, i) && LastHolder(layers, path, j)
    ensures i == j
  {
  }

  /** A leaf of the merged value is written last by its last holder. */
  lemma LeafIsWrittenLast(layers: seq<Layer>, path: seq<string>) returns (j: nat)
    requires IsLeaf(Resolved(layers), path)
    ensures WritesLast(layers, j, path) && LastHolder(layers, path, j)
    ensures At(Resolved(layers), path) == At(Some(layers[j].value), path)
    ensures OwnerAt(OwnersOf(layers), path) == Some(Owner(layers[j].name))
  {
    j := LastWriterOwnsLeaf(layers, path);
    var i := FoundIsHeld(layers, path);
    SameHolder(layers, path, i, j);
  }

  lemma {:induction false} LeafBelow(v: Value) returns (path: seq<string>)
    ensures IsLeaf(Some(v), path)
    decreases v
  {
    path := [];
    if !LeafLike(v) {
      var k :| k in v.entries;
      var rest := LeafBelow(v.entries[k]);
      LeafBelowChild(v, k, rest);
      path := [k] + rest;
    }
  }

  lemma HoldsPrefix(layer: Layer, path: seq<string>, rest: seq<string>)
    requires Holds(layer, path + rest)
    ensures Holds(layer, path)
  {
    AtConcat(Some(layer.value), path, rest);
    NothingBelowNone(rest);
  }

  /** Below anything that is there lies a leaf; no document after the last holder wrote it. */
  lemma LeafUnder(layers: seq<Layer>, path: seq<string>, i: nat) returns (rest: seq<string>, j: nat)
    requires At(Resolved(layers), path).Some? && forall k :: i < k < |layers| ==> !Holds(layers[k], path)
    ensures IsLeaf(Resolved(layers), path + rest) && WritesLast(layers, j, path + rest) && j <= i
  {
    rest := LeafBelow(At(Resolved(layers), path).value);
    AtConcat(Resolved(layers), path, rest);
    j := LeafIsWrittenLast(layers, path + rest);
    HoldsPrefix(layers[j], path, rest);
  }

  // ---- dropping documents from the front ----------------------------------------------------

  lemma NothingAfter(layers: seq<Layer>, m: nat, path: seq<string>)
    requires m <= |layers|
    ensures m == |layers| ==> At(Resolved(layers[m..]), path) == None
  {
    NothingBelowNone(path);
  }

  lemma {:induction false} SuffixHolds(layers: seq<Layer>, m: nat, path: seq<string>)
    requires m <= |layers| && At(Resolved(layers[m..]), path).Some?
    ensures At(Resolved(layers), path).Some?
  {
    NothingBelowNone(path);
    NothingAfter(layers, m, path);
    if m < |layers| {
      var front, last := layers[..|layers|-1], layers[|layers|-1];
      assert layers[m..] == front[m..] + [last];
      OneMore(front[m..], last);
      MergeAt(Resolved(front[m..]), OwnersOf(front[m..]), last.value, last.name, path);
      MergeAt(Resolved(front), OwnersOf(front), last.value, last.name, path);
      if !Holds(last, path) {
        SuffixHolds(front, m, path);
      }
    }
  }

  lemma EmptyOver(b: Option<Value>, o: Option<Owners>, source: string)
    requires Mirrors(b, o)
    ensures MergeOption(b, Dict(map[])) == Dict(map[]) <==> (b.Some? && b.value.Dict? ==> LeafLike(b.value))
    ensures MergeOption(b, Dict(map[])) == Dict(map[]) ==> MergeSourceOwners(o, Dict(map[]), source) == Owner(source)
  {
    if b.Some? && b.value.Dict? {
      assert Merge(b.value.entries, map[]) == b.value.entries;
    }
  }

  /** A nonempty mapping that a suffix leaves is nonempty in the whole. */
  lemma SuffixFills(layers: seq<Layer>, m: nat, path: seq<string>)
    requires m <= |layers| && At(Resolved(layers[m..]), path).Some?
    requires At(Resolved(layers[m..]), path).value.Dict? && !LeafLike(At(Resolved(layers[m..]), path).value)
    ensures At(Resolved(layers), path).Some? && !LeafLike(At(Resolved(layers), path).value)
  {
    var b := At(Resolved(layers[m..]), path).value;
    var k :| k in b.entries;
    AtConcat(Resolved(layers[m..]), path, [k]);
    assert At(Some(b), [k]) == Some(b.entries[k]);
    SuffixHolds(layers, m, path + [k]);
    AtConcat(Resolved(layers), path, [k]);
    NothingBelowNone([k]);
  }

  /** A leaf that is written last from position m on is the same leaf without the documents before m. */
  lemma {:induction false} SuffixKeepsLeaf(layers: seq<Layer>, m: nat, path: seq<string>, j: nat)
    requires m <= j < |layers| && IsLeaf(Resolved(layers), path) && WritesLast(layers, j, path)
    ensures At(Resolved(layers[m..]), path) == At(Resolved(layers), path)
    ensures OwnerAt(OwnersOf(layers[m..]), path) == OwnerAt(OwnersOf(layers), path)
  {
    var front, last := layers[..|layers|-1], layers[|layers|-1];
    assert layers[m..] == front[m..] + [last];
    OneMore(front[m..], last);
    MergeAt(Resolved(front[m..]), OwnersOf(front[m..]), last.value, last.name, path);
    MergeAt(Resolved(front), OwnersOf(front), last.value, last.name, path);
    if j < |layers| - 1 {
      SuffixKeepsLeaf(front, m, path, j);
    } else if At(Some(last.value), path).value.Dict? {
      var b, o := At(Resolved(front), path), OwnerAt(OwnersOf(front), path);
      var c, p := At(Resolved(front[m..]), path), OwnerAt(OwnersOf(front[m..]), path);
      OwnersMirrorValue(front);
      OwnersMirrorValue(front[m..]);
      MirrorsBelow(Resolved(front), OwnersOf(front), path);
      MirrorsBelow(Resolved(front[m..]), OwnersOf(front[m..]), path);
      EmptyOver(b, o, last.name);
      EmptyOver(c, p, last.name);
      if c.Some? && c.value.Dict? && !LeafLike(c.value) {
        SuffixFills(front, m, path);
        LeafMerged(b, At(Some(last.value), path).value);
      }
      LeafMerged(b, At(Some(last.value), path).value);
    }
  }

  /** A merge with an empty mapping is a leaf only if it is the empty mapping. */
  lemma LeafMerged(b: Option<Value>, v: Value)
    requires v.Dict? && LeafLike(v)
    ensures LeafLike(MergeOption(b, v)) ==> MergeOption(b, v) == Dict(map[])
  {
  }

  /** A value whose leaves are all in another that has nothing more is that other. */
  lemma {:induction false} LeavesFill(v: Value, w: Option<Value>)
    requires forall path :: IsLeaf(Some(v), path) ==> At(w, path) == At(Some(v), path)
    requires forall path :: At(w, path).Some? ==> At(Some(v), path).Some?
    ensures w == Some(v)
    decreases v
  {
    if LeafLike(v) {
      assert IsLeaf(Some(v), []) && At(w, []) == w;
    } else {
      forall k | k in v.entries ensures Child(w, k) == Some(v.entries[k]) {
        forall path
          ensures At(w, [k] + path) == At(Child(w, k), path)
                  && At(Some(v), [k] + path) == At(Some(v.entries[k]), path) {
          assert ([k] + path)[1..] == path;
        }
        forall path | IsLeaf(Some(v.entries[k]), path) ensures At(Child(w, k), path) == At(Some(v.entries[k]), path) {
          assert IsLeaf(Some(v), [k] + path);
        }
        forall path | At(Child(w, k), path).Some? ensures At(Some(v.entries[k]), path).Some? {
          assert At(w, [k] + path).Some?;
        }
        LeavesFill(v.entries[k], Child(w, k));
      }
      var some :| some in v.entries;
      assert Child(w, some).Some?;
      forall k | k in w.value.entries ensures k in v.entries {
        assert [k][1..] == [] && At(w, [k]) == Child(w, k) && At(Some(v), [k]) == Child(Some(v), k);
      }
      assert w.value.entries == v.entries;
    }
  }

  /** The documents before m decide nothing exactly if none of them writes a leaf last. */
  lemma FrontDecidesNothing(layers: seq<Layer>, m: nat)
    requires m <= |layers|
    ensures OwnersOf(layers[m..]) == OwnersOf(layers) <==> forall i: nat, path :: i < m ==> !WritesLast(layers, i, path)
  {
    if OwnersOf(layers[m..]) == OwnersOf(layers) {
      forall i: nat, path | i < m ensures !WritesLast(layers, i, path) {
        if WritesLast(layers, i, path) {
          LastWriteShows(layers, m, i, path);
        }
      }
    }
    if forall i: nat, path :: i < m ==> !WritesLast(layers, i, path) {
      SameWithoutFront(layers, m);
    }
  }

  lemma LastWriteShows(layers: seq<Layer>, m: nat, i: nat, path: seq<string>)
    requires i < m <= |layers| && WritesLast(layers, i, path)
    ensures OwnersOf(layers[m..]) != OwnersOf(layers)
  {
    WrittenStays(layers, i, path);
    OwnersMirrorValue(layers);
    OwnersMirrorValue(layers[m..]);
    MirrorsBelow(Resolved(layers), OwnersOf(layers), path);
    MirrorsBelow(Resolved(layers[m..]), OwnersOf(layers[m..]), path);
    NotHeldLater(layers, m, i, path);
  }

  lemma NotHeldLater(layers: seq<Layer>, m: nat, i: nat, path: seq<string>)
    requires i < m <= |layers| && WritesLast(layers, i, path)
    ensures At(Resolved(layers[m..]), path) == None
  {
    forall k | 0 <= k < |layers[m..]| ensures !Holds(layers[m..][k], path) {
      assert layers[m..][k] == layers[m + k] && !Overrides(layers[m + k].value, path);
    }
    UnheldIsAbsent(layers[m..], path);
  }

  lemma {:induction false} UnheldIsAbsent(layers: seq<Layer>, path: seq<string>)
    requires forall k :: 0 <= k < |layers| ==> !Holds(layers[k], path)
    ensures At(Resolved(layers), path) == None
  {
    NothingBelowNone(path);
    if layers != [] {
      var front, last := layers[..|layers|-1], layers[|layers|-1];
      UnheldIsAbsent(front, path);
      MergeAt(Resolved(front), OwnersOf(front), last.value, last.name, path);
    }
  }

  lemma SameWithoutFront(layers: seq<Layer>, m: nat)
    requires m <= |layers| && forall i: nat, path :: i < m ==> !WritesLast(layers, i, path)
    ensures Resolved(layers[m..]) == Resolved(layers) && OwnersOf(layers[m..]) == OwnersOf(layers)
  {
    if layers == [] {
      assert layers[m..] == layers;
    } else {
      var v := Resolved(layers).value;
      forall path | IsLeaf(Some(v), path)
        ensures At(Resolved(layers[m..]), path) == At(Some(v), path)
                && OwnerAt(OwnersOf(layers[m..]), path) == OwnerAt(OwnersOf(layers), path)
      {
        var j := LeafIsWrittenLast(layers, path);
        SuffixKeepsLeaf(layers, m, path, j);
      }
      forall path | At(Resolved(layers[m..]), path).Some? ensures At(Some(v), path).Some? {
        SuffixHolds(layers, m, path);
      }
      LeavesFill(v, Resolved(layers[m..]));
      OwnersMirrorValue(layers);
      OwnersMirrorValue(layers[m..]);
      LeavesDetermineOwners(v, OwnersOf(layers).value, OwnersOf(layers[m..]).value);
    }
  }

  // ---- when the reported source is right ----------------------------------------------------

  /** How many parts of the setting come from documents before the last cut. */
  function Cutoff(layers: seq<Layer>, key: seq<string>): (c: nat)
    ensures c <= |Below(layers, key)|
  {
    BelowSplits(layers, CutAt(layers, key), key);
    |Below(layers[..CutAt(layers, key)], key)|
  }

  lemma PartsAfterCut(layers: seq<Layer>, key: seq<string>)
    ensures Cutoff(layers, key) <= |Below(layers, key)|
    ensures Below(layers, key)[Cutoff(layers, key)..] == Below(layers[CutAt(layers, key)..], key)
  {
    BelowSplits(layers, CutAt(layers, key), key);
  }

  /** The owners computed for a setting are its owners in the merged configuration if and only if no
      document before the last cut writes a leaf of the setting that later documents leave alone. */
  lemma SettingSourceExact(layers: seq<Layer>, key: seq<string>)
    ensures OwnersOf(Below(layers, key)) == OwnerAt(OwnersOf(layers), key) <==>
            forall i: nat, path :: i < Cutoff(layers, key) ==> !WritesLast(Below(layers, key), i, path)
  {
    PartsAfterCut(layers, key);
    CutDecides(layers, key);
    FrontDecidesNothing(Below(layers, key), Cutoff(layers, key));
  }

  /** The document owns the leaf: it writes it last, and nothing below it is written last. */
  ghost predicate OwnsLeaf(layers: seq<Layer>, j: nat, path: seq<string>) {
    WritesLast(layers, j, path) && forall i, rest :: rest != [] ==> !WritesLast(layers, i, path + rest)
  }

  lemma OwnsLeafExactly(layers: seq<Layer>, j: nat, path: seq<string>)
    ensures OwnsLeaf(layers, j, path) <==> IsLeaf(Resolved(layers), path) && LastHolder(layers, path, j)
  {
    if IsLeaf(Resolved(layers), path) && LastHolder(layers, path, j) {
      var i := LeafIsWrittenLast(layers, path);
      SameHolder(layers, path, i, j);
      forall h, rest | rest != [] ensures !WritesLast(layers, h, path + rest) {
        if WritesLast(layers, h, path + rest) {
          WrittenStays(layers, h, path + rest);
          AtConcat(Resolved(layers), path, rest);
          NothingBelowNone(rest[1..]);
        }
      }
    }
    if OwnsLeaf(layers, j, path) {
      WrittenStays(layers, j, path);
      var rest, i := LeafUnder(layers, path, j);
      assert rest == [];
      assert path + rest == path;
    }
  }

  /** The owner names of a tree are the names at the leaves. */
  lemma {:induction false} NamesAtLeaves(v: Value, o: Owners, n: string)
    requires SameShape(v, o)
    ensures n in OwnerNames(o) <==> exists path :: IsLeaf(Some(v), path) && OwnerAt(Some(o), path) == Some(Owner(n))
    decreases v
  {
    if LeafLike(v) {
      assert IsLeaf(Some(v), []) && OwnerAt(Some(o), []) == Some(o);
      forall path | IsLeaf(Some(v), path) ensures path == [] {
        if path != [] {
          NothingBelowNone(path[1..]);
        }
      }
    } else {
      forall k | k in v.entries {
        NamesAtLeaves(v.entries[k], o.children[k], n);
      }
      if n in OwnerNames(o) {
        var k :| k in o.children && n in OwnerNames(o.children[k]);
        var path :| IsLeaf(Some(v.entries[k]), path) && OwnerAt(Some(o.children[k]), path) == Some(Owner(n));
        assert ([k] + path)[1..] == path;
        assert IsLeaf(Some(v), [k] + path) && OwnerAt(Some(o), [k] + path) == Some(Owner(n));
      }
      if path :| IsLeaf(Some(v), path) && OwnerAt(Some(o), path) == Some(Owner(n)) {
        if path == [] {
          assert At(Some(v), []) == Some(v);
        } else {
          NothingBelowNone(path[1..]);
          assert path[0] in v.entries;
          assert IsLeaf(Some(v.entries[path[0]]), path[1..])
              && OwnerAt(Some(o.children[path[0]]), path[1..]) == Some(Owner(n));
          assert n in OwnerNames(o.children[path[0]]);
        }
      }
    }
  }

  /** The document name appears among the sources. */
  ghost predicate Named(layers: seq<Layer>, n: string) {
    if layers == [] then n == "default" else exists j: nat, path :: OwnsLeaf(layers, j, path) && layers[j].name == n
  }

  lemma ContributingIsNamed(layers: seq<Layer>, n: string)
    ensures n in Contributing(OwnersOf(layers)) <==> Named(layers, n)
  {
    if layers != [] {
      var v, o := Resolved(layers).value, OwnersOf(layers).value;
      OwnersMirrorValue(layers);
      NamesAtLeaves(v, o, n);
      if path :| IsLeaf(Some(v), path) && OwnerAt(Some(o), path) == Some(Owner(n)) {
        var j := LeafIsWrittenLast(layers, path);
        OwnsLeafExactly(layers, j, path);
      }
      if j: nat, path :| OwnsLeaf(layers, j, path) && layers[j].name == n {
        OwnsLeafExactly(layers, j, path);
        var i := LeafIsWrittenLast(layers, path);
        SameHolder(layers, path, i, j);
      }
    }
  }

  lemma {:induction false} SameNamesAmong(layers: seq<Layer>, c: set<string>, d: set<string>)
    ensures NamesAmong(layers, c) == NamesAmong(layers, d) <==>
              forall i :: 0 <= i < |layers| ==> (layers[i].name in c <==> layers[i].name in d)
  {
    if forall i :: 0 <= i < |layers| ==> (layers[i].name in c <==> layers[i].name in d) {
      if layers != [] {
        var front := layers[..|layers|-1];
        assert forall i :: 0 <= i < |front| ==> front[i] == layers[i];
        SameNamesAmong(front, c, d);
      }
    }
    if NamesAmong(layers, c) == NamesAmong(layers, d) {
      forall i | 0 <= i < |layers| ensures layers[i].name in c <==> layers[i].name in d {
        assert layers[i].name in c <==> layers[i].name in NamesAmong(layers, c);
        assert layers[i].name in d <==> layers[i].name in NamesAmong(layers, d);
      }
    }
  }

  predicate HasName(layers: seq<Layer>, n: string) { exists i :: 0 <= i < |layers| && layers[i].name == n }

  ghost predicate NamedAfter(parts: seq<Layer>, layers: seq<Layer>) {
    forall j {:trigger parts[j]} :: 0 <= j < |parts| ==> HasName(layers, parts[j].name)
  }

  /** The parts of a setting bear the names of documents. */
  lemma {:induction false} PartsAreLayers(layers: seq<Layer>, key: seq<string>)
    ensures NamedAfter(Below(layers, key), layers)
  {
    hide Holds, At;
    if layers != [] {
      var front, last := layers[..|layers|-1], layers[|layers|-1];
      PartsAreLayers(front, key);
      assert layers[|layers|-1] == last && forall i :: 0 <= i < |front| ==> layers[i] == front[i];
      forall n | HasName(front, n) ensures HasName(layers, n) {
        var i :| 0 <= i < |front| && front[i].name == n;
        assert layers[i].name == n;
      }
      assert HasName(layers, last.name);
    }
  }

  lemma NamedIsLayer(layers: seq<Layer>, parts: seq<Layer>)
    requires parts != [] && NamedAfter(parts, layers)
    ensures NamesAmong(layers, Contributing(OwnersOf(parts))) != []
  {
    var path := LeafBelow(Resolved(parts).value);
    var j := LeafIsWrittenLast(parts, path);
    OwnsLeafExactly(parts, j, path);
    ContributingIsNamed(parts, parts[j].name);
    assert parts[j].name in NamesAmong(layers, Contributing(OwnersOf(parts)));
  }

  /** The names returned for a setting are those of its owners in the merged configuration if and only if
      every document is named by all parts of the setting exactly when it is by the parts after the last cut. */
  lemma ReturnedNamesExact(layers: seq<Layer>, key: seq<string>)
    ensures var parts := Below(layers, key);
            ReportedNames(layers, OwnersOf(parts)) == ReportedNames(layers, OwnerAt(OwnersOf(layers), key)) <==>
            forall i :: 0 <= i < |layers| ==>
              (Named(parts, layers[i].name) <==> Named(parts[Cutoff(layers, key)..], layers[i].name))
  {
    var parts, m := Below(layers, key), Cutoff(layers, key);
    PartsAfterCut(layers, key);
    CutDecides(layers, key);
    forall i | 0 <= i < |layers|
      ensures layers[i].name in Contributing(OwnersOf(parts)) <==> Named(parts, layers[i].name)
      ensures layers[i].name in Contributing(OwnersOf(parts[m..])) <==> Named(parts[m..], layers[i].name)
    {
      ContributingIsNamed(parts, layers[i].name);
      ContributingIsNamed(parts[m..], layers[i].name);
    }
    SameNamesAmong(layers, Contributing(OwnersOf(parts)), Contributing(OwnersOf(parts[m..])));
    SameReports(layers, parts, m, key);
  }

  /** The fallback name hides no difference. */
  lemma SameReports(layers: seq<Layer>, parts: seq<Layer>, m: nat, key: seq<string>)
    requires parts == Below(layers, key) && m <= |parts|
    ensures ReportedNames(layers, OwnersOf(parts)) == ReportedNames(layers, OwnersOf(parts[m..])) <==>
            NamesAmong(layers, Contributing(OwnersOf(parts))) == NamesAmong(layers, Contributing(OwnersOf(parts[m..])))
  {
    hide Below, NamesAmong, OwnersOf, Contributing;
    PartsAreLayers(layers, key);
    assert forall j :: 0 <= j < |parts[m..]| ==> parts[m..][j] == parts[m + j];
    FallbackOrLayer(layers, parts);
    FallbackOrLayer(layers, parts[m..]);
  }

  /** Only a setting without parts falls back, and then no document bears the fallback's name. */
  lemma FallbackOrLayer(layers: seq<Layer>, parts: seq<Layer>)
    requires NamedAfter(parts, layers)
    ensures NamesAmong(layers, Contributing(OwnersOf(parts))) == [] ==>
              forall i :: 0 <= i < |layers| ==> layers[i].name != "default"
    ensures "default" in NamesAmong(layers, Contributing(OwnersOf(parts))) ==>
              exists i :: 0 <= i < |layers| && layers[i].name == "default"
  {
    if parts != [] {
      NamedIsLayer(layers, parts);
    } else {
      DefaultAmong(layers);
    }
  }

  lemma DefaultAmong(layers: seq<Layer>)
    ensures NamesAmong(layers, {"default"}) == [] || "default" in NamesAmong(layers, {"default"})
    ensures "default" in NamesAmong(layers, {"default"}) <==>
              exists i :: 0 <= i < |layers| && layers[i].name == "default"
  {
    var names := NamesAmong(layers, {"default"});
    if names != [] {
      assert names[0] in names;
    }
  }

  function Section(setting: Value): Value { Dict(map["a" := Dict(map["b" := setting])]) }

  function StaleExample(): seq<Layer> {
    [Layer("default", Section(Dict(map["x" := Leaf("1")]))),
     Layer("garden.yaml", Dict(map["a" := Leaf("off")])),
     Layer("garden.local.yaml", Section(Dict(map["y" := Leaf("2")])))]
  }

  /** It can fail: a middle document that replaces the whole section by a scalar drops the first
      document's value, yet that document is still named. */
  lemma StaleSource()
    ensures At(Resolved(StaleExample()), ["a", "b"]) == Some(Dict(map["y" := Leaf("2")]))
    ensures OwnerAt(OwnersOf(StaleExample()), ["a", "b"]) == Some(Tree(map["y" := Owner("garden.local.yaml")]))
    ensures OwnersOf(Below(StaleExample(), ["a", "b"])).Some?
    ensures "default" in OwnerNames(OwnersOf(Below(StaleExample(), ["a", "b"])).value)
  {
    hide At, OwnerAt, OwnersOf, Resolved, StaleExample, Below, OwnerNames;
    StaleSection();
    SectionPath(Resolved(StaleExample()), OwnersOf(StaleExample()));
    StaleParts();
    StaleName();
  }

  lemma SectionPath(v: Option<Value>, o: Option<Owners>)
    ensures At(v, ["a", "b"]) == Child(Child(v, "a"), "b")
    ensures OwnerAt(o, ["a", "b"]) == OwnerChild(OwnerChild(o, "a"), "b")
  {
    assert ["a", "b"][1..] == ["b"] && ["b"][1..] == [];
  }

  /** Merging two documents into one more. */
  lemma OneMore(layers: seq<Layer>, last: Layer)
    ensures Resolved(layers + [last]) == Some(MergeOption(Resolved(layers), last.value))
    ensures OwnersOf(layers + [last]) == Some(MergeSourceOwners(OwnersOf(layers), last.value, last.name))
  {
    assert (layers + [last])[..|layers|] == layers;
  }

  /** A scalar takes the whole section. */
  lemma ScalarReplaces(v: Option<Value>, o: Option<Owners>, scalar: string, source: string)
    ensures var layer := Dict(map["a" := Leaf(scalar)]);
            && Child(Some(MergeOption(v, layer)), "a") == Some(Leaf(scalar))
            && OwnerChild(Some(MergeSourceOwners(o, layer, source)), "a") == Some(Owner(source))
  {
    MergeChildren(v, o, Dict(map["a" := Leaf(scalar)]), source, "a");
  }

  /** After a scalar, a mapping starts the section anew. */
  lemma SectionRestarts(v: Option<Value>, o: Option<Owners>, scalar: string, before: string, key: string, x: string,
                        source: string)
    requires Child(v, "a") == Some(Leaf(scalar)) && OwnerChild(o, "a") == Some(Owner(before))
    ensures var setting := Dict(map[key := Leaf(x)]);
            && Child(Child(Some(MergeOption(v, Section(setting))), "a"), "b") == Some(setting)
            && OwnerChild(OwnerChild(Some(MergeSourceOwners(o, Section(setting), source)), "a"), "b") ==
                 Some(Tree(map[key := Owner(source)]))
  {
    var setting := Dict(map[key := Leaf(x)]);
    MergeChildren(v, o, Section(setting), source, "a");
    MergeChildren(Some(Leaf(scalar)), Some(Owner(before)), Dict(map["b" := setting]), source, "b");
    OneLeafOwned(key, x, source);
  }

  lemma OneLeafOwned(key: string, x: string, source: string)
    ensures MergeSourceOwners(None, Dict(map[key := Leaf(x)]), source) == Tree(map[key := Owner(source)])
  {
    var setting := Dict(map[key := Leaf(x)]);
    MergeChildren(None, None, setting, source, key);
    var o := MergeSourceOwners(None, setting, source);
    assert o.Tree? && o.children[key] == Owner(source);
    assert o.children == map[key := Owner(source)];
  }

  lemma StaleSection()
    ensures Child(Child(Resolved(StaleExample()), "a"), "b") == Some(Dict(map["y" := Leaf("2")]))
    ensures OwnerChild(OwnerChild(OwnersOf(StaleExample()), "a"), "b") ==
              Some(Tree(map["y" := Owner("garden.local.yaml")]))
  {
    var l := StaleExample();
    assert l == [l[0], l[1]] + [l[2]] && [l[0], l[1]] == [l[0]] + [l[1]];
    hide Resolved, OwnersOf, StaleExample, MergeOption, MergeSourceOwners, Section;
    OneMore([l[0]], l[1]);
    OneMore([l[0], l[1]], l[2]);
    ScalarReplaces(Resolved([l[0]]), OwnersOf([l[0]]), "off", l[1].name);
    SectionRestarts(Resolved([l[0], l[1]]), OwnersOf([l[0], l[1]]), "off", l[1].name, "y", "2", l[2].name);
  }

  /** The parts of the setting: the first and the last document's. */
  lemma StaleParts()
    ensures Below(StaleExample(), ["a", "b"]) ==
            [Layer("default", Dict(map["x" := Leaf("1")]))] + [Layer("garden.local.yaml", Dict(map["y" := Leaf("2")]))]
  {
    var l := StaleExample();
    SectionPath(Some(l[0].value), None);
    SectionPath(Some(l[1].value), None);
    SectionPath(Some(l[2].value), None);
    hide At;
    assert l[..2] == [l[0], l[1]] && [l[0], l[1]][..1] == [l[0]] && [l[0]][..0] == [];
    assert Below([l[0]], ["a", "b"]) == [Layer("default", Dict(map["x" := Leaf("1")]))];
    assert Below([l[0], l[1]], ["a", "b"]) == [Layer("default", Dict(map["x" := Leaf("1")]))];
  }

  lemma StaleName()
    ensures var parts := [Layer("default", Dict(map["x" := Leaf("1")]))]
                         + [Layer("garden.local.yaml", Dict(map["y" := Leaf("2")]))];
            OwnersOf(parts).Some? && "default" in OwnerNames(OwnersOf(parts).value)
  {
    var first, last := Layer("default", Dict(map["x" := Leaf("1")])),
      Layer("garden.local.yaml", Dict(map["y" := Leaf("2")]));
    OneMore([], first);
    OneMore([first], last);
    assert [] + [first] == [first];
    MergeChildren(None, None, first.value, first.name, "x");
    MergeChildren(Resolved([first]), OwnersOf([first]), last.value, last.name, "x");
    var o := OwnersOf([first] + [last]).value;
    assert OwnerChild(Some(o), "x") == Some(Owner("default"));
    assert "default" in OwnerNames(o.children["x"]);
  }
}
