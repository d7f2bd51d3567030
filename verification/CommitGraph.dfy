/** Commits and their ancestry.  A commit is its content, since its hash covers its parents and all it
    holds. */
module CommitGraph {
  import opened Options

  datatype Payload = Payload(sequence: int, content: string)

  /** `payload` is the coordination state that the commit holds, if it holds a valid one that can be read;
      `note` is everything else. */
  datatype Commit = Commit(parents: seq<Commit>, payload: Option<Payload>, note: string)

  predicate IsAncestor(a: Commit, c: Commit) {
    a == c || exists i :: 0 <= i < |c.parents| && IsAncestor(a, c.parents[i])
  }

  lemma {:induction false} AncestorTransitive(a: Commit, b: Commit, c: Commit)
    requires IsAncestor(a, b) && IsAncestor(b, c)
    ensures IsAncestor(a, c)
    decreases c
  {
    if b != c {
      var i :| 0 <= i < |c.parents| && IsAncestor(b, c.parents[i]);
      AncestorTransitive(a, b, c.parents[i]);
    }
  }

  lemma {:induction false} AncestorIsSmaller(a: Commit, c: Commit)
    requires IsAncestor(a, c)
    ensures a == c || a < c
    decreases c
  {
    if a != c {
      var i :| 0 <= i < |c.parents| && IsAncestor(a, c.parents[i]);
      AncestorIsSmaller(a, c.parents[i]);
    }
  }

  lemma AncestryIsAntisymmetric(a: Commit, c: Commit)
    requires IsAncestor(a, c) && IsAncestor(c, a)
    ensures a == c
  {
    AncestorIsSmaller(a, c);
    AncestorIsSmaller(c, a);
  }

  /** On the way from a proper ancestor to the head there is a child of the ancestor. */
  lemma {:induction false} ChildToward(a: Commit, head: Commit) returns (child: Commit)
    requires IsAncestor(a, head) && a != head
    ensures IsAncestor(child, head) && a in child.parents
    decreases head
  {
    var i :| 0 <= i < |head.parents| && IsAncestor(a, head.parents[i]);
    if a == head.parents[i] {
      child := head;
    } else {
      child := ChildToward(a, head.parents[i]);
    }
  }

  lemma ParentIsAncestor(a: Commit, c: Commit)
    requires a in c.parents
    ensures IsAncestor(a, c)
  {
    var i :| 0 <= i < |c.parents| && c.parents[i] == a;
    assert IsAncestor(a, c.parents[i]);
  }
}
