/** Validating the history behind the ref, from its root or only since an accepted checkpoint.

    A listing of a range is any order in which a walk from the head may find the commits, backwards: each
    commit but the head stands somewhere before one of its children.  Not every child needs to come later,
    since such a walk may follow dates that disagree with the ancestry. */
module GitHistory {
  import opened Options
  import opened CommitGraph

  /** Reachable from the head and not from the start. */
  predicate InRange(c: Commit, start: Option<Commit>, head: Commit) {
    IsAncestor(c, head) && (start.Some? ==> !IsAncestor(c, start.value))
  }

  /** The range without duplicates. */
  ghost predicate Lists(l: seq<Commit>, start: Option<Commit>, head: Commit) {
    && (forall c {:trigger c in l} :: c in l <==> InRange(c, start, head))
    && (forall i, j {:trigger l[i], l[j]} :: 0 <= i < j < |l| ==> l[i] != l[j])
  }

  /** The commit at i is a parent of a commit listed later. */
  ghost predicate ChildFollows(l: seq<Commit>, i: nat)
    requires i < |l|
  {
    exists j :: i < j < |l| && l[i] in l[j].parents
  }

  ghost predicate Listing(l: seq<Commit>, start: Option<Commit>, head: Commit) {
    && Lists(l, start, head)
    && forall i: nat {:trigger ChildFollows(l, i)} :: i < |l| && l[i] != head ==> ChildFollows(l, i)
  }

  /** A single-parent chain of valid states whose sequence numbers count up from zero. */
  predicate Linear(c: Commit) {
    && c.payload.Some?
    && (|| (c.parents == [] && c.payload.value.sequence == 0)
        || (|c.parents| == 1 && Linear(c.parents[0])
            && c.payload.value.sequence == c.parents[0].payload.value.sequence + 1))
  }

  /** The sequence number before the range, as the checkpoint's state says. */
  function SequenceAt(start: Option<Commit>): int
    requires start.Some? ==> start.value.payload.Some?
  {
    if start.Some? then start.value.payload.value.sequence else -1
  }

  /** The commit continues the chain after the previous one. */
  predicate Follows(c: Commit, previous: Option<Commit>)
    requires previous.Some? ==> previous.value.payload.Some?
  {
    && c.parents == (if previous.Some? then [previous.value] else [])
    && c.payload.Some? && c.payload.value.sequence == SequenceAt(previous) + 1
  }

  /** Every listed commit continues the one before it. */
  predicate Continues(l: seq<Commit>, start: Option<Commit>)
    requires start.Some? ==> start.value.payload.Some?
    ensures Continues(l, start) && l != [] ==> l[|l|-1].payload.Some?
  {
    l == [] ||
      (&& Continues(l[..|l|-1], start)
       && Follows(l[|l|-1], if |l| == 1 then start else Some(l[|l|-2])))
  }

  // ---- listings -----------------------------------------------------------------------------

  lemma HeadIsLast(l: seq<Commit>, start: Option<Commit>, head: Commit)
    requires Listing(l, start, head) && l != []
    ensures l[|l|-1] == head
  {
    assert l[|l|-1] != head ==> ChildFollows(l, |l| - 1);
  }

  /** Listing all parents before their children is one way. */
  lemma ParentsFirstIsListing(l: seq<Commit>, start: Option<Commit>, head: Commit)
    requires Lists(l, start, head)
    requires forall i, j {:trigger l[i], l[j]} :: 0 <= i < |l| && 0 <= j < |l| && l[i] in l[j].parents ==> i < j
    ensures Listing(l, start, head)
  {
    forall i: nat {:trigger ChildFollows(l, i)} | i < |l| && l[i] != head ensures ChildFollows(l, i) {
      assert l[i] in l && InRange(l[i], start, head);
      var child := ChildToward(l[i], head);
      ParentIsAncestor(l[i], child);
      if start.Some? && IsAncestor(child, start.value) {
        AncestorTransitive(l[i], child, start.value);
      }
      assert InRange(child, start, head) && child in l;
      var j :| 0 <= j < |l| && l[j] == child;
      assert l[i] in l[j].parents;
    }
  }

  lemma NothingListed(l: seq<Commit>, start: Option<Commit>, head: Commit)
    requires Listing(l, start, head) && (start.Some? ==> IsAncestor(start.value, head))
    ensures l == [] <==> start == Some(head)
  {
    if l == [] {
      assert head !in l;
      if start.Some? {
        AncestryIsAntisymmetric(start.value, head);
      }
    } else {
      assert l[0] in l && InRange(l[0], start, head);
    }
  }

  /** Without the head, the listing lists what is behind the head's one parent. */
  lemma ListingOfParent(l: seq<Commit>, start: Option<Commit>, head: Commit)
    requires Listing(l, start, head) && l != [] && |head.parents| == 1
    ensures Listing(l[..|l|-1], start, head.parents[0])
  {
    HeadIsLast(l, start, head);
    var front, parent := l[..|l|-1], head.parents[0];
    ParentIsAncestor(parent, head);
    forall c ensures c in front <==> InRange(c, start, parent) {
      if c in front {
        assert c in l && c != head;
        assert IsAncestor(c, parent);
      }
      if InRange(c, start, parent) {
        AncestorTransitive(c, parent, head);
        assert c in l;
        if c == head {
          AncestryIsAntisymmetric(head, parent);
          AncestorIsSmaller(head, parent);
        }
      }
    }
    forall i: nat {:trigger ChildFollows(front, i)} | i < |front| && front[i] != parent ensures ChildFollows(front, i) {
      assert l[i] != head && ChildFollows(l, i);
      var j :| i < j < |l| && l[i] in l[j].parents;
      assert j < |front| && front[i] in front[j].parents;
    }
  }

  // ---- validation ---------------------------------------------------------------------------

  lemma {:induction false} ContinuingIsLinear(l: seq<Commit>, start: Option<Commit>)
    requires (start.Some? ==> Linear(start.value)) && Continues(l, start) && l != []
    ensures Linear(l[|l|-1])
  {
    if |l| > 1 {
      ContinuingIsLinear(l[..|l|-1], start);
    }
  }

  lemma {:induction false} LinearContinues(l: seq<Commit>, start: Option<Commit>, head: Commit)
    requires Listing(l, start, head) && Linear(head)
    requires start.Some? ==> Linear(start.value) && IsAncestor(start.value, head)
    ensures Continues(l, start)
    decreases |l|
  {
    NothingListed(l, start, head);
    if l != [] {
      HeadIsLast(l, start, head);
      if head.parents == [] {
        RootAlone(l, start, head);
      } else {
        var front, parent := l[..|l|-1], head.parents[0];
        ListingOfParent(l, start, head);
        if start.Some? {
          StartBehindParent(start.value, head);
        }
        LinearContinues(front, start, parent);
        NothingListed(front, start, parent);
        if front != [] {
          HeadIsLast(front, start, parent);
        }
      }
    }
  }

  lemma RootAlone(l: seq<Commit>, start: Option<Commit>, head: Commit)
    requires Listing(l, start, head) && l != [] && l[|l|-1] == head && head.parents == []
    requires start.Some? ==> IsAncestor(start.value, head)
    ensures start.None? && l == [head]
  {
    assert l[0] in l;
    assert InRange(l[0], start, head);
  }

  lemma StartBehindParent(start: Commit, head: Commit)
    requires IsAncestor(start, head) && start != head && |head.parents| == 1
    ensures IsAncestor(start, head.parents[0])
  {
  }

  /** Validating from the root, or from any accepted ancestor, accepts the same heads: those whose
      history is linear.  The order in which a walk lists the range does not matter. */
  lemma CheckpointChangesNothing(l: seq<Commit>, start: Option<Commit>, head: Commit)
    requires Listing(l, start, head)
    requires start.Some? ==> Linear(start.value) && IsAncestor(start.value, head)
    ensures Continues(l, start) <==> Linear(head)
  {
    NothingListed(l, start, head);
    if Linear(head) {
      LinearContinues(l, start, head);
    } else if l != [] && Continues(l, start) {
      ContinuingIsLinear(l, start);
      HeadIsLast(l, start, head);
    }
  }

  /** The loop over the listed commits. */
  method ValidateHistory(l: seq<Commit>, start: Option<Commit>) returns (state: Option<Payload>)
    requires start.Some? ==> start.value.payload.Some?
    ensures state == if !Continues(l, start) then None
                     else if l == [] then (if start.Some? then start.value.payload else None) else l[|l|-1].payload
  {
    var previous := start;
    var sequence := SequenceAt(start);
    state := if start.Some? then start.value.payload else None;
    for i := 0 to |l|
      invariant Continues(l[..i], start)
      invariant previous == if i == 0 then start else Some(l[i-1])
      invariant previous.Some? ==> previous.value.payload.Some?
      invariant sequence == SequenceAt(previous)
      invariant state == if previous.Some? then previous.value.payload else None
    {
      var commit := l[i];
      assert l[..i+1][..i] == l[..i];
      if commit.parents != (if previous.Some? then [previous.value] else []) || commit.payload.None?
        || commit.payload.value.sequence != sequence + 1 {
        BrokenStays(l, start, i + 1);
        return None;
      }
      state := commit.payload;
      sequence := commit.payload.value.sequence;
      previous := Some(commit);
    }
    assert l[..|l|] == l;
  }

  lemma {:induction false} BrokenStays(l: seq<Commit>, start: Option<Commit>, n: nat)
    requires (start.Some? ==> start.value.payload.Some?) && n <= |l| && !Continues(l[..n], start)
    ensures !Continues(l, start)
    decreases |l| - n
  {
    if n < |l| {
      assert l[..n+1][..n] == l[..n];
      BrokenStays(l, start, n + 1);
    } else {
      assert l[..n] == l;
    }
  }

  // ---- fetching -----------------------------------------------------------------------------

  /** What one installation remembers: the head it saw last, and the head it validated last. */
  class Observer {
    var observed: Option<Commit>
    var validated: Option<Commit>

    constructor ()
      ensures observed.None? && validated.None?
    {
      observed, validated := None, None;
    }

    /** The checkpoint was accepted. */
    ghost predicate Valid()
      reads this
    {
      validated.Some? ==> Linear(validated.value)
    }

    /** Accepts a stable head.  `listing` lists what is behind the head and not behind the checkpoint. */
    method Fetch(head: Commit, listing: seq<Commit>) returns (state: Option<Payload>)
      requires Valid() && Listing(listing, validated, head)
      modifies this
      ensures Valid()
      ensures state.Some? <==>
                && Linear(head)
                && (old(observed).Some? ==> IsAncestor(old(observed).value, head))
                && (old(validated).Some? ==> IsAncestor(old(validated).value, head))
      ensures state.Some? ==> state == head.payload && observed == validated == Some(head)
      ensures state.None? ==> observed == old(observed) && validated == old(validated)
    {
      if observed.Some? && !IsAncestor(observed.value, head) {
        return None;
      }
      if validated == Some(head) {
        state := head.payload;
      } else {
        if validated.Some? && observed != validated && !IsAncestor(validated.value, head) {
          return None;
        }
        CheckpointChangesNothing(listing, validated, head);
        NothingListed(listing, validated, head);
        state := ValidateHistory(listing, validated);
        if state.None? {
          return None;
        }
        HeadIsLast(listing, validated, head);
        validated := Some(head);
      }
      observed := Some(head);
    }
  }
}
