/** Removing branches whose work is preserved, while other writers move refs.

    A branch is classified by the refs and facts of one moment.  Other writers may move, create or delete
    any ref at any later time; the base branch only fast-forwards. */
module BranchCleanup {
  import opened Options
  import opened CommitGraph
  import References = RunReferences

  /** Branch refs here and on the remote, and the base branch. */
  datatype Refs = Refs(local: map<string, Commit>, remote: map<string, Commit>, base: Commit)

  /** Why a branch is still needed. */
  datatype Facts = Facts(isProtected: bool, active: bool, openRequest: bool, stackBase: bool, checkedOut: bool,
                         unfinished: bool, manual: bool, recovery: bool)

  datatype Classification = Needed | Removable | Unclear

  datatype Disposition = Disposition(branch: string, classification: Classification, localHead: Option<Commit>,
                                     remoteHead: Option<Commit>)

  function HeadOf(refs: map<string, Commit>, branch: string): Option<Commit> {
    if branch in refs then Some(refs[branch]) else None
  }

  predicate StillNeeded(f: Facts) {
    f.isProtected || f.active || f.openRequest || f.stackBase || f.checkedOut || f.unfinished || f.manual || f.recovery
  }

  /** Contained in the base, or the exact head that a merge recorded. */
  predicate Preserved(head: Commit, base: Commit, merged: set<Commit>) { IsAncestor(head, base) || head in merged }

  predicate HeadPreserved(head: Option<Commit>, base: Commit, merged: set<Commit>) {
    head.Some? ==> Preserved(head.value, base, merged)
  }

  /** `readable` tells whether the base could be read; if not, only merge records count. */
  function Classify(refs: Refs, branch: string, facts: Facts, merged: set<Commit>, remoteKnown: bool,
                    readable: bool): Disposition {
    var local, remote := HeadOf(refs.local, branch), HeadOf(refs.remote, branch);
    if !remoteKnown then Disposition(branch, Unclear, local, None)
    else if local.None? && remote.None? then Disposition(branch, Removable, None, None)
    else if StillNeeded(facts) then Disposition(branch, Needed, local, remote)
    else if (local.Some? ==> (readable && IsAncestor(local.value, refs.base)) || local.value in merged)
         && (remote.Some? ==> (readable && IsAncestor(remote.value, refs.base)) || remote.value in merged)
    then Disposition(branch, Removable, local, remote)
    else Disposition(branch, Unclear, local, remote)
  }

  // ---- which runs recovery state refers to --------------------------------------------------

  /** A recheck of one branch searches id by id, the inventory scans once for all ids.  They agree. */
  method ReferencedRuns(oneBranch: bool, text: string, ids: set<string>, word: char -> bool)
    returns (referenced: set<string>)
    ensures referenced == set id | id in ids && References.HasRunReference(text, id, word)
  {
    if oneBranch {
      referenced := {};
      var todo := ids;
      while todo != {}
        invariant todo <= ids
        invariant referenced == set id | id in ids - todo && References.HasRunReference(text, id, word)
      {
        var id :| id in todo;
        if References.HasRunReference(text, id, word) {
          referenced := referenced + {id};
        }
        todo := todo - {id};
      }
    } else {
      ghost var hops;
      referenced, hops := References.FindReferences(text, ids, word);
    }
  }

  // ---- reachability -------------------------------------------------------------------------

  predicate Reachable(refs: Refs, c: Commit) {
    || IsAncestor(c, refs.base)
    || (exists b :: b in refs.local && IsAncestor(c, refs.local[b]))
    || (exists b :: b in refs.remote && IsAncestor(c, refs.remote[b]))
  }

  /** One ref was removed, and what it alone kept reachable is behind a head that a merge recorded. */
  ghost predicate LosesNothing(before: Refs, after: Refs, branch: string, head: Commit, merged: set<Commit>) {
    && before.base == after.base
    && (|| (branch in before.local && before.local[branch] == head
            && after == before.(local := before.local - {branch}))
        || (branch in before.remote && before.remote[branch] == head
            && after == before.(remote := before.remote - {branch})))
    && (forall c :: Reachable(before, c) && !Reachable(after, c) ==> head in merged && IsAncestor(c, head))
  }

  lemma RemovalLosesNothing(before: Refs, after: Refs, branch: string, head: Commit, merged: set<Commit>)
    requires Preserved(head, before.base, merged)
    requires || (branch in before.local && before.local[branch] == head
                 && after == before.(local := before.local - {branch}))
             || (branch in before.remote && before.remote[branch] == head
                 && after == before.(remote := before.remote - {branch}))
    ensures LosesNothing(before, after, branch, head, merged)
  {
    forall c | Reachable(before, c) && !Reachable(after, c) ensures head in merged && IsAncestor(c, head) {
      OnlyTheRemoved(before, after, branch, head, c);
      if IsAncestor(head, before.base) && IsAncestor(c, head) {
        AncestorTransitive(c, head, before.base);
      }
    }
  }

  lemma OnlyTheRemoved(before: Refs, after: Refs, branch: string, head: Commit, c: Commit)
    requires || (branch in before.local && before.local[branch] == head
                 && after == before.(local := before.local - {branch}))
             || (branch in before.remote && before.remote[branch] == head
                 && after == before.(remote := before.remote - {branch}))
    requires Reachable(before, c) && !Reachable(after, c)
    ensures IsAncestor(c, head)
  {
    hide IsAncestor;
    assert forall b :: b in after.local ==> b in before.local && after.local[b] == before.local[b];
    assert forall b :: b in after.remote ==> b in before.remote && after.remote[b] == before.remote[b];
  }

  // ---- the repository and its other writers -------------------------------------------------

  datatype Move =
    | MoveLocal(branch: string, head: Option<Commit>)
    | MoveRemote(branch: string, head: Option<Commit>)
    | AdvanceBase(tip: Commit)

  function Moved(refs: map<string, Commit>, branch: string, head: Option<Commit>): map<string, Commit> {
    if head.Some? then refs[branch := head.value] else refs - {branch}
  }

  function AfterMove(refs: Refs, move: Move): Refs {
    match move
    case MoveLocal(branch, head) => refs.(local := Moved(refs.local, branch, head))
    case MoveRemote(branch, head) => refs.(remote := Moved(refs.remote, branch, head))
    case AdvanceBase(tip) => if IsAncestor(refs.base, tip) then refs.(base := tip) else refs
  }

  /** What other writers leave behind. */
  function Interfered(refs: Refs, moves: seq<Move>): Refs {
    if moves == [] then refs else AfterMove(Interfered(refs, moves[..|moves|-1]), moves[|moves|-1])
  }

  lemma {:induction false} BaseOnlyAdvances(refs: Refs, moves: seq<Move>)
    ensures IsAncestor(refs.base, Interfered(refs, moves).base)
  {
    if moves != [] {
      var before := Interfered(refs, moves[..|moves|-1]);
      BaseOnlyAdvances(refs, moves[..|moves|-1]);
      if before.base != Interfered(refs, moves).base {
        AncestorTransitive(refs.base, before.base, Interfered(refs, moves).base);
      }
    }
  }

  /** A remote command runs, cannot read the remote, or is cut off before or after its push took effect. */
  datatype Delivery = Heard | Unreachable | LostBefore | LostAfter

  /** The branch names the expected head. */
  predicate Names(refs: map<string, Commit>, branch: string, expected: Option<Commit>) {
    branch in refs && Some(refs[branch]) == expected
  }

  /** The remote ref goes: it names the head when it is read and when the push arrives, and the push takes effect. */
  predicate RemoteGoes(refs: Refs, branch: string, head: Option<Commit>, between: seq<Move>, delivery: Delivery) {
    && (delivery == Heard || delivery == LostAfter)
    && Names(refs.remote, branch, head) && Names(Interfered(refs, between).remote, branch, head)
  }

  /** The remote step is reported as done: the ref went and the answer was heard, or there was none to begin with. */
  predicate RemoteDone(refs: Refs, branch: string, head: Option<Commit>, between: seq<Move>, delivery: Delivery) {
    || (RemoteGoes(refs, branch, head, between, delivery) && delivery == Heard)
    || (delivery != Unreachable && branch !in refs.remote)
  }

  /** The refs after the remote step.  Others have their turn only if the head was read and compared equal. */
  function AfterRemote(refs: Refs, branch: string, head: Option<Commit>, between: seq<Move>, delivery: Delivery): Refs {
    var found := Interfered(refs, between);
    if delivery == Unreachable || !Names(refs.remote, branch, head) then refs
    else if RemoteGoes(refs, branch, head, between, delivery) then found.(remote := found.remote - {branch})
    else found
  }

  /** The local ref goes: it names the head when it is read and when it is updated. */
  predicate LocalGoes(refs: Refs, branch: string, head: Option<Commit>, between: seq<Move>) {
    Names(refs.local, branch, head) && Names(Interfered(refs, between).local, branch, head)
  }

  function AfterLocal(refs: Refs, branch: string, head: Option<Commit>, between: seq<Move>): Refs {
    var found := Interfered(refs, between);
    if !Names(refs.local, branch, head) then refs
    else if LocalGoes(refs, branch, head, between) then found.(local := found.local - {branch})
    else found
  }

  /** Whether the remote step of a disposition failed, and the refs it leaves; no known head means no remote step. */
  predicate RemoteFails(refs: Refs, item: Disposition, first: seq<Move>, delivery: Delivery) {
    item.remoteHead.Some? && !RemoteDone(refs, item.branch, item.remoteHead, first, delivery)
  }

  function RemoteLeaves(refs: Refs, item: Disposition, first: seq<Move>, delivery: Delivery): Refs {
    if item.remoteHead.None? then refs else AfterRemote(refs, item.branch, item.remoteHead, first, delivery)
  }

  datatype Removal = Removal(before: Refs, after: Refs, head: Commit)

  /** The removed ref still named the classified head, and removing it loses nothing unpreserved. */
  ghost predicate RemovedSafely(r: Removal, classified: Option<Commit>, branch: string, merged: set<Commit>) {
    classified == Some(r.head) && LosesNothing(r.before, r.after, branch, r.head, merged)
  }

  class Repository {
    var local: map<string, Commit>
    var remote: map<string, Commit>
    var base: Commit

    constructor (refs: Refs)
      ensures State() == refs
    {
      local, remote, base := refs.local, refs.remote, refs.base;
    }

    function State(): Refs
      reads this
    {
      Refs(local, remote, base)
    }

    /** Other writers move refs as they like; the base only fast-forwards. */
    method Interfere(moves: seq<Move>)
      modifies this
      ensures State() == Interfered(old(State()), moves)
      ensures IsAncestor(old(base), base)
    {
      ghost var before := State();
      for i := 0 to |moves|
        invariant State() == Interfered(before, moves[..i])
      {
        assert moves[..i+1][..i] == moves[..i];
        match moves[i] {
          case MoveLocal(branch, head) => local := Moved(local, branch, head);
          case MoveRemote(branch, head) => remote := Moved(remote, branch, head);
          case AdvanceBase(tip) =>
            if IsAncestor(base, tip) {
              base := tip;
            }
        }
      }
      assert moves[..|moves|] == moves;
      BaseOnlyAdvances(before, moves);
    }

    /** Deletes the remote branch if it still names the head: read, then a push with the head as lease.
        A push whose answer is lost may have removed the ref all the same. */
    method DeleteRemoteBranch(branch: string, expected: Option<Commit>, between: seq<Move>, delivery: Delivery)
      returns (removed: bool, ok: bool, ghost removal: Option<Removal>)
      modifies this
      ensures IsAncestor(old(base), base)
      ensures removal.Some? <==> RemoteGoes(old(State()), branch, expected, between, delivery)
      ensures removal.Some? ==>
                && Some(removal.value.head) == expected && removal.value.before == Interfered(old(State()), between)
                && removal.value.after == State()
      ensures State() == AfterRemote(old(State()), branch, expected, between, delivery)
      ensures removed <==> removal.Some? && delivery == Heard
      ensures ok <==> RemoteDone(old(State()), branch, expected, between, delivery)
    {
      removal := None;
      if delivery == Unreachable {
        return false, false, removal;
      }
      if branch !in remote {
        return false, true, removal;
      }
      if expected.None? || remote[branch] != expected.value {
        return false, false, removal;
      }
      Interfere(between);
      if delivery == LostBefore || branch !in remote || remote[branch] != expected.value {
        return false, false, removal;
      }
      ghost var before := State();
      remote := remote - {branch};
      removal := Some(Removal(before, State(), expected.value));
      return delivery == Heard, delivery == Heard, removal;
    }

    /** Deletes the local branch if it still names the head: read, then a guarded update of the ref. */
    method DeleteLocalBranch(branch: string, expected: Option<Commit>, between: seq<Move>)
      returns (removed: bool, ok: bool, ghost removal: Option<Removal>)
      modifies this
      ensures IsAncestor(old(base), base)
      ensures removal.Some? <==> LocalGoes(old(State()), branch, expected, between)
      ensures removal.Some? ==>
                && Some(removal.value.head) == expected && removal.value.before == Interfered(old(State()), between)
                && removal.value.after == State()
      ensures State() == AfterLocal(old(State()), branch, expected, between)
      ensures removed <==> removal.Some?
      ensures ok <==> removed || branch !in old(local)
    {
      removal := None;
      if branch !in local {
        return false, true, removal;
      }
      if expected.None? || local[branch] != expected.value {
        return false, false, removal;
      }
      Interfere(between);
      if branch !in local || local[branch] != expected.value {
        return false, false, removal;
      }
      ghost var before := State();
      local := local - {branch};
      removal := Some(Removal(before, State(), expected.value));
      return true, true, removal;
    }

    /** Deletes the remote ref and then, unless that failed, the local one.  The contract says exactly when each
        of them goes and when the call fails; and whatever goes, reported or not, still named the classified head
        at that moment and loses nothing that is not preserved. */
    method DeleteDisposition(item: Disposition, merged: set<Commit>, refused: bool,
                             first: seq<Move>, delivery: Delivery, second: seq<Move>, third: seq<Move>)
      returns (removedRemote: bool, removedLocal: bool, failed: bool,
               ghost remotely: Option<Removal>, ghost locally: Option<Removal>)
      requires HeadPreserved(item.localHead, base, merged) && HeadPreserved(item.remoteHead, base, merged)
      modifies this
      ensures refused ==> State() == old(State()) && !failed
      ensures remotely.Some? <==> !refused && RemoteGoes(old(State()), item.branch, item.remoteHead, first, delivery)
      ensures var found := Interfered(RemoteLeaves(old(State()), item, first, delivery), second);
              var remoteFails := RemoteFails(old(State()), item, first, delivery);
              && (locally.Some? <==>
                    !refused && !remoteFails && LocalGoes(found, item.branch, item.localHead, third))
              && (failed <==>
                    !refused && (remoteFails || (locally.None? && item.branch in found.local)))
              && (!refused ==> State() == if remoteFails then RemoteLeaves(old(State()), item, first, delivery)
                                          else AfterLocal(found, item.branch, item.localHead, third))
      ensures removedRemote <==> remotely.Some? && delivery == Heard
      ensures removedLocal <==> locally.Some?
      ensures remotely.Some? ==> RemovedSafely(remotely.value, item.remoteHead, item.branch, merged)
      ensures locally.Some? ==> RemovedSafely(locally.value, item.localHead, item.branch, merged)
      ensures failed || (remotely.Some? && !removedRemote) ==> locally.None?
      ensures IsAncestor(old(base), base)
    {
      hide IsAncestor, LosesNothing, Interfered;
      removedRemote, removedLocal, failed, remotely, locally := false, false, false, None, None;
      ReflexiveAncestor(base);
      if refused {
        return;
      }
      ghost var start := base;
      if item.remoteHead.Some? {
        BaseOnlyAdvances(State(), first);
        var ok;
        removedRemote, ok, remotely := DeleteRemoteBranch(item.branch, item.remoteHead, first, delivery);
        failed := !ok;
        if remotely.Some? {
          StaysPreserved(item.remoteHead, start, remotely.value.before.base, merged);
          RemovalLosesNothing(remotely.value.before, remotely.value.after, item.branch, remotely.value.head, merged);
        }
      }
      if !failed {
        ghost var pushed := base;
        Interfere(second);
        AncestorTransitive(start, pushed, base);
        BaseOnlyAdvances(State(), third);
        AncestorTransitive(start, base, Interfered(State(), third).base);
        ghost var middle := base;
        var ok;
        removedLocal, ok, locally := DeleteLocalBranch(item.branch, item.localHead, third);
        failed := !ok;
        AncestorTransitive(start, middle, base);
        if removedLocal {
          StaysPreserved(item.localHead, start, locally.value.before.base, merged);
          RemovalLosesNothing(locally.value.before, locally.value.after, item.branch, locally.value.head, merged);
        }
      }
    }

    /** One sweep of one branch: classify, recheck just before, delete. */
    method Clean(branch: string, facts: Facts, again: Facts, merged: set<Commit>, remoteKnown: bool, readable: bool,
                 moves: seq<seq<Move>>, delivery: Delivery)
      returns (removedRemote: bool, removedLocal: bool, ghost remotely: Option<Removal>, ghost locally: Option<Removal>,
               ghost item: Disposition)
      requires |moves| == 5
      modifies this
      ensures item == Classify(old(State()), branch, facts, merged, remoteKnown, readable)
      ensures var checked := Interfered(old(State()), moves[0]);
              var found := Interfered(checked, moves[1]);
              var current := Classify(checked, branch, again, merged, remoteKnown, readable);
              if !Proceeds(item, current) then
                remotely.None? && locally.None? && (State() == old(State()) || State() == checked)
              else
                && (remotely.Some? <==> RemoteGoes(found, branch, item.remoteHead, moves[2], delivery))
                && (locally.Some? <==>
                      && !RemoteFails(found, item, moves[2], delivery)
                      && LocalGoes(Interfered(RemoteLeaves(found, item, moves[2], delivery), moves[3]), branch,
                                   item.localHead, moves[4]))
      ensures removedRemote <==> remotely.Some? && delivery == Heard
      ensures removedLocal <==> locally.Some?
      ensures remotely.Some? || locally.Some? ==>
                item.classification == Removable && !StillNeeded(facts) && !StillNeeded(again)
      ensures remotely.Some? ==> RemovedSafely(remotely.value, item.remoteHead, branch, merged)
      ensures locally.Some? ==> RemovedSafely(locally.value, item.localHead, branch, merged)
      ensures moves == [[], [], [], [], []] && delivery == Heard && item.classification == Removable
              && Classify(old(State()), branch, again, merged, remoteKnown, readable).classification == Removable ==>
                branch !in local && branch !in remote
    {
      hide IsAncestor, LosesNothing, Interfered, Classify, RemoteGoes, RemoteDone, AfterRemote, LocalGoes, AfterLocal,
        RemoteFails, RemoteLeaves, HeadPreserved, RemovedSafely, StillNeeded;
      removedRemote, removedLocal, remotely, locally := false, false, None, None;
      ghost var start := State();
      var classified := Classify(State(), branch, facts, merged, remoteKnown, readable);
      item := classified;
      NothingMoves(start);
      RemovableFacts(State(), branch, facts, merged, remoteKnown, readable);
      RemovableIsPreserved(State(), branch, facts, merged, remoteKnown, readable);
      if classified.classification != Removable || (classified.localHead.None? && classified.remoteHead.None?) {
        return;
      }
      Interfere(moves[0]);
      var current := Classify(State(), branch, again, merged, remoteKnown, readable);
      var refused := current.classification != Removable || current.localHead != classified.localHead
        || current.remoteHead != classified.remoteHead;
      RemovableFacts(State(), branch, again, merged, remoteKnown, readable);
      RemovableIsPreserved(State(), branch, again, merged, remoteKnown, readable);
      if refused {
        return;
      }
      ghost var rechecked := base;
      Interfere(moves[1]);
      StaysPreserved(current.localHead, rechecked, base, merged);
      StaysPreserved(current.remoteHead, rechecked, base, merged);
      var failed;
      removedRemote, removedLocal, failed, remotely, locally :=
        DeleteDisposition(classified, merged, refused, moves[2], delivery, moves[3], moves[4]);
      if moves == [[], [], [], [], []] && delivery == Heard {
        UndisturbedLeavesNeither(start, classified);
      }
    }
  }

  /** The branch is removable with some head, and still removable with the same heads when rechecked. */
  predicate Proceeds(item: Disposition, current: Disposition) {
    && item.classification == Removable && (item.localHead.Some? || item.remoteHead.Some?)
    && current.classification == Removable
    && current.localHead == item.localHead && current.remoteHead == item.remoteHead
  }

  lemma RemovableFacts(refs: Refs, branch: string, facts: Facts, merged: set<Commit>, remoteKnown: bool, readable: bool)
    ensures var item := Classify(refs, branch, facts, merged, remoteKnown, readable);
            && item.branch == branch
            && (item.classification == Removable && (item.localHead.Some? || item.remoteHead.Some?) ==>
                  !StillNeeded(facts))
  {
    hide IsAncestor;
  }

  lemma NothingMoves(refs: Refs)
    ensures Interfered(refs, []) == refs
  {
  }

  /** Without others, what is classified goes: both refs, or the one that exists. */
  lemma UndisturbedLeavesNeither(refs: Refs, item: Disposition)
    requires item.localHead == HeadOf(refs.local, item.branch) && item.remoteHead == HeadOf(refs.remote, item.branch)
    ensures !RemoteFails(refs, item, [], Heard)
    ensures var found := Interfered(RemoteLeaves(refs, item, [], Heard), []);
            && found == refs.(remote := refs.remote - {item.branch})
            && AfterLocal(found, item.branch, item.localHead, []) ==
                 Refs(refs.local - {item.branch}, refs.remote - {item.branch}, refs.base)
  {
    NothingMoves(refs);
    var found := refs.(remote := refs.remote - {item.branch});
    NothingMoves(found);
    assert item.remoteHead.None? ==> found == refs;
    assert item.localHead.None? ==> refs.local - {item.branch} == refs.local;
  }

  lemma ReflexiveAncestor(c: Commit)
    ensures IsAncestor(c, c)
  {
  }

  lemma StaysPreserved(head: Option<Commit>, base: Commit, later: Commit, merged: set<Commit>)
    requires HeadPreserved(head, base, merged) && IsAncestor(base, later)
    ensures HeadPreserved(head, later, merged)
  {
    if head.Some? && IsAncestor(head.value, base) {
      AncestorTransitive(head.value, base, later);
    }
  }

  /** Removable means exactly: the remote is known, and either no ref is left or nothing still needs the
      branch and every head is preserved.  Needed means that a ref is left and something needs it. */
  lemma RemovableIsPreserved(refs: Refs, branch: string, facts: Facts, merged: set<Commit>, remoteKnown: bool,
                             readable: bool)
    ensures var item := Classify(refs, branch, facts, merged, remoteKnown, readable);
            && (item.classification == Removable ==>
                  && HeadPreserved(item.localHead, refs.base, merged)
                     && HeadPreserved(item.remoteHead, refs.base, merged)
                  && item.localHead == HeadOf(refs.local, branch) && item.remoteHead == HeadOf(refs.remote, branch))
            && (item.classification == Needed <==>
                  remoteKnown && (branch in refs.local || branch in refs.remote) && StillNeeded(facts))
            && (readable ==> (item.classification == Removable <==>
                  && remoteKnown
                  && (branch in refs.local || branch in refs.remote ==> !StillNeeded(facts))
                  && HeadPreserved(HeadOf(refs.local, branch), refs.base, merged)
                  && HeadPreserved(HeadOf(refs.remote, branch), refs.base, merged)))
  {
    hide IsAncestor;
  }
}
