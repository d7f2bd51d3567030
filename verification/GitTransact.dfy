/** One client's `transact`: read, look the operation up, mutate a copy, commit, push, and on contention
    start over.  What the other clients and the network do in the meantime is a parameter. */
module GitTransact {
  import opened Options
  import opened GitState
  import opened GitDraft
  import opened GitChain

  /** A transaction that some other client lands, and the author and time of its commit. */
  datatype Other = Other(operation: string, request: Request, stamp: nat)

  /** What happens to a push: its verdict arrives, or is lost before or after the remote acted on it. */
  datatype Delivery = Heard | LostBefore | LostAfter

  /** One attempt: what others land before the read, between read and push, and before a recovery read, and
      the author and time of the commit it builds. */
  datatype Turn = Turn(before: seq<Other>, between: seq<Other>, after: seq<Other>, delivery: Delivery, stamp: nat)

  datatype Outcome = Returned(result: Result, replayed: bool, commit: Commit) | Raised

  datatype Verdict = Accepted | Contention | NoAnswer

  // ---- what the other clients do ------------------------------------------------------------

  /** Another client lands its transaction if it still applies. */
  function LandOne(head: Commit, other: Other): Commit {
    var next := Advance(Head(head), other.operation, other.request);
    if other.operation in Head(head).operations || next.None? then head
    else Link(head, other.stamp, other.operation, other.request, next.value)
  }

  /** The ref after the others had their turns. */
  function Landed(head: Commit, others: seq<Other>): Commit {
    if others == [] then head else LandOne(Landed(head, others[..|others|-1]), others[|others|-1])
  }

  lemma {:induction false} LandedIsValid(head: Commit, others: seq<Other>)
    requires Valid(head)
    ensures Valid(Landed(head, others)) && Within(head, Landed(head, others))
  {
    hide Advance;
    if others != [] {
      var before := Landed(head, others[..|others|-1]);
      LandedIsValid(head, others[..|others|-1]);
      WithinTransitive(head, before, LandOne(before, others[|others|-1]));
    }
  }

  lemma {:induction false} LandedInTwo(head: Commit, first: seq<Other>, second: seq<Other>)
    ensures Landed(head, first + second) == Landed(Landed(head, first), second)
    decreases |second|
  {
    hide LandOne;
    if second == [] {
      assert first + second == first;
    } else {
      var n := |second| - 1;
      assert (first + second)[..|first|+n] == first + second[..n] && (first + second)[|first|+n] == second[n];
      LandedInTwo(head, first, second[..n]);
    }
  }

  /** All that others land in the first n turns up to the push of each. */
  function Before(turns: seq<Turn>, n: nat): seq<Other>
    requires n <= |turns|
  {
    if n == 0 then [] else Before(turns, n - 1) + turns[n-1].before + turns[n-1].between
  }

  /** The commit read in turn n if only others have moved the ref so far. */
  function ReadAt(start: Commit, turns: seq<Turn>, n: nat): Commit
    requires n < |turns|
  {
    Landed(start, Before(turns, n) + turns[n].before)
  }

  /** The commit that the push of turn n finds on the ref. */
  function FoundAt(start: Commit, turns: seq<Turn>, n: nat): Commit
    requires n < |turns|
  {
    Landed(start, Before(turns, n) + turns[n].before + turns[n].between)
  }

  class Remote {
    var head: Commit

    constructor ()
      ensures head == Root
    {
      head := Root;
    }

    /** Other clients land what still applies, one after the other. */
    method Interfere(others: seq<Other>)
      modifies this
      ensures head == Landed(old(head), others)
    {
      hide Advance;
      ghost var start := head;
      for i := 0 to |others|
        invariant head == Landed(start, others[..i])
      {
        assert others[..i+1][..i] == others[..i];
        var next := Advance(Head(head), others[i].operation, others[i].request);
        if others[i].operation !in Head(head).operations && next.Some? {
          head := Link(head, others[i].stamp, others[i].operation, others[i].request, next.value);
        }
      }
      assert others[..|others|] == others;
    }

    /** Compare-and-swap on the ref.  If the ref already is the pushed commit there is nothing to update,
        and the push is answered as accepted without a comparison. */
    method Push(commit: Commit, expected: Commit, delivery: Delivery) returns (verdict: Verdict)
      requires commit.Link? && commit.parent == expected
      modifies this
      ensures head == if old(head) == expected && delivery != LostBefore then commit else old(head)
      ensures verdict == if delivery != Heard then NoAnswer
                         else if old(head) == expected || old(head) == commit then Accepted else Contention
    {
      if delivery == LostBefore {
        return NoAnswer;
      }
      var taken := head == commit;
      if !taken && head == expected {
        head := commit;
        taken := true;
      }
      return if delivery == LostAfter then NoAnswer else if taken then Accepted else Contention;
    }
  }

  /** The document that one transaction writes on top of another, computed on a copy. */
  method Mutated(d: Document, operation: string, request: Request)
    returns (next: Option<Document>, index: map<string, string>)
    ensures next == Advance(d, operation, WithIndex(request, index))
    ensures if next.Some? then Acceptable(d.sequence, d.state, request) else Refusable(d.sequence, d.state, request)
  {
    hide Perform, Acceptable, Refusable;
    var draft := new Draft(d.state);
    var result;
    result, index := draft.Mutate(d.sequence, request);
    if result.None? {
      return None, index;
    }
    next := Some(Document(d.sequence + 1, d.operations[operation := Entry(Fingerprint(request), result.value)],
                          draft.State()));
  }

  // ---- how one attempt ends -----------------------------------------------------------------

  /** The commit applies the request, under this operation id, to what was read. */
  ghost predicate Builds(read: Commit, stamp: nat, operation: string, request: Request, c: Commit) {
    && c.Link? && c.parent == read && c.stamp == stamp && c.operation == operation && Valid(c)
    && WithIndex(c.request, map[]) == WithIndex(request, map[])
  }

  /** Nobody used the operation id for other inputs or for these. */
  predicate Unused(c: Commit, operation: string) { operation !in Head(c).operations }

  predicate Recorded(c: Commit, operation: string, request: Request) {
    operation in Head(c).operations && Head(c).operations[operation].fingerprint == Fingerprint(request)
  }

  /** What the ledger answers to a repeated operation: the recorded result, as a replay. */
  function Replay(c: Commit, operation: string, request: Request): Outcome {
    if Recorded(c, operation, request) then Returned(Head(c).operations[operation].result, true, c) else Raised
  }

  /** The push was compared and lost: the ref had moved, and not to the very commit pushed. */
  ghost predicate Contends(read: Commit, found: Commit, turn: Turn, operation: string, request: Request,
                           built: Commit) {
    && Unused(read, operation) && Builds(read, turn.stamp, operation, request, built)
    && turn.delivery == Heard && found != read && found != built
  }

  /** What the push leaves on the ref. */
  function Pushed(read: Commit, found: Commit, delivery: Delivery, built: Commit): Commit {
    if found == read && delivery != LostBefore then built else found
  }

  /** The attempt decides the call: by the ledger read, by a refusal, by an accepted push, or, when no answer
      came, by the ledger read afterwards. */
  ghost predicate Settles(read: Commit, found: Commit, turn: Turn, operation: string, request: Request,
                          built: Option<Commit>, outcome: Outcome, end: Commit)
  {
    if !Unused(read, operation) then end == read && outcome == Replay(read, operation, request)
    else if built.None? then
      end == read && outcome == Raised && Refusable(Head(read).sequence, Head(read).state, request)
    else
      && Builds(read, turn.stamp, operation, request, built.value)
      && operation in built.value.document.operations
      && if turn.delivery == Heard then
           && (found == read || found == built.value) && end == built.value
           && outcome == Returned(built.value.document.operations[operation].result, false, built.value)
         else
           && end == Landed(Pushed(read, found, turn.delivery, built.value), turn.after)
           && outcome == Replay(end, operation, request)
  }

  lemma BuildsOn(read: Commit, stamp: nat, operation: string, request: Request, index: map<string, string>,
                 next: Document)
    requires Valid(read) && Unused(read, operation)
    requires Advance(Head(read), operation, WithIndex(request, index)) == Some(next)
    ensures Builds(read, stamp, operation, request, Link(read, stamp, operation, WithIndex(request, index), next))
    ensures operation in next.operations && next.operations[operation].fingerprint == Fingerprint(request)
  {
  }

  /** Looks the operation up in the document read: a replay, a mismatch, or nothing yet. */
  method LookUp(head: Commit, operation: string, request: Request) returns (found: bool, outcome: Outcome)
    ensures found <==> !Unused(head, operation)
    ensures outcome == Replay(head, operation, request)
  {
    if operation !in Head(head).operations {
      return false, Raised;
    }
    var entry := Head(head).operations[operation];
    if entry.fingerprint != Fingerprint(request) {
      return true, Raised;
    }
    return true, Returned(entry.result, true, head);
  }

  /** One round of the retry loop; contention asks for another. */
  method Attempt(remote: Remote, operation: string, request: Request, turn: Turn)
    returns (verdict: Verdict, outcome: Outcome, ghost built: Option<Commit>)
    requires Valid(remote.head)
    modifies remote
    ensures var read := Landed(old(remote.head), turn.before);
            var found := Landed(read, turn.between);
            if verdict == Contention then
              && built.Some? && Contends(read, found, turn, operation, request, built.value)
              && remote.head == found && outcome == Raised
            else
              Settles(read, found, turn, operation, request, built, outcome, remote.head)
  {
    hide Advance, Builds, Refusable, Acceptable, Landed, Valid;
    built := None;
    LandedIsValid(remote.head, turn.before);
    remote.Interfere(turn.before);
    var read := remote.head;
    var found, known := LookUp(read, operation, request);
    if found {
      return NoAnswer, known, built;
    }
    var next, index := Mutated(Head(read), operation, request);
    if next.None? {
      return NoAnswer, Raised, built;
    }
    var commit := Link(read, turn.stamp, operation, WithIndex(request, index), next.value);
    BuildsOn(read, turn.stamp, operation, request, index, next.value);
    built := Some(commit);
    remote.Interfere(turn.between);
    verdict := remote.Push(commit, read, turn.delivery);
    if verdict == Accepted {
      return verdict, Returned(next.value.operations[operation].result, false, commit), built;
    }
    if verdict == Contention {
      return verdict, Raised, built;
    }
    remote.Interfere(turn.after);
    found, known := LookUp(remote.head, operation, request);
    outcome := known;
  }

  lemma NoneLanded(head: Commit)
    ensures Landed(head, []) == head
  {
  }

  // ---- how a call ends ----------------------------------------------------------------------

  predicate ValidId(operation: string) { operation != "" && |operation| <= 200 }

  /** The commits that the call built in turns it lost, and the commit, if any, of the turn that decided. */
  datatype Story = Story(lost: seq<Commit>, last: Option<Commit>)

  /** A call with a usable id goes through turns it loses by contention, until a turn decides it or none is left. */
  ghost predicate Explains(start: Commit, turns: seq<Turn>, operation: string, request: Request,
                           story: Story, outcome: Outcome, end: Commit)
  {
    if !ValidId(operation) then outcome == Raised && end == start
    else
      var n := |story.lost|;
      && n <= |turns|
      && (forall i :: 0 <= i < n ==>
            Contends(ReadAt(start, turns, i), FoundAt(start, turns, i), turns[i], operation, request, story.lost[i]))
      && if n == |turns| then outcome == Raised && end == Landed(start, Before(turns, n))
         else Settles(ReadAt(start, turns, n), FoundAt(start, turns, n), turns[n], operation, request, story.last,
                      outcome, end)
  }

  method Transact(remote: Remote, operation: string, request: Request, turns: seq<Turn>)
    returns (outcome: Outcome, ghost story: Story)
    requires Valid(remote.head)
    modifies remote
    ensures Explains(old(remote.head), turns, operation, request, story, outcome, remote.head)
  {
    hide Advance, Valid, Contends, Settles, Landed;
    ghost var start := remote.head;
    story := Story([], None);
    if operation == "" || |operation| > 200 {
      return Raised, story;
    }
    NoneLanded(start);
    for attempt := 0 to |turns|
      invariant remote.head == Landed(start, Before(turns, attempt))
      invariant |story.lost| == attempt
      invariant forall i :: 0 <= i < attempt ==>
                  Contends(ReadAt(start, turns, i), FoundAt(start, turns, i), turns[i], operation, request,
                           story.lost[i])
    {
      LandedIsValid(start, Before(turns, attempt));
      LandedInTwo(start, Before(turns, attempt), turns[attempt].before);
      LandedInTwo(start, Before(turns, attempt) + turns[attempt].before, turns[attempt].between);
      ghost var built;
      var verdict, done;
      verdict, done, built := Attempt(remote, operation, request, turns[attempt]);
      if verdict != Contention {
        story := story.(last := built);
        return done, story;
      }
      story := story.(lost := story.lost + [built.value]);
    }
    outcome := Raised;
  }

  // ---- what follows -------------------------------------------------------------------------

  /** The request applies to what turn i reads, and its push is compared and lost. */
  ghost predicate SureToContend(start: Commit, turns: seq<Turn>, operation: string, request: Request, i: nat)
    requires i < |turns|
  {
    var read, found := ReadAt(start, turns, i), FoundAt(start, turns, i);
    && Unused(read, operation) && !Refusable(Head(read).sequence, Head(read).state, request)
    && turns[i].delivery == Heard && found != read
    && forall c :: Builds(read, turns[i].stamp, operation, request, c) ==> found != c
  }

  /** Every turn before k is lost by contention. */
  ghost predicate ContendsUpTo(start: Commit, turns: seq<Turn>, operation: string, request: Request, k: nat)
    requires k <= |turns|
  {
    forall i: nat :: i < k ==> SureToContend(start, turns, operation, request, i)
  }

  /** A lost comparison that is not the last attempt is followed by another attempt. */
  lemma StartsOver(start: Commit, turns: seq<Turn>, operation: string, request: Request, k: nat,
                   story: Story, outcome: Outcome, end: Commit)
    requires Explains(start, turns, operation, request, story, outcome, end) && ValidId(operation)
    requires k <= |turns| && ContendsUpTo(start, turns, operation, request, k)
    ensures k <= |story.lost|
  {
    hide Builds, Refusable, Landed, Replay;
    var n := |story.lost|;
    assert n < k ==> SureToContend(start, turns, operation, request, n);
  }

  /** After contended turns only, a push that is heard on an unmoved ref returns the result of its own commit. */
  lemma QuietTurnReturns(start: Commit, turns: seq<Turn>, operation: string, request: Request, k: nat,
                         story: Story, outcome: Outcome, end: Commit)
    requires Explains(start, turns, operation, request, story, outcome, end) && ValidId(operation)
    requires k < |turns| && ContendsUpTo(start, turns, operation, request, k)
    requires var read := ReadAt(start, turns, k);
             && Unused(read, operation) && !Refusable(Head(read).sequence, Head(read).state, request)
             && turns[k].delivery == Heard && FoundAt(start, turns, k) == read
    ensures Builds(ReadAt(start, turns, k), turns[k].stamp, operation, request, end)
    ensures Recorded(end, operation, request)
    ensures outcome == Returned(Head(end).operations[operation].result, false, end)
  {
    hide Refusable, Landed;
    StartsOver(start, turns, operation, request, k, story, outcome, end);
    assert |story.lost| == k;
    FingerprintsAgree(end.request, request);
  }

  /** After contended turns only, a turn that reads the id answers by the ledger: the recorded result as a
      replay if the inputs are the same, and an error otherwise. */
  lemma RecordedTurnReplays(start: Commit, turns: seq<Turn>, operation: string, request: Request, k: nat,
                            story: Story, outcome: Outcome, end: Commit)
    requires Explains(start, turns, operation, request, story, outcome, end) && ValidId(operation)
    requires k < |turns| && ContendsUpTo(start, turns, operation, request, k)
    requires !Unused(ReadAt(start, turns, k), operation)
    ensures end == ReadAt(start, turns, k)
    ensures outcome == if Head(end).operations[operation].fingerprint == Fingerprint(request)
                       then Returned(Head(end).operations[operation].result, true, end) else Raised
  {
    hide Refusable, Landed, Builds;
    StartsOver(start, turns, operation, request, k, story, outcome, end);
  }

  /** After contended turns only, a request that what is read refuses raises and leaves the ref alone. */
  lemma RefusedTurnRaises(start: Commit, turns: seq<Turn>, operation: string, request: Request, k: nat,
                          story: Story, outcome: Outcome, end: Commit)
    requires Explains(start, turns, operation, request, story, outcome, end) && ValidId(operation)
    requires k < |turns| && ContendsUpTo(start, turns, operation, request, k)
    requires var read := ReadAt(start, turns, k);
             Unused(read, operation) && !Acceptable(Head(read).sequence, Head(read).state, request)
    ensures outcome == Raised && end == ReadAt(start, turns, k)
  {
    hide Refusable, Acceptable, Landed, Builds, ReadAt, FoundAt, SureToContend;
    StartsOver(start, turns, operation, request, k, story, outcome, end);
    var read := ReadAt(start, turns, k);
    if k < |story.lost| {
      BuildsAccepts(read, turns[k].stamp, operation, request, story.lost[k]);
    } else if story.last.Some? && Builds(read, turns[k].stamp, operation, request, story.last.value) {
      BuildsAccepts(read, turns[k].stamp, operation, request, story.last.value);
    }
  }

  /** After contended turns only, a push without an answer is resolved by the accepted history.  If it had
      taken effect, the call returns its result, as a replay. */
  lemma LostTurnResolves(start: Commit, turns: seq<Turn>, operation: string, request: Request, k: nat,
                         story: Story, outcome: Outcome, end: Commit)
    requires Valid(start) && Explains(start, turns, operation, request, story, outcome, end) && ValidId(operation)
    requires k < |turns| && ContendsUpTo(start, turns, operation, request, k)
    requires var read := ReadAt(start, turns, k);
             && Unused(read, operation) && !Refusable(Head(read).sequence, Head(read).state, request)
             && turns[k].delivery != Heard
    ensures outcome == Replay(end, operation, request)
    ensures turns[k].delivery == LostAfter && FoundAt(start, turns, k) == ReadAt(start, turns, k) ==>
              Recorded(end, operation, request) && outcome.Returned?
  {
    hide Refusable, Landed, ReadAt, FoundAt, Builds, Valid;
    StartsOver(start, turns, operation, request, k, story, outcome, end);
    if turns[k].delivery == LostAfter && FoundAt(start, turns, k) == ReadAt(start, turns, k) {
      BuiltStays(ReadAt(start, turns, k), turns[k].stamp, operation, request, story.last.value, turns[k].after);
    }
  }

  /** Whatever others land on the built commit, it stays recorded. */
  lemma BuiltStays(read: Commit, stamp: nat, operation: string, request: Request, built: Commit, others: seq<Other>)
    requires Builds(read, stamp, operation, request, built)
    ensures Recorded(Landed(built, others), operation, request)
  {
    LandedIsValid(built, others);
    hide Advance;
    assert operation in built.document.operations by { AppliedAtMostOnce(built, operation); }
    LedgerGrows(built, Landed(built, others), operation);
    BuiltFingerprint(read, stamp, operation, request, built);
  }

  lemma BuiltFingerprint(read: Commit, stamp: nat, operation: string, request: Request, built: Commit)
    requires Builds(read, stamp, operation, request, built)
    ensures Recorded(built, operation, request)
  {
    hide Perform;
    FingerprintsAgree(built.request, request);
  }

  /** If every turn is lost by contention the call raises, and nothing of it is on the chain. */
  lemma ContentionExhausts(start: Commit, turns: seq<Turn>, operation: string, request: Request,
                           story: Story, outcome: Outcome, end: Commit)
    requires Explains(start, turns, operation, request, story, outcome, end) && ValidId(operation)
    requires ContendsUpTo(start, turns, operation, request, |turns|)
    ensures outcome == Raised && end == Landed(start, Before(turns, |turns|))
  {
    hide Refusable, Landed, Builds;
    StartsOver(start, turns, operation, request, |turns|, story, outcome, end);
  }

  /** A turn that was reached raises: its ledger has the id for other inputs, what it reads refuses the request,
      or the answer to its push is lost and the history does not hold the operation. */
  ghost predicate TurnRaises(read: Commit, turn: Turn, operation: string, request: Request, end: Commit) {
    || (!Unused(read, operation) && !Recorded(read, operation, request))
    || (Unused(read, operation) && Refusable(Head(read).sequence, Head(read).state, request))
    || (Unused(read, operation) && turn.delivery != Heard && !Recorded(end, operation, request))
  }

  /** Those, an unusable id, and contention in every turn are the only reasons to raise. */
  lemma RaisesOnlyFor(start: Commit, turns: seq<Turn>, operation: string, request: Request,
                      story: Story, outcome: Outcome, end: Commit)
    requires Explains(start, turns, operation, request, story, outcome, end) && outcome == Raised
    ensures || !ValidId(operation)
            || (exists n: nat :: n < |turns| && TurnRaises(ReadAt(start, turns, n), turns[n], operation, request, end))
            || (forall n: nat :: n < |turns| ==>
                  turns[n].delivery == Heard && FoundAt(start, turns, n) != ReadAt(start, turns, n))
  {
    hide Refusable, Landed, Builds;
    if ValidId(operation) && |story.lost| < |turns| {
      assert TurnRaises(ReadAt(start, turns, |story.lost|), turns[|story.lost|], operation, request, end);
    }
  }

  lemma FingerprintsAgree(r: Request, s: Request)
    requires WithIndex(r, map[]) == WithIndex(s, map[])
    ensures Fingerprint(r) == Fingerprint(s)
  {
  }

  lemma BuildsAccepts(read: Commit, stamp: nat, operation: string, request: Request, c: Commit)
    requires Builds(read, stamp, operation, request, c)
    ensures Acceptable(Head(read).sequence, Head(read).state, request)
  {
    hide PatchEntities, AdmitClaims, AdmitPermits, AdmitEffects, IsIndex, OwnerPatchBlocked, AuthorityDrains,
      ActiveInstallation, VersionsMatch;
    var index := if c.request.Apply? then c.request.index else map[];
    assert c.request == WithIndex(request, index);
    assert ResolvedBy(Head(read).state, request, index);
  }

  /** The result is the one recorded for the operation id, and a result that is no replay is of a commit
      that this call built: the id was not on the chain before the call, and the commit is afterwards. */
  ghost predicate Answers(before: Commit, head: Commit, operation: string, request: Request, outcome: Outcome) {
    outcome.Returned? ==>
      && operation in Head(head).operations
      && Head(head).operations[operation] == Entry(Fingerprint(request), outcome.result)
      && (!outcome.replayed ==>
            && outcome.commit.Link? && outcome.commit.operation == operation && Within(outcome.commit, head)
            && operation !in Head(before).operations)
  }

  /** However the turns went, the chain stays valid and only grows, and the answer is the ledger's. */
  lemma AnswersAreRecorded(start: Commit, turns: seq<Turn>, operation: string, request: Request,
                           story: Story, outcome: Outcome, end: Commit)
    requires Valid(start) && Explains(start, turns, operation, request, story, outcome, end)
    ensures Valid(end) && Within(start, end) && Answers(start, end, operation, request, outcome)
  {
    hide Refusable, Landed, Advance, Settles, Valid, Contends, Answers;
    var n := |story.lost|;
    if ValidId(operation) && n < |turns| {
      LandedIsValid(start, Before(turns, n) + turns[n].before);
      LandedIsValid(start, Before(turns, n) + turns[n].before + turns[n].between);
      SettlesByLedger(start, ReadAt(start, turns, n), FoundAt(start, turns, n), turns[n], operation, request,
                      story.last, outcome, end);
    } else {
      assert Answers(start, end, operation, request, Raised) by { RaisedAnswers(start, end, operation, request); }
      if ValidId(operation) {
        LandedIsValid(start, Before(turns, n));
      }
    }
  }

  lemma RaisedAnswers(start: Commit, head: Commit, operation: string, request: Request)
    ensures Answers(start, head, operation, request, Raised)
  {
  }

  lemma SettlesByLedger(start: Commit, read: Commit, found: Commit, turn: Turn, operation: string, request: Request,
                        built: Option<Commit>, outcome: Outcome, end: Commit)
    requires Valid(read) && Within(start, read) && Valid(found) && Within(start, found)
    requires Settles(read, found, turn, operation, request, built, outcome, end)
    ensures Valid(end) && Within(start, end) && Answers(start, end, operation, request, outcome)
  {
    hide Refusable, Landed, Advance, Fingerprint, Valid;
    if Unused(read, operation) && built.Some? {
      assert Valid(built.value);
      BuiltFingerprint(read, turn.stamp, operation, request, built.value);
      NotBefore(start, read, operation);
      WithinTransitive(start, read, built.value);
      if turn.delivery != Heard {
        var pushed := Pushed(read, found, turn.delivery, built.value);
        LandedIsValid(pushed, turn.after);
        WithinTransitive(start, pushed, end);
      }
    }
  }

  lemma NotBefore(start: Commit, read: Commit, operation: string)
    requires Within(start, read) && Valid(read) && operation !in Head(read).operations
    ensures operation !in Head(start).operations
  {
    hide Advance;
    if operation in Head(start).operations {
      LedgerGrows(start, read, operation);
    }
  }
}
