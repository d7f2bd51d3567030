/** What holds however the clients' steps interleave. */
module GitClientSafety {
  import opened Options
  import opened GitState
  import GitSafety
  import opened GitChain
  import opened GitClients

  // ---- the invariant ------------------------------------------------------------------------

  ghost predicate PushHolds(head: Commit, p: Push) {
    && p.commit.Link? && Valid(p.commit)
    && (p.fate == Accepted ==> Within(p.commit, head))
  }

  ghost predicate PushesHold(head: Commit, pushes: seq<Push>) {
    Valid(head) && forall a {:trigger pushes[a]} :: 0 <= a < |pushes| ==> PushHolds(head, pushes[a])
  }

  predicate JobNamed(job: Job) { job.next.Execute? ==> job.operation == EffectOperation(job.next.call) }

  predicate ClientHolds(pushes: seq<Push>, c: Client) {
    && (c.Body? || JobNamed(c.job))
    && (c.Pushing? ==>
          && c.attempt < |pushes| && pushes[c.attempt].commit.Link?
          && pushes[c.attempt].commit.operation == c.job.operation
          && Fingerprint(pushes[c.attempt].commit.request) == Fingerprint(c.job.request))
  }

  predicate ClientsHold(pushes: seq<Push>, clients: map<nat, Client>) {
    forall i {:trigger clients[i]} :: i in clients ==> ClientHolds(pushes, clients[i])
  }

  predicate ClientsApart(clients: map<nat, Client>) {
    forall i, j {:trigger clients[i], clients[j]} ::
      i in clients && j in clients && clients[i].Pushing? && clients[j].Pushing?
      && clients[i].attempt == clients[j].attempt
      ==> i == j
  }

  /** What a transaction returned is what the accepted document records for its operation id, and a
      result that is no replay comes from the client's own accepted commit. */
  predicate ReturnHolds(operations: map<string, Entry>, pushes: seq<Push>, r: Return) {
    && JobNamed(r.job) && r.job.operation in operations
    && operations[r.job.operation] == Entry(Fingerprint(r.job.request), r.result)
    && (!r.replayed ==>
          && r.attempt < |pushes| && pushes[r.attempt].fate == Accepted
          && pushes[r.attempt].commit.Link? && pushes[r.attempt].commit.operation == r.job.operation)
  }

  predicate ReturnsHold(operations: map<string, Entry>, pushes: seq<Push>, returned: seq<Return>) {
    forall n {:trigger returned[n]} :: 0 <= n < |returned| ==> ReturnHolds(operations, pushes, returned[n])
  }

  /** An attempt answers one transaction once. */
  predicate ReturnsApart(returned: seq<Return>, clients: map<nat, Client>) {
    && (forall m, n {:trigger returned[m], returned[n]} ::
          0 <= m < n < |returned| && !returned[m].replayed && !returned[n].replayed ==>
          returned[m].attempt != returned[n].attempt)
    && (forall n, i {:trigger returned[n], clients[i]} ::
          0 <= n < |returned| && !returned[n].replayed && i in clients && clients[i].Pushing? ==>
          returned[n].attempt != clients[i].attempt)
  }

  ghost predicate WInv(w: World) {
    && PushesHold(w.head, w.pushes)
    && ClientsHold(w.pushes, w.clients)
    && ClientsApart(w.clients)
    && ReturnsHold(Head(w.head).operations, w.pushes, w.returned)
    && ReturnsApart(w.returned, w.clients)
  }

  // ---- each step keeps it -------------------------------------------------------------------

  /** A client that holds no push may go on to anything that holds none. */
  lemma BecomesKeeps(w: World, i: nat, c: Client)
    requires WInv(w) && !c.Pushing? && ClientHolds(w.pushes, c)
    ensures WInv(Becomes(w, i, c))
  {
    hide PushesHold, ReturnsHold;
  }

  lemma LeavesKeeps(w: World, i: nat)
    requires WInv(w)
    ensures WInv(Leaves(w, i))
  {
    hide PushesHold, ReturnsHold;
  }

  lemma HistoryKeeps(w: World, begun: set<Job>, completed: set<string>)
    requires WInv(w)
    ensures WInv(w.(begun := begun, completed := completed))
  {
    hide PushesHold, ClientsHold, ClientsApart, ReturnsHold, ReturnsApart;
  }

  lemma StartsKeeps(w: World, i: nat, job: Job)
    requires WInv(w) && JobNamed(job)
    ensures WInv(Starts(w, i, job))
  {
    hide WInv;
    HistoryKeeps(w, w.begun + {job}, w.completed);
    BecomesKeeps(w.(begun := w.begun + {job}), i, Reading(job, RETRIES));
  }

  lemma LoggedKeeps(w: World, i: nat, r: Return)
    requires WInv(w) && i in w.clients && ReturnHolds(Head(w.head).operations, w.pushes, r)
    requires !r.replayed ==> w.clients[i].Pushing? && w.clients[i].attempt == r.attempt
    ensures WInv(Leaves(w.(returned := w.returned + [r]), i))
  {
    hide PushesHold, ReturnHolds, ClientHolds;
    var after := Leaves(w.(returned := w.returned + [r]), i);
    var n := |w.returned|;
    assert forall m :: 0 <= m < n ==> after.returned[m] == w.returned[m];
  }

  lemma ReturnsKeep(w: World, i: nat, job: Job, result: Result, replayed: bool, attempt: nat)
    requires WInv(w) && i in w.clients
    requires ReturnHolds(Head(w.head).operations, w.pushes, Return(job, result, replayed, attempt))
    requires !replayed ==> w.clients[i].Pushing? && w.clients[i].attempt == attempt
    ensures WInv(Returns(w, i, job, result, replayed, attempt))
  {
    hide WInv, ReturnHolds;
    var logged := w.(returned := w.returned + [Return(job, result, replayed, attempt)]);
    var left := Leaves(logged, i);
    LoggedKeeps(w, i, Return(job, result, replayed, attempt));
    match job.next
    case Stop =>
    case Admit(call) =>
      var job := AdmitJob(call);
      StartsKeeps(left, i, job);
      assert left.clients[i := Reading(job, RETRIES)] == logged.clients[i := Reading(job, RETRIES)];
    case Execute(call) =>
      BecomesKeeps(left, i, Body(call));
      assert left.clients[i := Body(call)] == logged.clients[i := Body(call)];
  }

  lemma PushKeeps(w: World, i: nat, left: nat, job: Job, commit: Commit)
    requires WInv(w) && JobNamed(job) && commit.Link? && Valid(commit)
    requires commit.operation == job.operation && Fingerprint(commit.request) == Fingerprint(job.request)
    ensures WInv(Becomes(w.(pushes := w.pushes + [Push(commit, InFlight)]), i, Pushing(job, left, |w.pushes|)))
  {
    hide Valid, Within;
    var pushes := w.pushes + [Push(commit, InFlight)];
    assert forall a :: 0 <= a < |w.pushes| ==> pushes[a] == w.pushes[a];
    forall n | 0 <= n < |w.returned| ensures ReturnHolds(Head(w.head).operations, pushes, w.returned[n]) {
      assert ReturnHolds(Head(w.head).operations, w.pushes, w.returned[n]);
    }
    forall a | 0 <= a < |pushes| ensures PushHolds(w.head, pushes[a]) {
      assert a < |w.pushes| ==> PushHolds(w.head, w.pushes[a]);
    }
    forall n | 0 <= n < |w.returned| && !w.returned[n].replayed ensures w.returned[n].attempt < |w.pushes| {
      assert ReturnHolds(Head(w.head).operations, w.pushes, w.returned[n]);
    }
    forall j | j in w.clients && w.clients[j].Pushing? ensures w.clients[j].attempt < |w.pushes| {
      assert ClientHolds(w.pushes, w.clients[j]);
    }
  }

  lemma FingerprintIgnoresIndex(r: Request, index: map<string, string>)
    ensures Fingerprint(WithIndex(r, index)) == Fingerprint(r)
  {
  }

  lemma ReadKeeps(w: World, i: nat, job: Job, left: nat, index: map<string, string>, stamp: nat)
    requires WInv(w) && i in w.clients && w.clients[i] == Reading(job, left)
    ensures WInv(ReadHead(w, i, job, left, index, stamp))
  {
    hide WInv, Perform, Returns, Becomes, Leaves;
    var d := Head(w.head);
    LeavesKeeps(w, i);
    ClientOf(w, i);
    if job.operation in d.operations {
      if d.operations[job.operation].fingerprint == Fingerprint(job.request) {
        ReturnsKeep(w, i, job, d.operations[job.operation].result, true, 0);
      }
    } else {
      var request := WithIndex(job.request, index);
      var next := Advance(d, job.operation, request);
      FingerprintIgnoresIndex(job.request, index);
      if next.Some? {
        PushKeeps(w, i, left, job, Link(w.head, stamp, job.operation, request, next.value));
      }
    }
  }

  lemma ClientOf(w: World, i: nat)
    requires WInv(w) && i in w.clients
    ensures Valid(w.head) && ClientHolds(w.pushes, w.clients[i])
  {
  }

  /** The verdict of a push changes nothing but that push. */
  lemma FateKeeps(w: World, attempt: nat, head: Commit, fate: Fate)
    requires WInv(w) && attempt < |w.pushes| && w.pushes[attempt].fate == InFlight
    requires fate == Accepted ==>
               head == w.pushes[attempt].commit && (head == w.head || (head.Link? && head.parent == w.head))
    requires fate != Accepted ==> head == w.head
    ensures WInv(w.(head := head, pushes := w.pushes[attempt := Push(w.pushes[attempt].commit, fate)]))
  {
    hide Perform, Advance;
    var pushes := w.pushes[attempt := Push(w.pushes[attempt].commit, fate)];
    assert PushHolds(w.head, w.pushes[attempt]);
    forall a | 0 <= a < |pushes| ensures PushHolds(head, pushes[a]) {
      assert PushHolds(w.head, w.pushes[a]);
    }
    forall n | 0 <= n < |w.returned| ensures ReturnHolds(Head(head).operations, pushes, w.returned[n]) {
      var r := w.returned[n];
      assert ReturnHolds(Head(w.head).operations, w.pushes, r);
      assert Within(w.head, head);
      LedgerGrows(w.head, head, r.job.operation);
    }
    forall i | i in w.clients ensures ClientHolds(pushes, w.clients[i]) {
      assert ClientHolds(w.pushes, w.clients[i]);
    }
  }

  lemma LandKeeps(w: World, attempt: nat)
    requires WInv(w) && attempt < |w.pushes| && w.pushes[attempt].fate == InFlight
    ensures WInv(LandPush(w, attempt))
  {
    hide WInv, Valid;
    var commit := w.pushes[attempt].commit;
    if commit == w.head || (commit.Link? && commit.parent == w.head) {
      FateKeeps(w, attempt, commit, Accepted);
      assert commit == w.head ==> w == w.(head := commit);
    } else {
      FateKeeps(w, attempt, w.head, Rejected);
      assert w == w.(head := w.head);
    }
  }

  lemma HearKeeps(w: World, i: nat, job: Job, left: nat, attempt: nat)
    requires WInv(w) && i in w.clients && w.clients[i] == Pushing(job, left, attempt) && attempt < |w.pushes|
    ensures WInv(HearVerdict(w, i, job, left, attempt))
  {
    hide WInv, Returns, Becomes, Leaves, Perform;
    ClientOf(w, i);
    LeavesKeeps(w, i);
    if left > 1 {
      BecomesKeeps(w, i, Reading(job, left - 1));
    }
    var push := w.pushes[attempt];
    if push.fate == Accepted {
      AcceptedOf(w, attempt);
      LedgerGrows(push.commit, w.head, job.operation);
      ReturnsKeep(w, i, job, push.commit.document.operations[job.operation].result, false, attempt);
    }
  }

  lemma AcceptedOf(w: World, attempt: nat)
    requires WInv(w) && attempt < |w.pushes| && w.pushes[attempt].fate == Accepted
    ensures var c := w.pushes[attempt].commit;
            && c.Link? && Within(c, w.head) && Valid(w.head)
            && c.operation in c.document.operations
            && c.document.operations[c.operation].fingerprint == Fingerprint(c.request)
  {
    hide Perform;
    assert PushHolds(w.head, w.pushes[attempt]);
  }

  lemma ResolveKeeps(w: World, i: nat, job: Job)
    requires WInv(w) && i in w.clients && w.clients[i] == Resolving(job)
    ensures WInv(ResolveLost(w, i, job))
  {
    hide WInv, Returns, Leaves;
    ClientOf(w, i);
    LeavesKeeps(w, i);
    var d := Head(w.head);
    if job.operation in d.operations && d.operations[job.operation].fingerprint == Fingerprint(job.request) {
      ReturnsKeep(w, i, job, d.operations[job.operation].result, true, 0);
    }
  }

  lemma ActKeeps(w: World, a: Action)
    requires WInv(w)
    ensures WInv(Act(w, a))
  {
    hide WInv, Plain, ReadHead, LandPush, HearVerdict, ResolveLost, Leaves, Becomes, Starts, ClaimRequest,
      AdmitRequest, FinishRequest;
    match a
    case Begin(i, operation, request) => StartsKeeps(w, i, Job(operation, request, Stop));
    case BeginEffect(i, call) => StartsKeeps(w, i, ClaimJob(call));
    case Read(i, index, stamp) =>
      if i in w.clients && w.clients[i].Reading? { ReadKeeps(w, i, w.clients[i].job, w.clients[i].left, index, stamp); }
    case Land(attempt) =>
      if attempt < |w.pushes| && w.pushes[attempt].fate == InFlight { LandKeeps(w, attempt); }
    case Refuse(attempt) =>
      if attempt < |w.pushes| && w.pushes[attempt].fate == InFlight {
        FateKeeps(w, attempt, w.head, Rejected);
        assert w == w.(head := w.head);
      }
    case Hear(i) =>
      if i in w.clients && w.clients[i].Pushing? && w.clients[i].attempt < |w.pushes| {
        HearKeeps(w, i, w.clients[i].job, w.clients[i].left, w.clients[i].attempt);
      }
    case Lose(i) =>
      if i in w.clients && w.clients[i].Pushing? {
        ClientOf(w, i);
        BecomesKeeps(w, i, Resolving(w.clients[i].job));
      }
    case Resolve(i) => if i in w.clients && w.clients[i].Resolving? { ResolveKeeps(w, i, w.clients[i].job); }
    case EndBody(i, ok) =>
      if i in w.clients && w.clients[i].Body? {
        var call := w.clients[i].call;
        var completed := if ok then w.completed + {EffectOperation(call)} else w.completed;
        HistoryKeeps(w, w.begun, completed);
        assert w.(completed := completed) == w.(begun := w.begun, completed := completed);
        StartsKeeps(w.(completed := completed), i, FinishJob(call, ok));
      }
    case Crash(i) => LeavesKeeps(w, i);
  }

  lemma {:induction false} RunKeeps(actions: seq<Action>)
    ensures WInv(Run(actions))
  {
    hide Act;
    if actions == [] {
      assert Valid(START.head);
    } else {
      hide WInv;
      RunKeeps(actions[..|actions|-1]);
      ActKeeps(Run(actions[..|actions|-1]), actions[|actions|-1]);
    }
  }

  // ---- the theorems -------------------------------------------------------------------------

  /** However clients, pushes and acknowledgements interleave: the accepted chain applies each operation
      id at most once, it records as many operations as its sequence number says, its state is safe,
      and every result that a transaction ever returned is the one recorded for its operation id. */
  lemma TransactionsAreExact(actions: seq<Action>, operation: string, n: nat)
    ensures var w := Run(actions);
            && Applications(w.head, operation) <= 1
            && |Head(w.head).operations| == Head(w.head).sequence
            && GitSafety.Inv(Head(w.head).state)
            && (n < |w.returned| ==>
                  && w.returned[n].job.operation in Head(w.head).operations
                  && Head(w.head).operations[w.returned[n].job.operation]
                     == Entry(Fingerprint(w.returned[n].job.request), w.returned[n].result))
  {
    hide Run, GitSafety.Inv, Valid, Perform;
    var w := Run(actions);
    RunKeeps(actions);
    AppliedAtMostOnce(w.head, operation);
    OperationsCountSequence(w.head);
    ChainIsSafe(w.head);
    if n < |w.returned| {
      assert ReturnHolds(Head(w.head).operations, w.pushes, w.returned[n]);
    }
  }

  /** This return lets a client run the body of the effect. */
  predicate RunsBody(r: Return, operation: string) {
    r.job.next.Execute? && !r.replayed && EffectOperation(r.job.next.call) == operation
  }

  /** Two returns that let a body of one effect run are of two attempts that built the same commit. */
  lemma BodiesShareOneCommit(actions: seq<Action>, operation: string, m: nat, n: nat)
    requires m < |Run(actions).returned| && n < |Run(actions).returned|
    requires RunsBody(Run(actions).returned[m], operation) && RunsBody(Run(actions).returned[n], operation) && m != n
    ensures var w := Run(actions);
            var a, b := w.returned[m].attempt, w.returned[n].attempt;
            a != b && a < |w.pushes| && b < |w.pushes| && w.pushes[a].commit == w.pushes[b].commit
  {
    hide Run, Valid, Perform, Within;
    var w := Run(actions);
    RunKeeps(actions);
    var q, r := w.returned[m], w.returned[n];
    assert ReturnHolds(Head(w.head).operations, w.pushes, q) && ReturnHolds(Head(w.head).operations, w.pushes, r);
    assert PushHolds(w.head, w.pushes[q.attempt]) && PushHolds(w.head, w.pushes[r.attempt]);
    OneLink(w.pushes[q.attempt].commit, w.pushes[r.attempt].commit, w.head);
  }

  /** Attempts for one operation on one head differ in author or time. */
  ghost predicate StampsDiffer(pushes: seq<Push>, operation: string) {
    forall a, b {:trigger pushes[a], pushes[b]} ::
      0 <= a < b < |pushes| && pushes[a].commit.Link? && pushes[b].commit.Link?
      && pushes[a].commit.operation == operation == pushes[b].commit.operation
      && pushes[a].commit.parent == pushes[b].commit.parent
      ==> pushes[a].commit.stamp != pushes[b].commit.stamp
  }

  /** Over all retries, crashes and lost acknowledgements, by all clients, an effect's body runs at most
      once per effect operation id, as long as no two attempts for it build the same commit. */
  lemma BodyRunsAtMostOnce(actions: seq<Action>, operation: string, m: nat, n: nat)
    requires StampsDiffer(Run(actions).pushes, operation)
    requires m < |Run(actions).returned| && n < |Run(actions).returned|
    requires RunsBody(Run(actions).returned[m], operation) && RunsBody(Run(actions).returned[n], operation)
    ensures m == n
  {
    hide Run, Valid, Perform, Within, EffectOperation;
    var w := Run(actions);
    RunKeeps(actions);
    if m != n {
      BodiesShareOneCommit(actions, operation, m, n);
    }
    assert ReturnHolds(Head(w.head).operations, w.pushes, w.returned[m])
      && ReturnHolds(Head(w.head).operations, w.pushes, w.returned[n]);
  }
}
