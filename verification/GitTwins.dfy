/** Two attempts that build one and the same commit: both are answered as accepted, and both run the body. */
module GitTwins {
  import opened Options
  import opened GitState
  import opened GitChain
  import opened GitClients
  import opened GitClientSafety

  /** The client pushes, as the attempt, the admission of an effect with this operation id. */
  predicate Admits(w: World, i: nat, attempt: nat, operation: string) {
    && i in w.clients && w.clients[i].Pushing? && w.clients[i].attempt == attempt && attempt < |w.pushes|
    && w.clients[i].job.next.Execute? && EffectOperation(w.clients[i].job.next.call) == operation
    && w.pushes[attempt].fate == InFlight && w.pushes[attempt].commit.Link?
    && w.clients[i].job.operation in w.pushes[attempt].commit.document.operations
  }

  /** The pushes land one after the other, then both clients hear their verdicts. */
  function Race(i: nat, j: nat, a: nat, b: nat): seq<Action> { [Land(a), Land(b), Hear(i), Hear(j)] }

  function RunFrom(w: World, actions: seq<Action>): World {
    if actions == [] then w else Act(RunFrom(w, actions[..|actions|-1]), actions[|actions|-1])
  }

  lemma OneMore(w: World, actions: seq<Action>, a: Action)
    ensures RunFrom(w, actions + [a]) == Act(RunFrom(w, actions), a)
  {
    hide Act;
    assert (actions + [a])[..|actions|] == actions;
  }

  lemma RaceRuns(w: World, i: nat, j: nat, a: nat, b: nat)
    ensures RunFrom(w, Race(i, j, a, b)) == Act(Act(Act(Act(w, Land(a)), Land(b)), Hear(i)), Hear(j))
  {
    hide Act;
    OneMore(w, [], Land(a));
    OneMore(w, [Land(a)], Land(b));
    OneMore(w, [Land(a), Land(b)], Hear(i));
    OneMore(w, [Land(a), Land(b), Hear(i)], Hear(j));
    assert [] + [Land(a)] == [Land(a)] && [Land(a)] + [Land(b)] == [Land(a), Land(b)];
    assert [Land(a), Land(b)] + [Hear(i)] == [Land(a), Land(b), Hear(i)];
    assert [Land(a), Land(b), Hear(i)] + [Hear(j)] == Race(i, j, a, b);
  }

  lemma BothAccepted(w: World, a: nat, b: nat)
    requires a != b && a < |w.pushes| && b < |w.pushes| && w.pushes[a].fate == InFlight && w.pushes[b].fate == InFlight
    requires w.pushes[a].commit == w.pushes[b].commit && w.pushes[a].commit.Link? && w.pushes[a].commit.parent == w.head
    ensures var c := w.pushes[a].commit;
            Act(Act(w, Land(a)), Land(b)) ==
              w.(head := c, pushes := w.pushes[a := Push(c, Accepted)][b := Push(c, Accepted)])
  {
    hide Returns, ReadHead, HearVerdict, ResolveLost;
  }

  lemma HearRuns(w: World, i: nat, operation: string)
    requires i in w.clients && w.clients[i].Pushing? && w.clients[i].attempt < |w.pushes|
    requires w.clients[i].job.next.Execute? && EffectOperation(w.clients[i].job.next.call) == operation
    requires var p := w.pushes[w.clients[i].attempt];
             p.fate == Accepted && p.commit.Link? && w.clients[i].job.operation in p.commit.document.operations
    ensures var after := Act(w, Hear(i));
            && |after.returned| == |w.returned| + 1 && after.returned[..|w.returned|] == w.returned
            && RunsBody(after.returned[|w.returned|], operation)
            && after.pushes == w.pushes && after.clients == w.clients[i := Body(w.clients[i].job.next.call)]
  {
    hide EffectOperation;
  }

  /** Whenever two clients push one commit for one effect on the current head, the race can run the body
      twice, whatever else the world holds. */
  lemma TwinsRunTwice(w: World, i: nat, j: nat, a: nat, b: nat, operation: string)
    requires i != j && a != b && Admits(w, i, a, operation) && Admits(w, j, b, operation)
    requires w.pushes[a].commit == w.pushes[b].commit && w.pushes[a].commit.parent == w.head
    ensures var after := RunFrom(w, Race(i, j, a, b));
            var n := |w.returned|;
            |after.returned| == n + 2 && RunsBody(after.returned[n], operation)
              && RunsBody(after.returned[n+1], operation)
  {
    hide Act, EffectOperation, RunsBody;
    RaceRuns(w, i, j, a, b);
    BothAccepted(w, a, b);
    var landed := Act(Act(w, Land(a)), Land(b));
    HearRuns(landed, i, operation);
    var heard := Act(landed, Hear(i));
    HearRuns(heard, j, operation);
    var n := |w.returned|;
    assert Act(heard, Hear(j)).returned[..n+1][n] == heard.returned[n];
  }

  // ---- such a race is reachable -------------------------------------------------------------

  const CALL := EffectCall("ann", "laptop", "task", "t", "ann", 1, 1, "run", "host")

  const ENTITY := Entity(Some("task"), Some("t"), Some("garden"), Some("ann"), Some(1), None, None, Some(1))

  const BOOT := Bootstrap(map["ann" := Member(true, Administrative, true, {})], map["laptop" := "ann"], map[],
                          map["task:t" := ENTITY])

  const OWNED := EMPTY.(members := BOOT.members, installations := BOOT.installations, entities := BOOT.entities)

  function CallClaim(): Claim {
    Claim(ClaimOperation(CALL), Some("task"), Some("t"), Some("ann"), Some(1), "ann", "laptop")
  }

  function Index(): map<string, string> { map[ClaimOperation(CALL) := "task:t"] }

  function Claimed(): State { OWNED.(claims := map["task:t" := CallClaim()]) }

  function Admitted(): State {
    Claimed().(permits := map[EffectOperation(CALL) := Permit(ClaimOperation(CALL), None, "ann", "laptop")],
               effects := map[EffectOperation(CALL) := Effect(ClaimOperation(CALL), Some("host"), Some("task:t"),
                                                              Some("run"),
                                                               Some(Pending), "ann", "laptop")])
  }

  lemma Names()
    ensures EntityKey(CALL) == "task:t"
    ensures 0 < |ClaimOperation(CALL)| <= 200 && ClaimOperation(CALL)[0] == 'c'
    ensures 0 < |EffectOperation(CALL)| <= 200 && EffectOperation(CALL)[0] == 'e'
  {
    assert GitClients.Shown(1) == "1";
  }

  lemma BootAdvances()
    ensures Perform(0, EMPTY, BOOT) == Some((OWNED, Bootstrapped({"task:t"})))
  {
    assert EMPTY.revoked + BOOT.revoked == map[];
    assert BOOT.entities.Keys == {"task:t"};
  }

  lemma ClaimAdvances()
    ensures ApplyChanges(OWNED, WithIndex(ClaimRequest(CALL), Index())) == Some(Claimed())
  {
    Names();
    hide EntityKey, ClaimOperation, EffectOperation;
    var r := WithIndex(ClaimRequest(CALL), Index());
    var row := r.changes.claims[0].row;
    assert r.changes.claims[..0] == [];
    assert AdmitClaims(OWNED.entities, map[], "ann", "laptop", []) == Some(map[]);
    assert AdmitClaim(OWNED.entities, map[], "ann", "laptop", "task:t", row) == Some(map["task:t" := CallClaim()]);
  }

  lemma AdmissionAdvances()
    ensures ApplyChanges(Claimed(), WithIndex(AdmitRequest(CALL), Index())) == Some(Admitted())
  {
    Names();
    hide EntityKey, ClaimOperation, EffectOperation;
    var r, s := WithIndex(AdmitRequest(CALL), Index()), Claimed();
    assert r.changes.permits[..0] == [] && r.changes.effects[..0] == [];
    assert AdmitPermits(s.entities, Index(), map[], "ann", "laptop", []) == Some(map[]);
    assert AdmitEffects(s.entities, Index(), map[], "ann", "laptop", []) == Some(map[]);
    assert AdmitPermit(s.entities, Index(), map[], "ann", "laptop", EffectOperation(CALL), r.changes.permits[0].row)
        == Some(Admitted().permits);
    assert AdmitEffect(s.entities, Index(), map[], "ann", "laptop", EffectOperation(CALL), r.changes.effects[0].row)
        == Some(Admitted().effects);
  }

  lemma {:induction false} FromStart(actions: seq<Action>)
    ensures RunFrom(START, actions) == Run(actions)
  {
    hide Act;
    if actions != [] {
      FromStart(actions[..|actions|-1]);
    }
  }

  lemma {:induction false} Continues(w: World, first: seq<Action>, rest: seq<Action>)
    ensures RunFrom(w, first + rest) == RunFrom(RunFrom(w, first), rest)
  {
    hide Act;
    if rest == [] {
      assert first + rest == first;
    } else {
      Continues(w, first, rest[..|rest|-1]);
      assert (first + rest)[..|first + rest|-1] == first + rest[..|rest|-1];
    }
  }

  // ---- one client alone ---------------------------------------------------------------------

  /** The head, the pushes and the clients; history aside. */
  predicate Stands(w: World, head: Commit, pushes: nat, clients: map<nat, Client>) {
    w.head == head && |w.pushes| == pushes && w.clients == clients
  }

  function Alone(i: nat, index: map<string, string>, stamp: nat, attempt: nat): seq<Action> {
    [Read(i, index, stamp), Land(attempt), Hear(i)]
  }

  lemma AloneRuns(w: World, i: nat, index: map<string, string>, stamp: nat, attempt: nat)
    ensures RunFrom(w, Alone(i, index, stamp, attempt)) ==
              Act(Act(Act(w, Read(i, index, stamp)), Land(attempt)), Hear(i))
  {
    hide Act;
    var r, l, h := Read(i, index, stamp), Land(attempt), Hear(i);
    OneMore(w, [], r);
    OneMore(w, [r], l);
    OneMore(w, [r, l], h);
    assert [] + [r] == [r] && [r] + [l] == [r, l] && [r, l] + [h] == Alone(i, index, stamp, attempt);
  }

  predicate Ready(w: World, i: nat, job: Job, index: map<string, string>) {
    && i in w.clients && w.clients[i].Reading? && w.clients[i].job == job
    && 0 < |job.operation| <= 200 && job.operation !in Head(w.head).operations
    && Advance(Head(w.head), job.operation, WithIndex(job.request, index)).Some?
  }

  function Built(w: World, job: Job, index: map<string, string>, stamp: nat): Commit
    requires Advance(Head(w.head), job.operation, WithIndex(job.request, index)).Some?
  {
    var r := WithIndex(job.request, index);
    Link(w.head, stamp, job.operation, r, Advance(Head(w.head), job.operation, r).value)
  }

  lemma ReadPushes(w: World, i: nat, job: Job, index: map<string, string>, stamp: nat)
    requires Ready(w, i, job, index)
    ensures Act(w, Read(i, index, stamp)) ==
            w.(pushes := w.pushes + [Push(Built(w, job, index, stamp), InFlight)],
               clients := w.clients[i := Pushing(job, w.clients[i].left, |w.pushes|)])
  {
    hide Perform, Advance, Returns;
  }

  /** Without a rival the transaction is accepted at the first attempt. */
  lemma AloneIsAccepted(w: World, i: nat, job: Job, index: map<string, string>, stamp: nat)
    requires Ready(w, i, job, index)
    ensures var after := RunFrom(w, Alone(i, index, stamp, |w.pushes|));
            && after.head == Built(w, job, index, stamp) && |after.pushes| == |w.pushes| + 1
            && after.clients == match job.next
                                case Stop => w.clients - {i}
                                case Admit(call) => w.clients[i := Reading(AdmitJob(call), RETRIES)]
                                case Execute(call) => w.clients[i := Body(call)]
  {
    hide Perform, WithIndex, AdmitRequest, EffectOperation;
    AloneRuns(w, i, index, stamp, |w.pushes|);
    ReadPushes(w, i, job, index, stamp);
    var pushed, commit := Act(w, Read(i, index, stamp)), Built(w, job, index, stamp);
    assert pushed.pushes[|w.pushes|] == Push(commit, InFlight);
    assert commit != w.head by { NotItsParent(commit); }
    var landed := Act(pushed, Land(|w.pushes|));
    assert landed.pushes[|w.pushes|] == Push(commit, Accepted) && landed.head == commit
      && landed.clients == pushed.clients;
    assert job.operation in commit.document.operations;
  }

  lemma NotItsParent(c: Commit)
    requires c.Link?
    ensures c != c.parent
  {
  }

  // ---- the run ------------------------------------------------------------------------------

  const D1 := Document(1, map["init" := Entry(BOOT, Bootstrapped({"task:t"}))], OWNED)

  function C1(): Commit { Link(Root, 0, "init", BOOT, D1) }

  function ClaimDone(): Result { Applied(2, set e | e in Claimed().effects && Unresolved(Claimed().effects[e])) }

  function D2(): Document {
    Document(2, D1.operations[ClaimOperation(CALL) := Entry(ClaimRequest(CALL), ClaimDone())], Claimed())
  }

  function C2(): Commit { Link(C1(), 0, ClaimOperation(CALL), WithIndex(ClaimRequest(CALL), Index()), D2()) }

  lemma FirstDocument()
    ensures Advance(FIRST, "init", BOOT) == Some(D1)
  {
    hide BootstrapOf;
    BootAdvances();
  }

  lemma Documents()
    ensures Advance(D1, ClaimOperation(CALL), WithIndex(ClaimRequest(CALL), Index())) == Some(D2())
    ensures Advance(D2(), EffectOperation(CALL), WithIndex(AdmitRequest(CALL), Index())).Some?
  {
    ClaimAdvances();
    AdmissionAdvances();
    assert Fingerprint(WithIndex(ClaimRequest(CALL), Index())) == ClaimRequest(CALL);
    hide ApplyChanges, Claimed, Admitted, ClaimOperation, EffectOperation, Index, BootstrapOf;
  }

  function Prologue(): seq<Action> {
    [Begin(0, "init", BOOT)] + Alone(0, map[], 0, 0) + [BeginEffect(1, CALL)] + Alone(1, Index(), 0, 1)
    + [BeginEffect(2, CALL)] + [Read(2, map[], 0)]
  }

  /** Two processes of one installation are about to admit the same effect. */
  lemma PrologueRuns()
    ensures Stands(Run(Prologue()), C2(), 2,
                   map[1 := Reading(AdmitJob(CALL), RETRIES), 2 := Reading(AdmitJob(CALL), RETRIES)])
  {
    hide Act, ClaimRequest, AdmitRequest, ClaimOperation, EffectOperation, Advance, Index, Alone, Built,
      Claimed, Admitted, ClaimDone;
    FromStart(Prologue());
    var a1 := [Begin(0, "init", BOOT)];
    var a2 := a1 + Alone(0, map[], 0, 0);
    var a3 := a2 + [BeginEffect(1, CALL)];
    var a4 := a3 + Alone(1, Index(), 0, 1);
    var a5 := a4 + [BeginEffect(2, CALL)];
    OneMore(START, [], Begin(0, "init", BOOT));
    assert [] + [Begin(0, "init", BOOT)] == a1;
    BootBegins();
    Continues(START, a1, Alone(0, map[], 0, 0));
    BootLands(RunFrom(START, a1));
    OneMore(START, a2, BeginEffect(1, CALL));
    ClaimBegins(RunFrom(START, a2));
    Continues(START, a3, Alone(1, Index(), 0, 1));
    ClaimLands(RunFrom(START, a3));
    OneMore(START, a4, BeginEffect(2, CALL));
    SecondBegins(RunFrom(START, a4));
    OneMore(START, a5, Read(2, map[], 0));
    SecondReplays(RunFrom(START, a5));
  }

  const BOOT_JOB := Job("init", BOOT, Stop)

  lemma BootBegins()
    ensures Stands(Act(START, Begin(0, "init", BOOT)), Root, 0, map[0 := Reading(BOOT_JOB, RETRIES)])
  {
  }

  lemma BootLands(w: World)
    requires Stands(w, Root, 0, map[0 := Reading(BOOT_JOB, RETRIES)])
    ensures Stands(RunFrom(w, Alone(0, map[], 0, 0)), C1(), 1, map[])
  {
    hide Act, Alone, Perform;
    FirstDocument();
    assert WithIndex(BOOT, map[]) == BOOT;
    AloneIsAccepted(w, 0, BOOT_JOB, map[], 0);
    assert map[0 := Reading(BOOT_JOB, RETRIES)] - {0} == map[];
  }

  lemma ClaimBegins(w: World)
    requires Stands(w, C1(), 1, map[])
    ensures Stands(Act(w, BeginEffect(1, CALL)), C1(), 1, map[1 := Reading(ClaimJob(CALL), RETRIES)])
  {
    hide ClaimJob;
  }

  lemma ClaimLands(w: World)
    requires Stands(w, C1(), 1, map[1 := Reading(ClaimJob(CALL), RETRIES)])
    ensures Stands(RunFrom(w, Alone(1, Index(), 0, 1)), C2(), 2, map[1 := Reading(AdmitJob(CALL), RETRIES)])
  {
    hide Act, Alone, Perform, ClaimRequest, AdmitRequest, ClaimOperation, EffectOperation, Index, Advance, Claimed;
    Documents();
    Names();
    assert ClaimOperation(CALL) != "init";
    AloneIsAccepted(w, 1, ClaimJob(CALL), Index(), 0);
    assert map[1 := Reading(ClaimJob(CALL), RETRIES)][1 := Reading(AdmitJob(CALL), RETRIES)] ==
      map[1 := Reading(AdmitJob(CALL), RETRIES)];
  }

  lemma SecondBegins(w: World)
    requires Stands(w, C2(), 2, map[1 := Reading(AdmitJob(CALL), RETRIES)])
    ensures Stands(Act(w, BeginEffect(2, CALL)), C2(), 2,
                   map[1 := Reading(AdmitJob(CALL), RETRIES), 2 := Reading(ClaimJob(CALL), RETRIES)])
  {
    hide ClaimJob, AdmitJob, C2;
  }

  /** The second process finds its claim recorded already. */
  lemma SecondReplays(w: World)
    requires Stands(w, C2(), 2, map[1 := Reading(AdmitJob(CALL), RETRIES), 2 := Reading(ClaimJob(CALL), RETRIES)])
    ensures Stands(Act(w, Read(2, map[], 0)), C2(), 2,
                   map[1 := Reading(AdmitJob(CALL), RETRIES), 2 := Reading(AdmitJob(CALL), RETRIES)])
  {
    Names();
    assert Fingerprint(ClaimRequest(CALL)) == ClaimRequest(CALL);
    hide ClaimRequest, AdmitRequest, ClaimOperation, EffectOperation, Perform, Advance;
    assert Head(w.head).operations[ClaimOperation(CALL)] == Entry(ClaimRequest(CALL), ClaimDone());
  }

  lemma BothPush(w: World)
    requires Stands(w, C2(), 2, map[1 := Reading(AdmitJob(CALL), RETRIES), 2 := Reading(AdmitJob(CALL), RETRIES)])
    ensures var pushed := Act(Act(w, Read(1, Index(), 7)), Read(2, Index(), 7));
            && Admits(pushed, 1, 2, EffectOperation(CALL)) && Admits(pushed, 2, 3, EffectOperation(CALL))
            && pushed.pushes[2].commit == pushed.pushes[3].commit && pushed.pushes[2].commit.parent == pushed.head
  {
    hide Act, Perform, ClaimRequest, AdmitRequest, ClaimOperation, EffectOperation, Index, Claimed, Admitted;
    Documents();
    Names();
    assert EffectOperation(CALL) !in D2().operations;
    ReadPushes(w, 1, AdmitJob(CALL), Index(), 7);
    var one := Act(w, Read(1, Index(), 7));
    ReadPushes(one, 2, AdmitJob(CALL), Index(), 7);
    AdvanceRecords(D2(), EffectOperation(CALL), WithIndex(AdmitRequest(CALL), Index()));
  }

  lemma AdvanceRecords(d: Document, operation: string, r: Request)
    requires Advance(d, operation, r).Some?
    ensures operation in Advance(d, operation, r).value.operations
  {
  }

  function Twins(): seq<Action> { Prologue() + [Read(1, Index(), 7)] + [Read(2, Index(), 7)] + Race(1, 2, 2, 3) }

  /** A run from the empty ref in which the body of one effect runs twice: two processes of one
      installation admit it in the same second. */
  lemma BodyRunsTwice()
    ensures var w := Run(Twins());
            exists m: nat, n: nat :: m < n < |w.returned|
              && RunsBody(w.returned[m], EffectOperation(CALL)) && RunsBody(w.returned[n], EffectOperation(CALL))
  {
    hide Act, ClaimRequest, AdmitRequest, ClaimOperation, EffectOperation, Index, Race, Prologue, C2, RunsBody,
      AdmitJob;
    var a1 := Prologue();
    var a2 := a1 + [Read(1, Index(), 7)];
    var a3 := a2 + [Read(2, Index(), 7)];
    PrologueRuns();
    FromStart(a1);
    OneMore(START, a1, Read(1, Index(), 7));
    OneMore(START, a2, Read(2, Index(), 7));
    BothPush(Run(a1));
    var w := RunFrom(START, a3);
    TwinsRunTwice(w, 1, 2, 2, 3, EffectOperation(CALL));
    Continues(START, a3, Race(1, 2, 2, 3));
    FromStart(Twins());
    var n: nat := |w.returned|;
    assert n < n + 1 < |Run(Twins()).returned| && RunsBody(Run(Twins()).returned[n], EffectOperation(CALL));
  }
}
