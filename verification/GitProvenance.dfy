/** Where the links of the chain come from: every one was begun by some client, so what all begun
    transactions have in common holds of every link. */
module GitProvenance {
  import opened Options
  import opened GitState
  import GitSafety
  import opened GitChain
  import opened GitClients
  import opened GitClientSafety

  /** The link was built for a transaction that some client began. */
  ghost predicate Begun(begun: set<Job>, operation: string, r: Request) {
    exists job :: job in begun && job.operation == operation && Fingerprint(job.request) == Fingerprint(r)
  }

  ghost predicate ChainBegun(c: Commit, begun: set<Job>) {
    c.Link? ==> Begun(begun, c.operation, c.request) && ChainBegun(c.parent, begun)
  }

  ghost predicate Traced(w: World) {
    && ChainBegun(w.head, w.begun)
    && (forall a {:trigger w.pushes[a]} :: 0 <= a < |w.pushes| ==> ChainBegun(w.pushes[a].commit, w.begun))
    && (forall i {:trigger w.clients[i]} :: i in w.clients && !w.clients[i].Body? ==> w.clients[i].job in w.begun)
  }

  lemma {:induction false} BegunGrows(c: Commit, begun: set<Job>, more: set<Job>)
    requires ChainBegun(c, begun) && begun <= more
    ensures ChainBegun(c, more)
  {
    if c.Link? {
      BegunGrows(c.parent, begun, more);
    }
  }

  lemma BecomesTraced(w: World, i: nat, c: Client)
    requires Traced(w) && (!c.Body? ==> c.job in w.begun)
    ensures Traced(Becomes(w, i, c)) && Traced(Leaves(w, i))
  {
    hide ChainBegun;
  }

  lemma StartsTraced(w: World, i: nat, job: Job)
    requires Traced(w)
    ensures Traced(Starts(w, i, job))
  {
    hide Begun;
    var begun := w.begun + {job};
    BegunGrows(w.head, w.begun, begun);
    forall a | 0 <= a < |w.pushes| ensures ChainBegun(w.pushes[a].commit, begun) {
      BegunGrows(w.pushes[a].commit, w.begun, begun);
    }
  }

  lemma HistoryTraced(w: World, returned: seq<Return>, completed: set<string>)
    requires Traced(w)
    ensures Traced(w.(returned := returned, completed := completed))
  {
    hide ChainBegun;
  }

  lemma ReturnsTraced(w: World, i: nat, job: Job, result: Result, replayed: bool, attempt: nat)
    requires Traced(w) && i in w.clients && !w.clients[i].Body?
    ensures Traced(Returns(w, i, job, result, replayed, attempt))
  {
    var logged := w.(returned := w.returned + [Return(job, result, replayed, attempt)]);
    HistoryTraced(w, logged.returned, w.completed);
    ClientBegun(w, i);
    BecomesTraced(logged, i, w.clients[i]);
    hide Traced, AdmitJob;
    match job.next
    case Stop =>
    case Admit(call) => StartsTraced(logged, i, AdmitJob(call));
    case Execute(call) => BecomesTraced(logged, i, Body(call));
  }

  lemma ClientBegun(w: World, i: nat)
    requires Traced(w) && i in w.clients && !w.clients[i].Body?
    ensures w.clients[i].job in w.begun
  {
  }

  lemma ReadTraced(w: World, i: nat, job: Job, left: nat, index: map<string, string>, stamp: nat)
    requires Traced(w) && i in w.clients && w.clients[i] == Reading(job, left)
    ensures Traced(ReadHead(w, i, job, left, index, stamp))
  {
    ClientBegun(w, i);
    BecomesTraced(w, i, w.clients[i]);
    FingerprintIgnoresIndex(job.request, index);
    hide Traced, Perform, Returns, Becomes, Leaves, Advance;
    var d := Head(w.head);
    if job.operation in d.operations {
      ReturnsTraced(w, i, job, d.operations[job.operation].result, true, 0);
    } else {
      var request := WithIndex(job.request, index);
      var next := Advance(d, job.operation, request);
      if next.Some? {
        var pushes := w.pushes + [Push(Link(w.head, stamp, job.operation, request, next.value), InFlight)];
        PushTraced(w, pushes);
        BecomesTraced(w.(pushes := pushes), i, Pushing(job, left, |w.pushes|));
      }
    }
  }

  lemma PushTraced(w: World, pushes: seq<Push>)
    requires Traced(w) && |pushes| == |w.pushes| + 1 && pushes[..|w.pushes|] == w.pushes
    requires var c := pushes[|w.pushes|].commit; c.Link? && c.parent == w.head && Begun(w.begun, c.operation, c.request)
    ensures Traced(w.(pushes := pushes))
  {
    hide Begun;
    assert forall a :: 0 <= a < |w.pushes| ==> pushes[a] == w.pushes[a];
  }

  lemma FateTraced(w: World, attempt: nat, fate: Fate)
    requires Traced(w) && attempt < |w.pushes|
    ensures Traced(w.(pushes := w.pushes[attempt := Push(w.pushes[attempt].commit, fate)]))
    ensures Traced(w.(head := w.pushes[attempt].commit,
                      pushes := w.pushes[attempt := Push(w.pushes[attempt].commit, fate)]))
  {
    hide ChainBegun;
  }

  lemma VerdictTraced(w: World, i: nat)
    requires Traced(w)
    ensures Traced(Act(w, Hear(i))) && Traced(Act(w, Lose(i))) && Traced(Act(w, Resolve(i)))
  {
    if i in w.clients && !w.clients[i].Body? {
      var c := w.clients[i];
      ClientBegun(w, i);
      hide Traced, Returns, Becomes, Leaves;
      BecomesTraced(w, i, Resolving(c.job));
      if c.Pushing? && c.attempt < |w.pushes| {
        var push := w.pushes[c.attempt];
        if c.left > 1 {
          BecomesTraced(w, i, Reading(c.job, c.left - 1));
        }
        if push.commit.Link? && c.job.operation in push.commit.document.operations {
          ReturnsTraced(w, i, c.job, push.commit.document.operations[c.job.operation].result, false, c.attempt);
        }
      } else if c.Resolving? && c.job.operation in Head(w.head).operations {
        ReturnsTraced(w, i, c.job, Head(w.head).operations[c.job.operation].result, true, 0);
      }
    }
  }

  lemma ActTraced(w: World, a: Action)
    requires Traced(w)
    ensures Traced(Act(w, a))
  {
    hide Traced, Plain, ReadHead, Becomes, Returns, Starts, ClaimJob, AdmitJob, FinishJob, HearVerdict, ResolveLost;
    match a
    case Begin(i, operation, request) => StartsTraced(w, i, Job(operation, request, Stop));
    case BeginEffect(i, call) => StartsTraced(w, i, ClaimJob(call));
    case Read(i, index, stamp) =>
      if i in w.clients
        && w.clients[i].Reading? { ReadTraced(w, i, w.clients[i].job, w.clients[i].left, index, stamp); }
    case Land(attempt) =>
      if attempt < |w.pushes| {
        FateTraced(w, attempt, Accepted);
        FateTraced(w, attempt, Rejected);
      }
    case Refuse(attempt) => if attempt < |w.pushes| { FateTraced(w, attempt, Rejected); }
    case Hear(i) => VerdictTraced(w, i);
    case Lose(i) => VerdictTraced(w, i);
    case Resolve(i) => VerdictTraced(w, i);
    case EndBody(i, ok) =>
      if i in w.clients && w.clients[i].Body? {
        var call := w.clients[i].call;
        var completed := if ok then w.completed + {EffectOperation(call)} else w.completed;
        HistoryTraced(w, w.returned, completed);
        assert w.(completed := completed) == w.(returned := w.returned, completed := completed);
        StartsTraced(w.(completed := completed), i, FinishJob(call, ok));
      }
    case Crash(i) => BecomesTraced(w, i, Body(EffectCall("", "", "", "", "", 0, 0, "", "")));
  }

  lemma {:induction false} RunIsTraced(actions: seq<Action>)
    ensures Traced(Run(actions))
  {
    hide Act;
    if actions != [] {
      RunIsTraced(actions[..|actions|-1]);
      ActTraced(Run(actions[..|actions|-1]), actions[|actions|-1]);
    }
  }

  // ---- success is reported only after a body that returned ----------------------------------

  predicate SucceededIn(effects: map<string, Effect>, e: string) {
    e in effects && effects[e].outcome == Some(Succeeded)
  }

  predicate RowReports(row: Rows<EffectRow>, e: string) {
    row.key == e && row.row.Some? && row.row.value.outcome == Some(Succeeded)
  }

  /** The request records the effect as succeeded: an apply does, or a reconciliation. */
  predicate Reports(r: Request, e: string) {
    || (r.Apply? && exists i {:trigger r.changes.effects[i]} ::
          0 <= i < |r.changes.effects| && RowReports(r.changes.effects[i], e))
    || (r.ReconcileEffect? && r.effect == e && r.outcome == Succeeded)
  }

  lemma {:induction false} RowsReport(entities: map<string, Entity>, index: map<string, string>,
                                      effects: map<string, Effect>, actor: string, installation: string,
                                      rows: seq<Rows<EffectRow>>, n: nat, e: string)
    requires n <= |rows|
    ensures var after := AdmitEffects(entities, index, effects, actor, installation, rows[..n]);
            after.Some? && SucceededIn(after.value, e) ==>
              SucceededIn(effects, e) || exists i {:trigger rows[i]} :: 0 <= i < n && RowReports(rows[i], e)
  {
    hide LeadsToDraining;
    if n > 0 {
      RowsReport(entities, index, effects, actor, installation, rows, n - 1, e);
      assert rows[..n][..n-1] == rows[..n-1];
    }
  }

  lemma ApplyReports(s: State, r: Request, e: string)
    requires r.Apply? && ApplyChanges(s, r).Some? && SucceededIn(ApplyChanges(s, r).value.effects, e)
    ensures SucceededIn(s.effects, e) || Reports(r, e)
  {
    hide PatchEntities, AdmitClaims, AdmitPermits, AdmitEffects, IsIndex, OwnerPatchBlocked, AuthorityDrains,
      ActiveInstallation, VersionsMatch, RowReports, SucceededIn;
    var rows := r.changes.effects;
    assert rows[..|rows|] == rows;
    RowsReport(ApplyChanges(s, r).value.entities, r.index, s.effects, r.actor, r.installation, rows, |rows|, e);
  }

  lemma PerformReports(sequence: nat, s: State, r: Request, e: string)
    requires Perform(sequence, s, r).Some? && SucceededIn(Perform(sequence, s, r).value.0.effects, e)
    ensures SucceededIn(s.effects, e) || Reports(r, e)
  {
    hide InheritTasks, ApplyChanges, Blockers, MayOwn, ActiveInstallation, ActiveAdministrator, Cleared,
      Drained, Transferred, HandoffFrom;
    if r.Apply? {
      ApplyReports(s, r, e);
    } else if r.ReconcileInherited? {
      GitSafety.InheritanceKeepsEffects(Inheritance(s, [], []), r.project, r.owner, r.tasks);
    }
  }

  predicate ChainReports(c: Commit, e: string) { c.Link? && (Reports(c.request, e) || ChainReports(c.parent, e)) }

  /** On a valid chain an effect has succeeded only if some link says so. */
  lemma {:induction false} SuccessIsReported(c: Commit, e: string)
    requires Valid(c) && SucceededIn(Head(c).state.effects, e)
    ensures ChainReports(c, e)
  {
    hide Perform, Reports;
    if c.Link? {
      PerformReports(Head(c.parent).sequence, Head(c.parent).state, c.request, e);
      if !Reports(c.request, e) {
        SuccessIsReported(c.parent, e);
      }
    }
  }

  // ---- what is begun ------------------------------------------------------------------------

  /** The adapter call that the client is in the middle of. */
  function CallOf(c: Client): Option<EffectCall> {
    if c.Body? then Some(c.call)
    else match c.job.next
         case Stop => None
         case Admit(call) => Some(call)
         case Execute(call) => Some(call)
  }

  ghost predicate CallKnown(w: World, call: EffectCall) {
    exists i {:trigger w.clients[i]} :: i in w.clients && CallOf(w.clients[i]) == Some(call)
  }

  /** Whether the step may begin the job in this world, with these bodies completed. */
  ghost predicate MayBegin(w: World, a: Action, completed: set<string>, job: Job) {
    || (a.Begin? && Plain(a.request) && job == Job(a.operation, a.request, Stop))
    || (a.BeginEffect? && job == ClaimJob(a.call))
    || (exists call {:trigger AdmitJob(call)} :: CallKnown(w, call) && job == AdmitJob(call))
    || (exists call, ok {:trigger FinishJob(call, ok)} ::
          CallKnown(w, call) && job == FinishJob(call, ok) && (ok ==> EffectOperation(call) in completed))
  }

  lemma ReturnBegins(w: World, i: nat, job: Job, result: Result, replayed: bool, attempt: nat)
    requires i in w.clients && !w.clients[i].Body? && w.clients[i].job == job
    ensures var after := Returns(w, i, job, result, replayed, attempt);
            && after.completed == w.completed
            && (forall j :: j in after.begun && j !in w.begun ==>
                  exists call {:trigger AdmitJob(call)} :: CallKnown(w, call) && j == AdmitJob(call))
            && (forall call :: CallKnown(after, call) ==> CallKnown(w, call))
  {
    hide AdmitRequest, EffectOperation;
    if job.next.Admit? {
      assert CallOf(w.clients[i]) == Some(job.next.call);
      assert AdmitJob(job.next.call) == AdmitJob(job.next.call);
    }
    var after := Returns(w, i, job, result, replayed, attempt);
    forall call | CallKnown(after, call) ensures CallKnown(w, call) {
      var k :| k in after.clients && CallOf(after.clients[k]) == Some(call);
      if k == i {
        assert CallOf(w.clients[i]) == Some(call);
      } else {
        assert w.clients[k] == after.clients[k];
      }
    }
  }

  /** One step begins only such jobs, and works on no other calls. */
  ghost predicate Extends(w: World, a: Action, after: World) {
    && w.completed <= after.completed
    && (forall job :: job in after.begun && job !in w.begun ==> MayBegin(w, a, after.completed, job))
    && (forall call :: CallKnown(after, call) ==> CallKnown(w, call) || (a.BeginEffect? && a.call == call))
  }

  lemma ReturnExtends(w: World, a: Action, i: nat, job: Job, result: Result, replayed: bool, attempt: nat)
    requires i in w.clients && !w.clients[i].Body? && w.clients[i].job == job
    ensures Extends(w, a, Returns(w, i, job, result, replayed, attempt))
  {
    hide Returns, CallKnown;
    ReturnBegins(w, i, job, result, replayed, attempt);
  }

  lemma QuietExtends(w: World, a: Action, after: World)
    requires after.begun == w.begun && after.completed == w.completed
    requires forall i :: i in after.clients ==> i in w.clients && CallOf(after.clients[i]) == CallOf(w.clients[i])
    ensures Extends(w, a, after)
  {
    hide MayBegin;
    forall call | CallKnown(after, call) ensures CallKnown(w, call) {
      var i :| i in after.clients && CallOf(after.clients[i]) == Some(call);
      assert CallOf(w.clients[i]) == Some(call);
    }
  }

  lemma StartExtends(w: World, a: Action, i: nat, job: Job, completed: set<string>)
    requires w.completed <= completed && MayBegin(w, a, completed, job)
    requires forall call :: CallOf(Reading(job, RETRIES)) == Some(call) ==>
               CallKnown(w, call) || (a.BeginEffect? && a.call == call)
    ensures Extends(w, a, Starts(w.(completed := completed), i, job))
  {
    hide MayBegin;
    var after := Starts(w.(completed := completed), i, job);
    forall call | CallKnown(after, call) ensures CallKnown(w, call) || (a.BeginEffect? && a.call == call) {
      var k :| k in after.clients && CallOf(after.clients[k]) == Some(call);
      if k != i {
        assert w.clients[k] == after.clients[k];
      }
    }
  }

  lemma ReadExtends(w: World, a: Action, i: nat, job: Job, left: nat, index: map<string, string>, stamp: nat)
    requires i in w.clients && w.clients[i] == Reading(job, left)
    ensures Extends(w, a, ReadHead(w, i, job, left, index, stamp))
  {
    hide Extends, Returns, Advance, WithIndex, Fingerprint;
    var d, after := Head(w.head), ReadHead(w, i, job, left, index, stamp);
    if job.operation in d.operations {
      ReturnExtends(w, a, i, job, d.operations[job.operation].result, true, 0);
    }
    if after.begun == w.begun && after.completed == w.completed
      && forall j :: j in after.clients ==> j in w.clients && CallOf(after.clients[j]) == CallOf(w.clients[j]) {
      QuietExtends(w, a, after);
    }
  }

  lemma VerdictExtends(w: World, a: Action)
    requires a.Hear? || a.Lose? || a.Resolve?
    ensures Extends(w, a, Act(w, a))
  {
    hide Extends, Returns, Fingerprint;
    var after := Act(w, a);
    if a.i in w.clients && !w.clients[a.i].Body? {
      var c := w.clients[a.i];
      if c.Pushing? && c.attempt < |w.pushes| {
        var push := w.pushes[c.attempt];
        if push.commit.Link? && c.job.operation in push.commit.document.operations {
          ReturnExtends(w, a, a.i, c.job, push.commit.document.operations[c.job.operation].result, false, c.attempt);
        }
      } else if c.Resolving? && c.job.operation in Head(w.head).operations {
        ReturnExtends(w, a, a.i, c.job, Head(w.head).operations[c.job.operation].result, true, 0);
      }
    }
    if after.begun == w.begun && after.completed == w.completed
      && forall j :: j in after.clients ==> j in w.clients && CallOf(after.clients[j]) == CallOf(w.clients[j]) {
      QuietExtends(w, a, after);
    }
  }

  lemma BodyExtends(w: World, i: nat, ok: bool)
    requires i in w.clients && w.clients[i].Body?
    ensures Extends(w, EndBody(i, ok), Act(w, EndBody(i, ok)))
  {
    hide Extends, MayBegin, CallKnown, FinishRequest, FinishOperation;
    var call := w.clients[i].call;
    var completed := if ok then w.completed + {EffectOperation(call)} else w.completed;
    FinishMayBegin(w, i, ok, completed);
    StartExtends(w, EndBody(i, ok), i, FinishJob(call, ok), completed);
  }

  lemma FinishMayBegin(w: World, i: nat, ok: bool, completed: set<string>)
    requires i in w.clients && w.clients[i].Body? && (ok ==> EffectOperation(w.clients[i].call) in completed)
    ensures MayBegin(w, EndBody(i, ok), completed, FinishJob(w.clients[i].call, ok))
  {
    hide FinishJob, EffectOperation;
    var call := w.clients[i].call;
    assert CallOf(w.clients[i]) == Some(call);
    assert CallKnown(w, call);
  }

  lemma ActExtends(w: World, a: Action)
    ensures Extends(w, a, Act(w, a))
  {
    hide Extends, Returns, Plain, ReadHead, HearVerdict, ResolveLost;
    match a
    case Begin(i, operation, request) =>
      if Idle(w, i) && Plain(request) {
        StartExtends(w, a, i, Job(operation, request, Stop), w.completed);
        assert w.(completed := w.completed) == w;
      } else {
        QuietExtends(w, a, w);
      }
    case BeginEffect(i, call) =>
      if Idle(w, i) {
        StartExtends(w, a, i, ClaimJob(call), w.completed);
        assert w.(completed := w.completed) == w;
      } else {
        QuietExtends(w, a, w);
      }
    case Read(i, index, stamp) =>
      if i in w.clients && w.clients[i].Reading? {
        ReadExtends(w, a, i, w.clients[i].job, w.clients[i].left, index, stamp);
      } else {
        QuietExtends(w, a, w);
      }
    case Hear(i) => VerdictExtends(w, a);
    case Lose(i) => VerdictExtends(w, a);
    case Resolve(i) => VerdictExtends(w, a);
    case EndBody(i, ok) =>
      if i in w.clients && w.clients[i].Body? {
        BodyExtends(w, i, ok);
      } else {
        QuietExtends(w, a, w);
      }
    case _ => QuietExtends(w, a, Act(w, a));
  }

  // ---- success ------------------------------------------------------------------------------

  /** An apply reports an effect's success only if its body has returned. */
  predicate Honest(r: Request, completed: set<string>) {
    r.Apply? ==> (forall i {:trigger r.changes.effects[i]} :: 0 <= i < |r.changes.effects| ==>
                    RowReports(r.changes.effects[i], r.changes.effects[i].key) ==>
                      r.changes.effects[i].key in completed)
  }

  predicate AllHonest(begun: set<Job>, completed: set<string>) {
    forall job :: job in begun ==> Honest(job.request, completed)
  }

  lemma MayBeginIsHonest(w: World, a: Action, completed: set<string>, job: Job)
    requires MayBegin(w, a, completed, job)
    ensures Honest(job.request, completed)
  {
    hide CallKnown, EffectOperation, ClaimOperation, EntityKey, FinishOperation;
  }

  lemma HonestGrows(r: Request, completed: set<string>, more: set<string>)
    requires Honest(r, completed) && completed <= more
    ensures Honest(r, more)
  {
  }

  lemma {:induction false} RunIsHonest(actions: seq<Action>)
    ensures AllHonest(Run(actions).begun, Run(actions).completed)
  {
    hide Act, Honest, MayBegin;
    if actions != [] {
      var w, a := Run(actions[..|actions|-1]), actions[|actions|-1];
      RunIsHonest(actions[..|actions|-1]);
      ActExtends(w, a);
      var after := Act(w, a);
      forall job | job in after.begun ensures Honest(job.request, after.completed) {
        if job in w.begun {
          HonestGrows(job.request, w.completed, after.completed);
        } else {
          MayBeginIsHonest(w, a, after.completed, job);
        }
      }
    }
  }

  predicate Reconciles(c: Commit, e: string) {
    c.Link? && ((c.request.ReconcileEffect? && c.request.effect == e && c.request.outcome == Succeeded)
                || Reconciles(c.parent, e))
  }

  lemma ReportIsHonest(c: Commit, e: string, begun: set<Job>, completed: set<string>)
    requires c.Link? && Begun(begun, c.operation, c.request) && AllHonest(begun, completed) && c.request.Apply?
             && Reports(c.request, e)
    ensures e in completed
  {
    var job :| job in begun && job.operation == c.operation && Fingerprint(job.request) == Fingerprint(c.request);
    assert Honest(job.request, completed);
    var i :| 0 <= i < |c.request.changes.effects| && RowReports(c.request.changes.effects[i], e);
    assert job.request.changes.effects[i] == c.request.changes.effects[i];
  }

  lemma {:induction false} HonestReport(c: Commit, e: string, begun: set<Job>, completed: set<string>)
    requires ChainReports(c, e) && ChainBegun(c, begun) && AllHonest(begun, completed)
    ensures e in completed || Reconciles(c, e)
  {
    hide AllHonest, Begun;
    if Reports(c.request, e) {
      if c.request.Apply? {
        ReportIsHonest(c, e, begun, completed);
      }
    } else {
      HonestReport(c.parent, e, begun, completed);
    }
  }

  /** An effect is recorded as succeeded only after its body returned normally, unless somebody
      reconciled it by hand. */
  lemma SucceededMeansCompleted(actions: seq<Action>, e: string)
    requires SucceededIn(Head(Run(actions).head).state.effects, e)
    ensures e in Run(actions).completed || Reconciles(Run(actions).head, e)
  {
    hide Run, AllHonest, ChainReports, Reconciles, ChainBegun, Valid, ClientsHold, ClientsApart, ReturnsHold,
      ReturnsApart;
    var w := Run(actions);
    RunKeeps(actions);
    RunIsTraced(actions);
    RunIsHonest(actions);
    SuccessIsReported(w.head, e);
    HonestReport(w.head, e, w.begun, w.completed);
  }
}
