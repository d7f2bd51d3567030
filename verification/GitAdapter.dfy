/** The adapter's own clients keep the discipline: over any network of them, with any other program
    parts that begin, fence, acknowledge and complete handoffs, no authority moves while an effect of it
    is open. */
module GitAdapter {
  import opened Options
  import opened GitState
  import GitSafety
  import opened GitHandoffs
  import GitRuns
  import opened GitChain
  import opened GitClients
  import opened GitClientSafety

  // ---- documents the adapter writes ---------------------------------------------------------

  /** Enrolment refuses a blank installation id. */
  predicate Named(e: EffectCall) { e.installation != "" }

  /** The recorded inputs are those of one claim, on this entity and under this operation id. */
  predicate ClaimsOn(inputs: Request, k: string, operation: string) {
    && inputs.Apply? && |inputs.changes.claims| == 1 && inputs.changes.claims[0].key == k
    && inputs.changes.claims[0].row.Some? && inputs.changes.claims[0].row.value.operation == operation
  }

  predicate ClaimRecorded(operations: map<string, Entry>, k: string, c: Claim) {
    c.operation in operations && ClaimsOn(operations[c.operation].fingerprint, k, c.operation)
  }

  /** A claim's operation id is the id of the transaction that made it, and so is a permit's key. */
  predicate Written(d: Document) {
    && (forall k {:trigger d.state.claims[k]} :: k in d.state.claims ==>
          ClaimRecorded(d.operations, k, d.state.claims[k]))
    && d.state.permits.Keys <= d.operations.Keys
  }

  /** The ledger records the call's claim. */
  predicate Registered(d: Document, e: EffectCall) {
    ClaimOperation(e) in d.operations && d.operations[ClaimOperation(e)].fingerprint == ClaimRequest(e)
  }

  /** The ledger makes claim ids name entities: whatever the id's text, a claim that carries the id of the
      call is on the call's entity. */
  lemma ClaimIdsNameEntities(d: Document, e: EffectCall, k: string)
    requires Written(d) && Registered(d, e) && k in d.state.claims && d.state.claims[k].operation == ClaimOperation(e)
    ensures k == EntityKey(e)
  {
    hide EntityKey, ClaimOperation;
    assert ClaimRecorded(d.operations, k, d.state.claims[k]);
  }

  lemma ClaimIsDisciplined(d: Document, e: EffectCall, index: map<string, string>)
    requires Written(d) && Named(e) && ClaimOperation(e) !in d.operations
    ensures Disciplined(d.state, WithIndex(ClaimRequest(e), index))
  {
    hide EntityKey, ClaimOperation;
    forall k | k in d.state.claims ensures d.state.claims[k].operation != ClaimOperation(e) {
      assert ClaimRecorded(d.operations, k, d.state.claims[k]);
    }
  }

  /** Rows for an effect only: the claims stay, so the index leads to the entity of the call. */
  lemma EffectRowLeads(d: Document, r: Request, e: EffectCall)
    requires r.Apply? && r.changes.claims == [] && ApplyChanges(d.state, r).Some? && Written(d) && Registered(d, e)
    ensures ClaimOperation(e) in r.index ==> r.index[ClaimOperation(e)] == EntityKey(e)
  {
    hide Written, Registered, EntityKey, ClaimOperation, PatchEntities, AdmitPermits, AdmitEffects,
      OwnerPatchBlocked, AuthorityDrains, ActiveInstallation, VersionsMatch;
    if ClaimOperation(e) in r.index {
      ClaimIdsNameEntities(d, e, r.index[ClaimOperation(e)]);
    }
  }

  lemma AdmissionIsDisciplined(d: Document, e: EffectCall, index: map<string, string>)
    requires Written(d) && Named(e) && Registered(d, e) && EffectOperation(e) !in d.operations
    requires ApplyChanges(d.state, WithIndex(AdmitRequest(e), index)).Some?
    ensures Disciplined(d.state, WithIndex(AdmitRequest(e), index))
  {
    hide Registered, ClaimRecorded, EntityKey, ClaimOperation, EffectOperation, ApplyChanges;
    EffectRowLeads(d, WithIndex(AdmitRequest(e), index), e);
  }

  lemma FinishIsDisciplined(d: Document, e: EffectCall, ok: bool, index: map<string, string>)
    requires Written(d) && Named(e) && Registered(d, e)
    requires ApplyChanges(d.state, WithIndex(FinishRequest(e, ok), index)).Some?
    ensures Disciplined(d.state, WithIndex(FinishRequest(e, ok), index))
  {
    hide Written, Registered, EntityKey, ClaimOperation, EffectOperation, ApplyChanges;
    EffectRowLeads(d, WithIndex(FinishRequest(e, ok), index), e);
  }

  // ---- what a link writes -------------------------------------------------------------------

  ghost predicate ClaimWritten(before: map<string, Claim>, after: map<string, Claim>, rows: seq<Rows<ClaimRow>>,
                               k: string)
    requires k in after
  {
    || (k in before && after[k] == before[k])
    || (|rows| == 1 && rows[0].key == k && rows[0].row.Some? && after[k].operation == rows[0].row.value.operation)
  }

  lemma OneClaimRow(entities: map<string, Entity>, claims: map<string, Claim>, actor: string, installation: string,
                    rows: seq<Rows<ClaimRow>>)
    requires |rows| <= 1
    ensures var after := AdmitClaims(entities, claims, actor, installation, rows);
            after.Some? ==> forall k :: k in after.value ==> ClaimWritten(claims, after.value, rows, k)
  {
    if |rows| == 1 {
      assert rows[..|rows|-1] == [];
      assert AdmitClaims(entities, claims, actor, installation, []) == Some(claims);
    }
  }

  lemma OnePermitRow(entities: map<string, Entity>, index: map<string, string>, permits: map<string, Permit>,
                     actor: string, installation: string, rows: seq<Rows<PermitRow>>)
    requires |rows| <= 1
    ensures var after := AdmitPermits(entities, index, permits, actor, installation, rows);
            after.Some? ==> forall p :: p in after.value ==> p in permits || (|rows| == 1 && rows[0].key == p)
  {
    if |rows| == 1 {
      assert rows[..|rows|-1] == [];
      assert AdmitPermits(entities, index, permits, actor, installation, []) == Some(permits);
    }
  }

  lemma ApplyWrites(s: State, r: Request)
    requires r.Apply? && ApplyChanges(s, r).Some? && |r.changes.claims| <= 1 && |r.changes.permits| <= 1
    ensures var after := ApplyChanges(s, r).value;
            && (forall k :: k in after.claims ==> ClaimWritten(s.claims, after.claims, r.changes.claims, k))
            && (forall p :: p in after.permits ==>
                  p in s.permits || (|r.changes.permits| == 1 && r.changes.permits[0].key == p))
  {
    hide PatchEntities, AdmitClaims, AdmitPermits, AdmitEffects, OwnerPatchBlocked, AuthorityDrains,
      ActiveInstallation, VersionsMatch, IsIndex, ClaimWritten;
    var after := ApplyChanges(s, r).value;
    assert AdmitClaims(after.entities, s.claims, r.actor, r.installation, r.changes.claims) == Some(after.claims);
    OneClaimRow(after.entities, s.claims, r.actor, r.installation, r.changes.claims);
    OnePermitRow(after.entities, r.index, s.permits, r.actor, r.installation, r.changes.permits);
  }

  lemma InheritTaskReleases(h: Inheritance, project: string, owner: string, task: string)
    ensures var after := InheritTask(h, project, owner, task);
            after.Some? ==>
              SubClaims(h.state.claims, after.value.state.claims) && after.value.state.permits == h.state.permits
  {
    hide MayOwn, ClaimInstallation, Stage, Transfer;
    var s, k := h.state, TaskKey(task);
    GitSafety.StageFrame(s, {k}, owner);
    GitSafety.TransferFrame(Stage(s, {k}, owner), {k}, owner);
  }

  lemma {:induction false} InheritanceReleases(h: Inheritance, project: string, owner: string, tasks: seq<string>)
    ensures var after := InheritTasks(h, project, owner, tasks);
            after.Some? ==>
              SubClaims(h.state.claims, after.value.state.claims) && after.value.state.permits == h.state.permits
  {
    hide InheritTask;
    if tasks != [] {
      InheritanceReleases(h, project, owner, tasks[..|tasks|-1]);
      var before := InheritTasks(h, project, owner, tasks[..|tasks|-1]);
      if before.Some? {
        InheritTaskReleases(before.value, project, owner, tasks[|tasks|-1]);
      }
    }
  }

  lemma TransfersRelease(s: State, r: Request)
    ensures r.CompleteChange? && CompleteChangeOf(s, r).Some? ==> Releases(s, CompleteChangeOf(s, r).value.0)
    ensures r.CompleteHandoff? && CompleteHandoffOf(s, r).Some? ==> Releases(s, CompleteHandoffOf(s, r).value.0)
    ensures r.BeginMemberChange? && BeginMemberChangeOf(s, r).Some? ==> Releases(s, BeginMemberChangeOf(s, r).value.0)
    ensures r.BeginRevocation? && BeginRevocationOf(s, r).Some? ==> Releases(s, BeginRevocationOf(s, r).value.0)
  {
    hide Blockers, MayOwn, ActiveInstallation, ActiveAdministrator, Cleared, Stage, Transfer, Narrowed,
      Concerned, Running;
    if r.CompleteChange? && CompleteChangeOf(s, r).Some? {
      GitSafety.TransferFrame(s, s.changes[r.key].entities, "");
    } else if r.CompleteHandoff? && CompleteHandoffOf(s, r).Some? {
      GitSafety.TransferFrame(s, {r.entity}, s.handoffs[r.entity].pending);
    } else if r.BeginMemberChange? {
      GitSafety.StageFrame(s, Concerned(s, r), "");
    } else if r.BeginRevocation? {
      GitSafety.StageFrame(s, Running(s, r.target), "");
    }
  }

  predicate Releases(s: State, after: State) {
    SubClaims(s.claims, after.claims) && after.permits.Keys == s.permits.Keys
  }

  /** Everything but an apply only releases claims and adds no permit. */
  lemma OthersRelease(sequence: nat, s: State, r: Request)
    requires !r.Apply? && Perform(sequence, s, r).Some?
    ensures Releases(s, Perform(sequence, s, r).value.0)
  {
    hide InheritTasks, Blockers, MayOwn, ActiveInstallation, ActiveAdministrator, CompleteChangeOf,
      CompleteHandoffOf, BeginMemberChangeOf, BeginRevocationOf;
    TransfersRelease(s, r);
    if r.ReconcileInherited? {
      InheritanceReleases(Inheritance(s, [], []), r.project, r.owner, r.tasks);
    }
  }

  // ---- every link of the chain is disciplined -----------------------------------------------

  /** The request is the call's claim, or an admission or finish after the claim was recorded. */
  predicate BuiltFor(d: Document, e: EffectCall, operation: string, r: Request) {
    || (operation == ClaimOperation(e) && Fingerprint(r) == ClaimRequest(e))
    || (Registered(d, e) &&
          (|| (operation == EffectOperation(e) && Fingerprint(r) == AdmitRequest(e))
           || Fingerprint(r) == FinishRequest(e, true) || Fingerprint(r) == FinishRequest(e, false)))
  }

  /** An apply was built by the adapter on top of this document. */
  ghost predicate Grounded(d: Document, operation: string, r: Request) {
    r.Apply? ==> exists e {:trigger ClaimOperation(e)} :: Named(e) && BuiltFor(d, e, operation, r)
  }

  ghost predicate GroundedChain(c: Commit) {
    c.Link? ==> Grounded(Head(c.parent), c.operation, c.request) && GroundedChain(c.parent)
  }

  lemma Reindexed(r: Request, q: Request)
    requires Fingerprint(r) == q && q.Apply?
    ensures r == WithIndex(q, if r.Apply? then r.index else map[])
  {
  }

  lemma ClaimWrites(d: Document, e: EffectCall, index: map<string, string>)
    requires Written(d) && ClaimOperation(e) !in d.operations
    requires Advance(d, ClaimOperation(e), WithIndex(ClaimRequest(e), index)).Some?
    ensures Written(Advance(d, ClaimOperation(e), WithIndex(ClaimRequest(e), index)).value)
  {
    hide EntityKey, ClaimOperation, ApplyChanges, ClaimRecorded;
    var r := WithIndex(ClaimRequest(e), index);
    var after := Advance(d, ClaimOperation(e), r).value;
    ApplyWrites(d.state, r);
    assert after.operations[ClaimOperation(e)].fingerprint == ClaimRequest(e);
    forall k | k in after.state.claims ensures ClaimRecorded(after.operations, k, after.state.claims[k]) {
      assert ClaimWritten(d.state.claims, after.state.claims, r.changes.claims, k);
      OwnClaimRecorded(after.operations, e, k, after.state.claims[k]);
      assert k in d.state.claims ==> ClaimRecorded(d.operations, k, d.state.claims[k]);
      ClaimStaysRecorded(d.operations, after.operations, ClaimOperation(e), k, after.state.claims[k]);
    }
  }

  lemma OwnClaimRecorded(operations: map<string, Entry>, e: EffectCall, k: string, c: Claim)
    requires ClaimOperation(e) in operations && operations[ClaimOperation(e)].fingerprint == ClaimRequest(e)
    ensures k == EntityKey(e) && c.operation == ClaimOperation(e) ==> ClaimRecorded(operations, k, c)
  {
    hide EntityKey, ClaimOperation;
  }

  lemma ClaimStaysRecorded(before: map<string, Entry>, after: map<string, Entry>, operation: string, k: string,
                           c: Claim)
    requires operation !in before && operation in after && after == before[operation := after[operation]]
    ensures ClaimRecorded(before, k, c) ==> ClaimRecorded(after, k, c)
  {
  }

  /** A link without claim rows whose permit row, if any, is keyed by its own id. */
  lemma RowsWrite(d: Document, operation: string, r: Request)
    requires Written(d) && operation !in d.operations && r.Apply? && Advance(d, operation, r).Some?
             && r.changes.claims == []
    requires r.changes.permits == [] || (|r.changes.permits| == 1 && r.changes.permits[0].key == operation)
    ensures Written(Advance(d, operation, r).value)
  {
    hide ApplyChanges, ClaimRecorded;
    var after := Advance(d, operation, r).value;
    ApplyWrites(d.state, r);
    forall k | k in after.state.claims ensures ClaimRecorded(after.operations, k, after.state.claims[k]) {
      assert ClaimWritten(d.state.claims, after.state.claims, r.changes.claims, k);
      assert ClaimRecorded(d.operations, k, d.state.claims[k]);
      ClaimStaysRecorded(d.operations, after.operations, operation, k, after.state.claims[k]);
    }
  }

  lemma OtherWrites(d: Document, operation: string, r: Request)
    requires Written(d) && operation !in d.operations && !r.Apply? && Advance(d, operation, r).Some?
    ensures Written(Advance(d, operation, r).value)
  {
    hide Perform, ClaimRecorded;
    var after := Advance(d, operation, r).value;
    OthersRelease(d.sequence, d.state, r);
    forall k | k in after.state.claims ensures ClaimRecorded(after.operations, k, after.state.claims[k]) {
      assert ClaimRecorded(d.operations, k, d.state.claims[k]);
      ClaimStaysRecorded(d.operations, after.operations, operation, k, after.state.claims[k]);
    }
  }

  /** A link of the adapter, or one that applies nothing, is disciplined and keeps the document written. */
  lemma LinkIsDisciplined(d: Document, operation: string, r: Request)
    requires Written(d) && operation !in d.operations && Advance(d, operation, r).Some? && Grounded(d, operation, r)
    ensures Disciplined(d.state, r) && Written(Advance(d, operation, r).value)
  {
    if r.Apply? {
      var e :| Named(e) && BuiltFor(d, e, operation, r);
      ApplyAccepted(d, operation, r);
      Reindexed(r, Fingerprint(r));
      RequestRows(e, r.index);
      hide Written, Named, Registered, ClaimOperation, EffectOperation, ClaimRequest, AdmitRequest,
        FinishRequest, Disciplined, Advance, WithIndex, ApplyChanges;
      if operation == ClaimOperation(e) && Fingerprint(r) == ClaimRequest(e) {
        ClaimIsDisciplined(d, e, r.index);
        ClaimWrites(d, e, r.index);
      } else {
        if operation == EffectOperation(e) && Fingerprint(r) == AdmitRequest(e) {
          AdmissionIsDisciplined(d, e, r.index);
        } else {
          FinishIsDisciplined(d, e, Fingerprint(r) == FinishRequest(e, true), r.index);
        }
        RowsWrite(d, operation, r);
      }
    } else {
      OtherWrites(d, operation, r);
    }
  }

  lemma RequestRows(e: EffectCall, index: map<string, string>)
    ensures var r := WithIndex(AdmitRequest(e), index);
            r.Apply? && r.changes.claims == [] && |r.changes.permits| == 1
              && r.changes.permits[0].key == EffectOperation(e)
    ensures forall ok :: var r := WithIndex(FinishRequest(e, ok), index);
            r.Apply? && r.changes.claims == [] && r.changes.permits == []
    ensures WithIndex(ClaimRequest(e), index).Apply?
  {
    hide EntityKey, ClaimOperation, EffectOperation;
  }

  lemma ApplyAccepted(d: Document, operation: string, r: Request)
    requires r.Apply? && Advance(d, operation, r).Some?
    ensures ApplyChanges(d.state, r).Some?
  {
  }

  /** The requests that the chain applied, oldest first. */
  function Requests(c: Commit): seq<Request> { if c.Root? then [] else Requests(c.parent) + [c.request] }

  lemma NothingWritten()
    ensures Written(FIRST)
  {
  }

  /** The chain is a run of the transactions, and the adapter's clients make it a disciplined one. */
  lemma {:induction false} ChainIsDisciplinedRun(c: Commit)
    requires Valid(c) && GroundedChain(c)
    ensures GitSafety.Run(GitSafety.BIRTH, Requests(c)) == GitSafety.World(Head(c).sequence, Head(c).state)
    ensures GitRuns.DisciplinedRun(GitSafety.BIRTH, Requests(c)) && Written(Head(c))
  {
    hide Perform, Disciplined, Grounded, GitRuns.DisciplinedRun, GitSafety.Run, ClaimRecorded;
    if c.Root? {
      GitRuns.NoRequests(GitSafety.BIRTH);
      NothingWritten();
    } else {
      var rest, r := Requests(c.parent), c.request;
      ChainIsDisciplinedRun(c.parent);
      LinkIsDisciplined(Head(c.parent), c.operation, r);
      GitRuns.Longer(GitSafety.BIRTH, rest, r);
    }
  }

  // ---- networks of adapter clients ----------------------------------------------------------

  /** Applies come only from the adapter. */
  ghost predicate AdapterOnly(actions: seq<Action>) {
    forall n {:trigger actions[n]} :: 0 <= n < |actions| ==> FromAdapter(actions[n])
  }

  predicate FromAdapter(a: Action) { (a.Begin? ==> !a.request.Apply?) && (a.BeginEffect? ==> Named(a.call)) }

  /** The job applies nothing, or it is a step of an adapter call whose claim, after the first, is recorded. */
  ghost predicate JobGrounded(d: Document, job: Job) {
    || (!job.request.Apply? && job.next.Stop?)
    || (exists e {:trigger ClaimJob(e)} :: Named(e) && StepOf(d, e, job))
  }

  predicate StepOf(d: Document, e: EffectCall, job: Job) {
    job == ClaimJob(e)
      || (Registered(d, e) && (job == AdmitJob(e) || job == FinishJob(e, true) || job == FinishJob(e, false)))
  }

  ghost predicate ClientGrounded(d: Document, c: Client) {
    if c.Body? then Named(c.call) && Registered(d, c.call) else JobGrounded(d, c.job)
  }

  ghost predicate WorldGrounded(w: World) {
    && GroundedChain(w.head)
    && (forall a {:trigger w.pushes[a]} :: 0 <= a < |w.pushes| ==> GroundedChain(w.pushes[a].commit))
    && (forall i {:trigger w.clients[i]} :: i in w.clients ==> ClientGrounded(Head(w.head), w.clients[i]))
  }

  lemma BecomesGrounded(w: World, i: nat, c: Client)
    requires WorldGrounded(w) && ClientGrounded(Head(w.head), c)
    ensures WorldGrounded(Becomes(w, i, c)) && WorldGrounded(Leaves(w, i))
  {
    hide GroundedChain, ClientGrounded;
  }

  lemma LeavesGrounded(w: World, i: nat)
    requires WorldGrounded(w)
    ensures WorldGrounded(Leaves(w, i))
  {
    hide GroundedChain, ClientGrounded;
  }

  lemma HistoryGrounded(w: World, begun: set<Job>, returned: seq<Return>, completed: set<string>)
    requires WorldGrounded(w)
    ensures WorldGrounded(w.(begun := begun, returned := returned, completed := completed))
  {
    hide GroundedChain, ClientGrounded;
  }

  lemma StartsGrounded(w: World, i: nat, job: Job)
    requires WorldGrounded(w) && JobGrounded(Head(w.head), job)
    ensures WorldGrounded(Starts(w, i, job))
  {
    hide WorldGrounded, JobGrounded;
    var begun := w.begun + {job};
    HistoryGrounded(w, begun, w.returned, w.completed);
    assert w.(begun := begun) == w.(begun := begun, returned := w.returned, completed := w.completed);
    BecomesGrounded(w.(begun := begun), i, Reading(job, RETRIES));
  }

  lemma CallStarts(d: Document, e: EffectCall)
    requires Named(e)
    ensures JobGrounded(d, ClaimJob(e))
    ensures Registered(d, e) ==>
              JobGrounded(d, AdmitJob(e)) && JobGrounded(d, FinishJob(e, true)) && JobGrounded(d, FinishJob(e, false))
  {
    hide ClaimJob, AdmitJob, FinishJob;
    assert ClaimJob(e) == ClaimJob(e);
    assert StepOf(d, e, ClaimJob(e));
  }

  /** Once a job's own operation is recorded with its inputs, the call's claim is recorded. */
  lemma ReturnRegisters(d: Document, job: Job)
    requires JobGrounded(d, job) && job.operation in d.operations
             && d.operations[job.operation].fingerprint == Fingerprint(job.request)
    ensures job.next.Admit? || job.next.Execute? ==> Named(job.next.call) && Registered(d, job.next.call)
  {
    if job.next.Admit? || job.next.Execute? {
      var e :| Named(e) && StepOf(d, e, job);
      OwnFingerprints(e);
      hide EffectOperation, FinishOperation, AdmitRequest, FinishRequest;
      assert job == ClaimJob(e) || job == AdmitJob(e);
      assert job.next.call == e;
    }
  }

  lemma OwnFingerprints(e: EffectCall)
    ensures Fingerprint(ClaimRequest(e)) == ClaimRequest(e) && Fingerprint(AdmitRequest(e)) == AdmitRequest(e)
    ensures forall ok :: Fingerprint(FinishRequest(e, ok)) == FinishRequest(e, ok)
  {
    hide ClaimOperation, EffectOperation, EntityKey;
  }

  lemma ReturnsGrounded(w: World, i: nat, job: Job, result: Result, replayed: bool, attempt: nat)
    requires WorldGrounded(w) && JobGrounded(Head(w.head), job) && job.operation in Head(w.head).operations
    requires Head(w.head).operations[job.operation].fingerprint == Fingerprint(job.request)
    ensures WorldGrounded(Returns(w, i, job, result, replayed, attempt))
  {
    ReturnRegisters(Head(w.head), job);
    var logged := w.(returned := w.returned + [Return(job, result, replayed, attempt)]);
    HistoryGrounded(w, w.begun, logged.returned, w.completed);
    assert logged == w.(begun := w.begun, returned := logged.returned, completed := w.completed);
    hide WorldGrounded, JobGrounded, AdmitJob, Registered, Named;
    LeavesGrounded(logged, i);
    match job.next
    case Stop =>
    case Admit(call) =>
      CallStarts(Head(w.head), call);
      StartsGrounded(logged, i, AdmitJob(call));
    case Execute(call) => BecomesGrounded(logged, i, Body(call));
  }

  lemma JobBuilds(d: Document, job: Job, index: map<string, string>)
    requires JobGrounded(d, job)
    ensures Grounded(d, job.operation, WithIndex(job.request, index))
  {
    if job.request.Apply? {
      var e :| Named(e) && StepOf(d, e, job);
      OwnFingerprints(e);
      FingerprintIgnoresIndex(job.request, index);
      hide ClaimOperation, EffectOperation, FinishOperation, ClaimRequest, AdmitRequest, FinishRequest,
        Fingerprint, Named, WithIndex, Registered;
      assert job == ClaimJob(e) || job == AdmitJob(e) || job == FinishJob(e, true) || job == FinishJob(e, false);
      assert ClaimOperation(e) == ClaimOperation(e) && BuiltFor(d, e, job.operation, WithIndex(job.request, index));
    }
  }

  lemma ClientOfGrounded(w: World, i: nat)
    requires WorldGrounded(w) && i in w.clients
    ensures ClientGrounded(Head(w.head), w.clients[i])
  {
  }

  lemma ReadGrounded(w: World, i: nat, job: Job, left: nat, index: map<string, string>, stamp: nat)
    requires WorldGrounded(w) && i in w.clients && w.clients[i] == Reading(job, left)
    ensures WorldGrounded(ReadHead(w, i, job, left, index, stamp))
  {
    ClientOfGrounded(w, i);
    LeavesGrounded(w, i);
    JobBuilds(Head(w.head), job, index);
    hide WorldGrounded, JobGrounded, Grounded, Perform, Returns, Becomes, Leaves, Advance, WithIndex;
    var d := Head(w.head);
    if job.operation in d.operations {
      if d.operations[job.operation].fingerprint == Fingerprint(job.request) {
        ReturnsGrounded(w, i, job, d.operations[job.operation].result, true, 0);
      }
    } else {
      var request := WithIndex(job.request, index);
      var next := Advance(d, job.operation, request);
      if next.Some? {
        var pushes := w.pushes + [Push(Link(w.head, stamp, job.operation, request, next.value), InFlight)];
        PushGrounded(w, pushes);
        BecomesGrounded(w.(pushes := pushes), i, Pushing(job, left, |w.pushes|));
      }
    }
  }

  lemma PushGrounded(w: World, pushes: seq<Push>)
    requires WorldGrounded(w) && |pushes| == |w.pushes| + 1 && pushes[..|w.pushes|] == w.pushes
    requires var c := pushes[|w.pushes|].commit;
             c.Link? && c.parent == w.head && Grounded(Head(w.head), c.operation, c.request)
    ensures WorldGrounded(w.(pushes := pushes))
  {
    hide Grounded, ClientGrounded;
    assert forall a :: 0 <= a < |w.pushes| ==> pushes[a] == w.pushes[a];
  }

  lemma RegisteredStays(c: Commit, d: Commit, e: EffectCall)
    requires Within(c, d) && Valid(d) && Registered(Head(c), e)
    ensures Registered(Head(d), e)
  {
    hide Valid, ClaimOperation, ClaimRequest;
    LedgerGrows(c, d, ClaimOperation(e));
  }

  lemma ClientStaysGrounded(c: Commit, d: Commit, client: Client)
    requires Within(c, d) && Valid(d) && ClientGrounded(Head(c), client)
    ensures ClientGrounded(Head(d), client)
  {
    hide Within, Valid, Registered, ClaimJob, AdmitJob, FinishJob;
    if client.Body? {
      RegisteredStays(c, d, client.call);
    } else if client.job.request.Apply? || !client.job.next.Stop? {
      var e :| Named(e) && StepOf(Head(c), e, client.job);
      if Registered(Head(c), e) {
        RegisteredStays(c, d, e);
      }
      assert ClaimJob(e) == ClaimJob(e) && StepOf(Head(d), e, client.job);
    }
  }

  lemma FateGrounded(w: World, attempt: nat, head: Commit, fate: Fate)
    requires WorldGrounded(w) && attempt < |w.pushes| && Valid(head) && Within(w.head, head)
    requires head == w.head || head == w.pushes[attempt].commit
    ensures WorldGrounded(w.(head := head, pushes := w.pushes[attempt := Push(w.pushes[attempt].commit, fate)]))
  {
    hide GroundedChain, ClientGrounded, Valid, Within;
    forall i | i in w.clients ensures ClientGrounded(Head(head), w.clients[i]) {
      ClientStaysGrounded(w.head, head, w.clients[i]);
    }
  }

  lemma LandGrounded(w: World, attempt: nat)
    requires WInv(w) && WorldGrounded(w) && attempt < |w.pushes|
    ensures WorldGrounded(LandPush(w, attempt))
    ensures WorldGrounded(w.(pushes := w.pushes[attempt := w.pushes[attempt].(fate := Rejected)]))
  {
    hide ClientsHold, ClientsApart, ReturnsHold, ReturnsApart, WorldGrounded, Perform, Advance;
    var commit := w.pushes[attempt].commit;
    assert PushHolds(w.head, w.pushes[attempt]);
    FateGrounded(w, attempt, w.head, Rejected);
    FateGrounded(w, attempt, w.head, Accepted);
    assert w.(head := w.head) == w;
    if commit.parent == w.head {
      FateGrounded(w, attempt, commit, Accepted);
    }
  }

  lemma VerdictGrounded(w: World, i: nat)
    requires WInv(w) && WorldGrounded(w)
    ensures WorldGrounded(Act(w, Hear(i))) && WorldGrounded(Act(w, Lose(i))) && WorldGrounded(Act(w, Resolve(i)))
  {
    hide WInv, WorldGrounded, JobGrounded, Returns, Becomes, Leaves, Perform;
    if i in w.clients && !w.clients[i].Body? {
      var c := w.clients[i];
      ClientOf(w, i);
      ClientOfGrounded(w, i);
      LeavesGrounded(w, i);
      BecomesGrounded(w, i, Resolving(c.job));
      if c.Pushing? {
        if c.left > 1 {
          BecomesGrounded(w, i, Reading(c.job, c.left - 1));
        }
        var push := w.pushes[c.attempt];
        if push.fate == Accepted {
          AcceptedOf(w, c.attempt);
          LedgerGrows(push.commit, w.head, c.job.operation);
          ReturnsGrounded(w, i, c.job, push.commit.document.operations[c.job.operation].result, false, c.attempt);
        }
      } else if c.Resolving? && c.job.operation in Head(w.head).operations
             && Head(w.head).operations[c.job.operation].fingerprint == Fingerprint(c.job.request) {
        ReturnsGrounded(w, i, c.job, Head(w.head).operations[c.job.operation].result, true, 0);
      }
    }
  }

  lemma EndGrounded(w: World, i: nat, ok: bool, completed: set<string>)
    requires WorldGrounded(w) && i in w.clients && w.clients[i].Body?
    ensures WorldGrounded(Starts(w.(completed := completed), i, FinishJob(w.clients[i].call, ok)))
  {
    ClientOfGrounded(w, i);
    hide WorldGrounded, JobGrounded, FinishJob, Starts, Registered, Named;
    var call := w.clients[i].call;
    HistoryGrounded(w, w.begun, w.returned, completed);
    assert w.(completed := completed) == w.(begun := w.begun, returned := w.returned, completed := completed);
    CallStarts(Head(w.head), call);
    StartsGrounded(w.(completed := completed), i, FinishJob(call, ok));
  }

  lemma ActGrounded(w: World, a: Action)
    requires WInv(w) && WorldGrounded(w) && FromAdapter(a)
    ensures WorldGrounded(Act(w, a))
  {
    hide WInv, WorldGrounded, Plain, ReadHead, LandPush, HearVerdict, ResolveLost, Leaves, Becomes, Starts,
      ClaimJob, FinishJob, JobGrounded, Named;
    match a
    case Begin(i, operation, request) =>
      AppliesNothing(Head(w.head), operation, request);
      StartsGrounded(w, i, Job(operation, request, Stop));
    case BeginEffect(i, call) =>
      CallStarts(Head(w.head), call);
      StartsGrounded(w, i, ClaimJob(call));
    case Read(i, index, stamp) =>
      if i in w.clients
        && w.clients[i].Reading? { ReadGrounded(w, i, w.clients[i].job, w.clients[i].left, index, stamp); }
    case Land(attempt) => if attempt < |w.pushes| { LandGrounded(w, attempt); }
    case Refuse(attempt) => if attempt < |w.pushes| { LandGrounded(w, attempt); }
    case Hear(i) => VerdictGrounded(w, i);
    case Lose(i) => VerdictGrounded(w, i);
    case Resolve(i) => VerdictGrounded(w, i);
    case EndBody(i, ok) =>
      if i in w.clients && w.clients[i].Body? {
        EndGrounded(w, i, ok, if ok then w.completed + {EffectOperation(w.clients[i].call)} else w.completed);
      }
    case Crash(i) => LeavesGrounded(w, i);
  }

  lemma AppliesNothing(d: Document, operation: string, r: Request)
    requires !r.Apply?
    ensures JobGrounded(d, Job(operation, r, Stop))
  {
  }

  lemma {:induction false} AdapterRuns(actions: seq<Action>)
    requires AdapterOnly(actions)
    ensures WorldGrounded(Run(actions))
  {
    hide Act, FromAdapter;
    if actions != [] {
      var front := actions[..|actions|-1];
      assert forall n {:trigger front[n]} :: 0 <= n < |front| ==> front[n] == actions[n];
      AdapterRuns(front);
      hide WorldGrounded;
      RunKeeps(front);
      ActGrounded(Run(front), actions[|actions|-1]);
    }
  }

  lemma HeadGrounded(w: World)
    requires WInv(w) && WorldGrounded(w)
    ensures Valid(w.head) && GroundedChain(w.head)
  {
  }

  /** Over any network of adapter clients, however steps interleave: the accepted history is a disciplined
      run, so acknowledged and fenced handoffs have no blockers. */
  lemma AdapterHandoffsStayClear(actions: seq<Action>, k: string)
    requires AdapterOnly(actions)
    ensures var s := Head(Run(actions).head).state;
            k in s.handoffs && Flagged(s.handoffs[k]) ==> Blockers(s, k) == {}
  {
    hide Run, Requests, Valid, GroundedChain, Blockers, Flagged, WInv, WorldGrounded, AdapterOnly,
      GitRuns.DisciplinedRun, GitSafety.Run, Written;
    var w := Run(actions);
    RunKeeps(actions);
    AdapterRuns(actions);
    HeadGrounded(w);
    ChainIsDisciplinedRun(w.head);
    if k in Head(w.head).state.handoffs && Flagged(Head(w.head).state.handoffs[k]) {
      GitRuns.AcknowledgedStaysClear(Requests(w.head), k);
    }
  }

  // ---- from one accepted head to a later one ------------------------------------------------

  /** The requests applied between an ancestor and the head. */
  function Since(c: Commit, head: Commit): seq<Request>
    requires Within(c, head)
  {
    if c == head then [] else Since(c, head.parent) + [head.request]
  }

  lemma {:induction false} SinceContinues(c: Commit, head: Commit)
    requires Within(c, head) && Valid(head) && GroundedChain(head)
    ensures Valid(c) && GroundedChain(c)
    ensures var w := GitSafety.World(Head(c).sequence, Head(c).state);
            && GitSafety.Run(w, Since(c, head)) == GitSafety.World(Head(head).sequence, Head(head).state)
            && GitRuns.DisciplinedRun(w, Since(c, head))
  {
    hide Perform, Disciplined, Grounded, GitRuns.DisciplinedRun, GitSafety.Run, Written;
    var w := GitSafety.World(Head(c).sequence, Head(c).state);
    GitRuns.NoRequests(w);
    if c != head {
      var rest, r := Since(c, head.parent), head.request;
      SinceContinues(c, head.parent);
      ChainIsDisciplinedRun(head.parent);
      LinkIsDisciplined(Head(head.parent), head.operation, r);
      GitRuns.Longer(w, rest, r);
    }
  }

  /** Between any accepted commit and the head, an effect that is still open pins its entity: owner,
      generation and claim are what they were. */
  lemma AdapterEffectsPin(actions: seq<Action>, c: Commit, e: string)
    requires AdapterOnly(actions) && Within(c, Run(actions).head) && e in Head(c).state.effects
    ensures var s, after := Head(c).state, Head(Run(actions).head).state;
            && e in after.effects
            && (Unresolved(after.effects[e]) ==> Unresolved(s.effects[e]) && GitRuns.Pinned(s, after, e))
  {
    hide Run, Requests, Valid, GroundedChain, Unresolved, GitRuns.Pinned, WInv, WorldGrounded, AdapterOnly,
      GitRuns.DisciplinedRun, GitSafety.Run, Since, Within, Written;
    var w := Run(actions);
    RunKeeps(actions);
    AdapterRuns(actions);
    HeadGrounded(w);
    SinceContinues(c, w.head);
    ChainIsDisciplinedRun(c);
    GitRuns.OpenEffectPins(Requests(c), Since(c, w.head), e);
  }
}
