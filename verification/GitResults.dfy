/** What the caller is told: the result of an accepted transaction describes the state it leaves. */
module GitResults {
  import opened Options
  import opened GitState
  import opened GitSafety
  import opened GitBlank
  import opened GitAuthority

  /** The entities that have a handoff now and had none before. */
  function NewHandoffs(s: State, after: State): set<string> { after.handoffs.Keys - s.handoffs.Keys }

  /** The result read against the state before and after. */
  ghost predicate Describes(sequence: nat, s: State, r: Request, after: State, result: Result) {
    match result
    case Bootstrapped(entities) => r.Bootstrap? && entities == after.entities.Keys
    case Applied(number, unresolved) =>
      && r.Apply? && number == sequence + 1
      && (forall e :: e in unresolved <==> e in after.effects && Unresolved(after.effects[e]))
    case HandoffBegun(ready, owner, pending, blockers) =>
      && r.BeginHandoff? && r.entity in after.handoffs && r.entity in after.entities
      && ready == after.handoffs[r.entity].ready && pending == after.handoffs[r.entity].pending
      && owner == Owner(after.entities[r.entity]) && blockers == Blockers(after, r.entity)
    case Reconciled(affected, waiting) => r.ReconcileInherited?
    case Draining(entities) =>
      && (r.BeginMemberChange? || r.BeginRevocation?) && entities == NewHandoffs(s, after)
      && forall k :: k in entities ==> k in after.entities && IsDraining(after.entities[k])
    case Enrolled(installation, member) =>
      r.Enroll? && installation in after.installations && after.installations[installation] == member == r.member
    case Completed(key) => r.CompleteChange? && key in s.changes && key !in after.changes
    case HandoffReady =>
      && (r.AcknowledgeStop? || r.RecordFence?) && r.entity in after.handoffs && after.handoffs[r.entity].ready
      && (after.handoffs[r.entity].stopAcknowledged || after.handoffs[r.entity].externalFence)
    case Retained(evidence) =>
      r.RetainLate? && LateEvidence(r.entity, r.generation, evidence, r.actor, r.installation) in after.recovery
    case Resolved(effect, outcome) =>
      r.ReconcileEffect? && effect in after.effects && after.effects[effect].outcome == Some(outcome)
    case HandedOver(owner, generation) =>
      && r.CompleteHandoff? && r.entity in after.entities
      && owner == Owner(after.entities[r.entity]) && generation == Generation(after.entities[r.entity])
  }

  lemma HandoffIsDescribed(s: State, r: Request)
    requires r.BeginHandoff? && BeginHandoffOf(s, r).Some?
    ensures var (after, result) := BeginHandoffOf(s, r).value; Describes(0, s, r, after, result)
  {
    hide MayOwn, ActiveInstallation, Blockers;
    var after := BeginHandoffOf(s, r).value.0;
    assert Blockers(after, r.entity) == Blockers(s, r.entity) by { SameBlockers(s, after, r.entity); }
  }

  lemma SameBlockers(s: State, t: State, k: string)
    requires s.permits == t.permits && s.effects == t.effects && s.claims == t.claims
    ensures Blockers(s, k) == Blockers(t, k)
  {
  }

  lemma ChangesAreDescribed(s: State, r: Request)
    requires Inv(s) && (r.BeginMemberChange? || r.BeginRevocation?) && Perform(0, s, r).Some?
    ensures var (after, result) := Perform(0, s, r).value; Describes(0, s, r, after, result)
  {
    hide ActiveAdministrator, Inv, HandoffFrom;
  }

  lemma ConclusionIsDescribed(s: State, r: Request)
    requires r.CompleteChange? && CompleteChangeOf(s, r).Some?
    ensures var (after, result) := CompleteChangeOf(s, r).value; Describes(0, s, r, after, result)
  {
    hide ActiveAdministrator, Cleared, Narrowed, Transfer;
    TransferFrame(s, s.changes[r.key].entities, "");
  }

  lemma SmallStepsAreDescribed(s: State, r: Request)
    requires (r.AcknowledgeStop? || r.RecordFence? || r.RetainLate? || r.ReconcileEffect? || r.Enroll?)
    requires Perform(0, s, r).Some?
    ensures var (after, result) := Perform(0, s, r).value; Describes(0, s, r, after, result)
  {
    hide ActiveAdministrator, Blockers, FencePermits, EffectBlocks;
  }

  /** Every accepted transaction of anyone. */
  lemma ResultsDescribe(sequence: nat, s: State, r: Request)
    requires Inv(s) && Perform(sequence, s, r).Some?
    ensures var (after, result) := Perform(sequence, s, r).value; Describes(sequence, s, r, after, result)
  {
    hide ApplyChanges, InheritTasks, Inv, Blockers, BeginHandoffOf, BeginMemberChangeOf, BeginRevocationOf, EnrollOf,
      CompleteChangeOf, AcknowledgeStopOf, RecordFenceOf, RetainLateOf, ReconcileEffectOf, CompleteHandoffOf;
    match r {
      case BeginHandoff(_, _, _, _, _) => HandoffIsDescribed(s, r);
      case BeginMemberChange(_, _, _, _, _) => ChangesAreDescribed(s, r);
      case BeginRevocation(_, _, _) => ChangesAreDescribed(s, r);
      case CompleteChange(_, _, _) => ConclusionIsDescribed(s, r);
      case CompleteHandoff(_, _, _) => CompletionHandsOver(sequence, s, r);
      case Bootstrap(_, _, _, _) =>
      case Apply(_, _, _, _, _) =>
      case ReconcileInherited(_, _, _, _, _, _) =>
      case _ => SmallStepsAreDescribed(s, r);
    }
  }

  // ---- inherited tasks ----------------------------------------------------------------------

  /** The task is created, staged or moved. */
  predicate Affected(s: State, owner: string, k: string) {
    k !in s.entities || (Owner(s.entities[k]) != owner && k !in s.handoffs)
  }

  /** The task is still claimed by another owner, or its handoff is pending. */
  predicate Waiting(s: State, owner: string, k: string) {
    k in s.entities && Owner(s.entities[k]) != owner && (k in s.handoffs || ClaimInstallation(s, k) != "")
  }

  predicate ReportedTask(s: State, h: Inheritance, owner: string, t: string, met: bool) {
    && (t in h.affected <==> met && Affected(s, owner, TaskKey(t)))
    && (t in h.waiting <==> met && Waiting(s, owner, TaskKey(t)))
  }

  lemma KeysDiffer(t: string, u: string)
    requires TaskKey(t) == TaskKey(u)
    ensures t == u
  {
    assert TaskKey(t)[5..] == t && TaskKey(u)[5..] == u;
  }

  /** Where a created task stands. */
  predicate Created(s: State, t: State, owner: string, k: string, met: bool) {
    if met then k in t.entities && Owner(t.entities[k]) == owner else k !in t.entities
  }

  lemma TaskIsReported(s: State, h: Inheritance, project: string, owner: string, t: string, met: bool)
    requires ReportedTask(s, h, owner, t, met) && InheritTask(h, project, owner, t).Some?
    requires if TaskKey(t) in s.entities then Phase(s, h.state, owner, TaskKey(t), met)
             else Created(s, h.state, owner, TaskKey(t), met)
    ensures ReportedTask(s, InheritTask(h, project, owner, t).value, owner, t, true)
    ensures TaskKey(t) !in s.entities ==>
              Created(s, InheritTask(h, project, owner, t).value.state, owner, TaskKey(t), true)
  {
    hide MayOwn, Stage, Transfer, TaskKey;
  }

  lemma OtherIsNotReported(s: State, h: Inheritance, project: string, owner: string, u: string, t: string, met: bool)
    requires ReportedTask(s, h, owner, t, met) && u != t && InheritTask(h, project, owner, u).Some?
    ensures ReportedTask(s, InheritTask(h, project, owner, u).value, owner, t, met)
  {
    hide MayOwn, Stage, Transfer, TaskKey, Affected, Waiting;
  }

  lemma {:induction false} TasksReported(s: State, project: string, owner: string, tasks: seq<string>, n: nat,
                                         t: string)
    requires n <= |tasks|
    ensures var h := InheritTasks(Inheritance(s, [], []), project, owner, tasks[..n]);
            h.Some? ==>
              && ReportedTask(s, h.value, owner, t, t in tasks[..n])
              && (TaskKey(t) !in s.entities ==> Created(s, h.value.state, owner, TaskKey(t), t in tasks[..n]))
  {
    hide InheritTask, TaskKey, Phase, Created, ReportedTask;
    if n == 0 {
      assert ReportedTask(s, Inheritance(s, [], []), owner, t, false)
        && (TaskKey(t) !in s.entities ==> Created(s, s, owner, TaskKey(t), false))
        by { NothingReported(s, owner, t); }
    } else {
      TasksReported(s, project, owner, tasks, n - 1, t);
      assert tasks[..n][..n-1] == tasks[..n-1] && tasks[..n] == tasks[..n-1] + [tasks[n-1]];
      var before := InheritTasks(Inheritance(s, [], []), project, owner, tasks[..n-1]);
      var task, met := tasks[n-1], t in tasks[..n-1];
      if before.Some? && InheritTask(before.value, project, owner, task).Some? {
        if task == t {
          MetByKey(tasks[..n-1], t);
          if TaskKey(t) in s.entities {
            InheritancePhases(s, project, owner, tasks, n - 1, TaskKey(t));
          }
          TaskIsReported(s, before.value, project, owner, t, met);
        } else {
          OtherIsNotReported(s, before.value, project, owner, task, t, met);
          KeysApart(task, t);
          OtherTaskAgrees(before.value, project, owner, task, TaskKey(t));
          CreatedElsewhere(s, before.value.state, InheritTask(before.value, project, owner, task).value.state, owner,
                           TaskKey(t), met);
        }
      }
    }
  }

  lemma NothingReported(s: State, owner: string, t: string)
    ensures ReportedTask(s, Inheritance(s, [], []), owner, t, false)
    ensures TaskKey(t) !in s.entities ==> Created(s, s, owner, TaskKey(t), false)
  {
  }

  lemma KeysApart(t: string, u: string)
    requires t != u
    ensures TaskKey(t) != TaskKey(u)
  {
    if TaskKey(t) == TaskKey(u) {
      KeysDiffer(t, u);
    }
  }

  lemma MetByKey(tasks: seq<string>, t: string)
    ensures Met(tasks, TaskKey(t)) <==> t in tasks
  {
    hide TaskKey;
    forall u | u in tasks && TaskKey(u) == TaskKey(t) ensures u == t {
      KeysDiffer(u, t);
    }
  }

  lemma CreatedElsewhere(s: State, t: State, u: State, owner: string, k: string, met: bool)
    requires Agree(t, u, k)
    ensures Created(s, t, owner, k, met) ==> Created(s, u, owner, k, met)
  {
  }

  /** Inheriting reports exactly the listed tasks that it created, staged or moved, and exactly those that still
      wait for a handoff. */
  lemma InheritanceReports(sequence: nat, s: State, r: Request, t: string)
    requires r.ReconcileInherited? && Perform(sequence, s, r).Some?
    ensures var result := Perform(sequence, s, r).value.1;
            && result.Reconciled?
            && (t in result.affected <==> t in r.tasks && Affected(s, r.owner, TaskKey(t)))
            && (t in result.waiting <==> t in r.tasks && Waiting(s, r.owner, TaskKey(t)))
  {
    hide InheritTasks, TaskKey, Affected, Waiting, Created;
    TasksReported(s, r.project, r.owner, r.tasks, |r.tasks|, t);
    assert r.tasks[..|r.tasks|] == r.tasks;
  }
}
