/** Claims, permits and effects: exactly which row is stored after an accepted transaction, how long a claim
    stands, and whose report an effect's outcome is. */
module GitRows {
  import opened Options
  import opened GitState
  import opened GitSafety
  import opened GitBlank
  import opened GitAuthority
  import GitMembership
  import GitRuns

  // ---- the rows of a request ----------------------------------------------------------------

  /** The first row the request stores under the key, and the last one. */
  function FirstRow<R>(rows: seq<Rows<R>>, k: string): Option<R> {
    if rows == [] then None
    else
      var before := FirstRow(rows[..|rows|-1], k);
      if before.Some? then before else if rows[|rows|-1].key == k then rows[|rows|-1].row else None
  }

  function LastRow<R>(rows: seq<Rows<R>>, k: string): Option<R> {
    if rows == [] then None
    else
      var last := rows[|rows|-1];
      if last.key == k && last.row.Some? then last.row else LastRow(rows[..|rows|-1], k)
  }

  /** The last outcome that the request reports for the effect. */
  function LastOutcome(rows: seq<Rows<EffectRow>>, e: string): Option<EffectOutcome> {
    if rows == [] then None
    else
      var last := rows[|rows|-1];
      if last.key == e && last.row.Some? && last.row.value.outcome.Some? then last.row.value.outcome
      else LastOutcome(rows[..|rows|-1], e)
  }

  predicate Same<V(==)>(before: map<string, V>, after: map<string, V>, k: string) {
    (k in after <==> k in before) && (k in before ==> after[k] == before[k])
  }

  // ---- what an apply stores -----------------------------------------------------------------

  /** The claim of the row, held by whoever applies it. */
  predicate ClaimStored(after: map<string, Claim>, k: string, row: ClaimRow, actor: string, installation: string) {
    && k in after && after[k].operation == row.operation && after[k].kind == row.kind && after[k].scope == row.scope
    && after[k].owner == row.owner == Some(actor) && after[k].generation == row.generation
    && after[k].actor == actor && after[k].installation == installation
  }

  lemma {:induction false} ClaimRowsStored(entities: map<string, Entity>, claims: map<string, Claim>, actor: string,
                                           installation: string, rows: seq<Rows<ClaimRow>>, k: string)
    ensures var after := AdmitClaims(entities, claims, actor, installation, rows);
            after.Some? ==> var row := LastRow(rows, k);
                            if row.Some? then ClaimStored(after.value, k, row.value, actor, installation)
                            else Same(claims, after.value, k)
    ensures var after := AdmitClaims(entities, claims, actor, installation, rows);
            after.Some? && k in claims ==> k in after.value && after.value[k] == claims[k]
  {
    if rows != [] {
      ClaimRowsStored(entities, claims, actor, installation, rows[..|rows|-1], k);
    }
  }

  lemma {:induction false} PermitRowsStored(entities: map<string, Entity>, index: map<string, string>,
                                            permits: map<string, Permit>, actor: string, installation: string,
                                            rows: seq<Rows<PermitRow>>, p: string)
    ensures var after := AdmitPermits(entities, index, permits, actor, installation, rows);
            after.Some? ==> var row := LastRow(rows, p);
                            if row.Some? then
                              && p in after.value && row.value.claim == Some(after.value[p].claim)
                              && after.value[p].status == row.value.status
                              && after.value[p].actor == Default(row.value.actor, actor)
                              && after.value[p].installation == Default(row.value.installation, installation)
                            else Same(permits, after.value, p)
  {
    hide LeadsToDraining;
    if rows != [] {
      PermitRowsStored(entities, index, permits, actor, installation, rows[..|rows|-1], p);
    }
  }

  /** What a new effect starts from: its first row. */
  predicate Introduces(e: Effect, row: EffectRow) {
    row.claim == Some(e.claim) && e.provider == row.provider && e.scope == row.scope && e.key == row.key
  }

  predicate SameTarget(e: Effect, f: Effect) {
    e.claim == f.claim && e.provider == f.provider && e.scope == f.scope && e.key == f.key
  }

  /** An effect keeps its target and takes the last outcome reported. */
  predicate EffectStored(before: map<string, Effect>, after: map<string, Effect>, e: string,
                         rows: seq<Rows<EffectRow>>)
  {
    var first, outcome := FirstRow(rows, e), LastOutcome(rows, e);
    if first.None? then Same(before, after, e)
    else
      && e in after
      && (if e in before then SameTarget(after[e], before[e]) else Introduces(after[e], first.value))
      && after[e].outcome ==
           if outcome.Some? then outcome else if e in before then before[e].outcome else None
  }

  lemma {:induction false} EffectRowsStored(entities: map<string, Entity>, index: map<string, string>,
                                            effects: map<string, Effect>, actor: string, installation: string,
                                            rows: seq<Rows<EffectRow>>, e: string)
    ensures var after := AdmitEffects(entities, index, effects, actor, installation, rows);
            after.Some? ==> EffectStored(effects, after.value, e, rows)
    ensures FirstRow(rows, e).None? ==> LastOutcome(rows, e).None?
  {
    hide LeadsToDraining;
    if rows != [] {
      EffectRowsStored(entities, index, effects, actor, installation, rows[..|rows|-1], e);
    }
  }

  lemma ApplyStores(s: State, r: Request, k: string)
    requires r.Apply? && ApplyChanges(s, r).Some?
    ensures var after, rows := ApplyChanges(s, r).value, r.changes;
            && (var row := LastRow(rows.claims, k);
                if row.Some? then ClaimStored(after.claims, k, row.value, r.actor, r.installation)
                else Same(s.claims, after.claims, k))
            && (k in s.claims ==> k in after.claims && after.claims[k] == s.claims[k])
            && (var row := LastRow(rows.permits, k);
                if row.Some? then
                  && k in after.permits && row.value.claim == Some(after.permits[k].claim)
                  && after.permits[k].status == row.value.status
                else Same(s.permits, after.permits, k))
            && EffectStored(s.effects, after.effects, k, rows.effects)
  {
    hide PatchEntities, AdmitClaims, AdmitPermits, AdmitEffects, IsIndex, OwnerPatchBlocked, AuthorityDrains,
      ActiveInstallation, VersionsMatch, EffectStored;
    var after := ApplyChanges(s, r).value;
    ClaimRowsStored(after.entities, s.claims, r.actor, r.installation, r.changes.claims, k);
    PermitRowsStored(after.entities, r.index, s.permits, r.actor, r.installation, r.changes.permits, k);
    EffectRowsStored(after.entities, r.index, s.effects, r.actor, r.installation, r.changes.effects, k);
  }

  // ---- any transaction ----------------------------------------------------------------------

  /** A claim comes from an apply of its owner and goes when the entity's authority moves. */
  predicate ClaimStep(s: State, r: Request, after: State, k: string) {
    && (k in s.claims && k in after.claims ==> after.claims[k] == s.claims[k])
    && if r.Apply? && LastRow(r.changes.claims, k).Some? then
      ClaimStored(after.claims, k, LastRow(r.changes.claims, k).value, r.actor, r.installation)
    else if k in s.entities && Moves(s, r, k) then k !in after.claims
    else Same(s.claims, after.claims, k)
  }

  lemma OthersKeepClaims(sequence: nat, s: State, r: Request)
    requires Perform(sequence, s, r).Some?
    requires !r.Apply? && !r.ReconcileInherited? && !r.CompleteHandoff? && !r.CompleteChange?
    ensures Perform(sequence, s, r).value.0.claims == s.claims
  {
    hide Blockers, MayOwn, ActiveInstallation, ActiveAdministrator, HandoffFrom, Concerned, Running, FencePermits,
      EffectBlocks, Stage;
    if r.BeginMemberChange? {
      StageFrame(s, Concerned(s, r), "");
    } else if r.BeginRevocation? {
      StageFrame(s, Running(s, r.target), "");
    }
  }

  lemma CompletionsRelease(s: State, r: Request, k: string)
    requires (r.CompleteHandoff? || r.CompleteChange?) && Perform(0, s, r).Some?
    ensures var after := Perform(0, s, r).value.0;
            if Ends(s, r, k) then k !in after.claims else Same(s.claims, after.claims, k)
  {
    hide Blockers, MayOwn, ActiveInstallation, ActiveAdministrator, Narrowed, Transfer;
    if r.CompleteHandoff? {
      TransferFrame(s, {r.entity}, s.handoffs[r.entity].pending);
    } else {
      TransferFrame(s, s.changes[r.key].entities, "");
    }
  }

  lemma InheritanceClaims(s: State, r: Request, k: string)
    requires Inv(s) && r.ReconcileInherited?
    ensures var h := InheritTasks(Inheritance(s, [], []), r.project, r.owner, r.tasks);
            h.Some? ==> ClaimStep(s, r, h.value.state, k)
  {
    hide InheritTasks, TaskKey, ClaimsHold, HandoffsHold, ChangesCover;
    assert r.tasks[..|r.tasks|] == r.tasks;
    if k in s.entities {
      InheritancePhases(s, r.project, r.owner, r.tasks, |r.tasks|, k);
    } else {
      ClaimsAreStored(s, k);
      CreatedUnclaimed(s, r.project, r.owner, r.tasks, k);
    }
  }

  lemma ClaimsAreStored(s: State, k: string)
    requires Inv(s)
    ensures k in s.claims ==> k in s.entities
  {
    assert k in s.claims ==> ClaimHolds(s.entities, s.members, s.installations, k, s.claims[k]);
  }

  lemma {:induction false} CreatedUnclaimed(s: State, project: string, owner: string, tasks: seq<string>, k: string)
    requires k !in s.claims
    ensures var h := InheritTasks(Inheritance(s, [], []), project, owner, tasks);
            h.Some? ==> k !in h.value.state.claims
  {
    hide MayOwn, Stage, Transfer, ClaimInstallation, TaskKey;
    if tasks != [] {
      var last := |tasks| - 1;
      CreatedUnclaimed(s, project, owner, tasks[..last], k);
      var before := InheritTasks(Inheritance(s, [], []), project, owner, tasks[..last]);
      if before.Some? {
        var t := before.value.state;
        StageFrame(t, {TaskKey(tasks[last])}, owner);
        TransferFrame(Stage(t, {TaskKey(tasks[last])}, owner), {TaskKey(tasks[last])}, owner);
      }
    }
  }

  /** Any accepted transaction of anyone stores the claims it carries, releases those of the entities it moves,
      and leaves every other claim as it is. */
  lemma ClaimsStepExactly(sequence: nat, s: State, r: Request, k: string)
    requires Inv(s) && Perform(sequence, s, r).Some?
    ensures ClaimStep(s, r, Perform(sequence, s, r).value.0, k)
  {
    hide Inv, ApplyChanges, InheritTasks, BootstrapOf, BeginHandoffOf, BeginMemberChangeOf, BeginRevocationOf,
      EnrollOf, CompleteChangeOf, AcknowledgeStopOf, RecordFenceOf, RetainLateOf, ReconcileEffectOf,
      CompleteHandoffOf, Ends, InheritsUnclaimed, ClaimStored;
    if r.Apply? {
      ApplyStores(s, r, k);
      MovesByOthers(s, r, k);
    } else if r.ReconcileInherited? {
      InheritanceClaims(s, r, k);
    } else if r.CompleteHandoff? || r.CompleteChange? {
      CompletionsRelease(s, r, k);
      EndsWhatIsStored(sequence, s, r, k);
      if k in s.entities { NotInherits(s, r, k); }
    } else {
      OthersKeepClaims(sequence, s, r);
      MovesByOthers(s, r, k);
    }
  }

  lemma MovesByOthers(s: State, r: Request, k: string)
    requires !r.ReconcileInherited? && !r.CompleteHandoff? && !r.CompleteChange?
    ensures k in s.entities ==> !Moves(s, r, k)
  {
  }

  lemma EndsWhatIsStored(sequence: nat, s: State, r: Request, k: string)
    requires (r.CompleteHandoff? || r.CompleteChange?) && Perform(sequence, s, r).Some?
    ensures Ends(s, r, k) ==> k in s.entities
  {
    hide Cleared, MayOwn, ActiveInstallation, ActiveAdministrator, Transfer, Narrowed;
  }

  /** Which permit of which claim a fence closes. */
  predicate Fences(s: State, r: Request, p: string) {
    && r.RecordFence? && p in s.permits && r.entity in s.claims
    && s.permits[p].claim == s.claims[r.entity].operation && StatusOpen(s.permits[p])
  }

  /** A permit is what its last row says, until it is fenced or its effect is reconciled. */
  predicate PermitStep(s: State, r: Request, after: State, p: string) {
    if r.Apply? && LastRow(r.changes.permits, p).Some? then
      && p in after.permits && LastRow(r.changes.permits, p).value.claim == Some(after.permits[p].claim)
      && after.permits[p].status == LastRow(r.changes.permits, p).value.status
    else if Fences(s, r, p) then
      p in after.permits && after.permits[p] == s.permits[p].(status := Some(Fenced))
    else if r.ReconcileEffect? && r.effect == p && p in s.permits then
      p in after.permits
      && after.permits[p] == s.permits[p].(status := Some(if r.outcome == Withdrawn then Fenced else Terminal))
    else Same(s.permits, after.permits, p)
  }

  /** An effect is what applies stored of it, until it is reconciled. */
  predicate EffectStep(s: State, r: Request, after: State, e: string) {
    if r.Apply? then EffectStored(s.effects, after.effects, e, r.changes.effects)
    else if r.ReconcileEffect? && r.effect == e then
      && e in s.effects && e in after.effects && SameTarget(after.effects[e], s.effects[e])
      && after.effects[e].outcome == Some(r.outcome)
    else Same(s.effects, after.effects, e)
  }

  lemma OthersKeepEvidence(sequence: nat, s: State, r: Request)
    requires Perform(sequence, s, r).Some?
    requires !r.Apply? && !r.ReconcileInherited? && !r.RecordFence? && !r.ReconcileEffect?
    ensures Perform(sequence, s, r).value.0.permits == s.permits && Perform(sequence, s, r).value.0.effects == s.effects
  {
    hide Blockers, MayOwn, ActiveInstallation, ActiveAdministrator, HandoffFrom, Concerned, Running, Stage, Transfer,
      Narrowed, Cleared;
    if r.BeginMemberChange? {
      StageFrame(s, Concerned(s, r), "");
    } else if r.BeginRevocation? {
      StageFrame(s, Running(s, r.target), "");
    } else if r.CompleteHandoff? {
      TransferFrame(s, {r.entity}, s.handoffs[r.entity].pending);
    } else if r.CompleteChange? {
      TransferFrame(s, s.changes[r.key].entities, "");
    }
  }

  /** Any accepted transaction of anyone stores exactly the permits and effects it carries, fences or reconciles. */
  lemma EvidenceStepsExactly(sequence: nat, s: State, r: Request, k: string)
    requires Perform(sequence, s, r).Some?
    ensures var after := Perform(sequence, s, r).value.0; PermitStep(s, r, after, k) && EffectStep(s, r, after, k)
  {
    hide ApplyChanges, InheritTasks, BootstrapOf, BeginHandoffOf, BeginMemberChangeOf, BeginRevocationOf,
      EnrollOf, CompleteChangeOf, AcknowledgeStopOf, RetainLateOf, CompleteHandoffOf, EffectStored, EffectBlocks;
    if r.Apply? {
      ApplyStores(s, r, k);
    } else if r.ReconcileInherited? {
      GitMembership.InheritanceKeepsChanges(s, r.project, r.owner, r.tasks);
    } else if !r.RecordFence? && !r.ReconcileEffect? {
      OthersKeepEvidence(sequence, s, r);
    }
  }

  // ---- over whole runs ----------------------------------------------------------------------

  /** As long as the entity's generation stands, so does its claim, over any run of any clients. */
  lemma {:induction false} ClaimStandsWithGeneration(past: seq<Request>, requests: seq<Request>, k: string)
    requires k in Run(BIRTH, past).state.claims
    ensures var s, after := Run(BIRTH, past).state, Run(Run(BIRTH, past), requests).state;
            && k in s.entities && k in after.entities && Generation(after.entities[k]) >= Generation(s.entities[k])
            && (Generation(after.entities[k]) == Generation(s.entities[k]) ==>
                  k in after.claims && after.claims[k] == s.claims[k])
    decreases |requests|
  {
    hide Inv, Perform, Moves;
    var w := Run(BIRTH, past);
    RunsKeepInv(past);
    ClaimsAreStored(w.state, k);
    if requests != [] {
      var last := |requests| - 1;
      ClaimStandsWithGeneration(past, requests[..last], k);
      GitRuns.RunsKeepInvFrom(past, requests[..last]);
      var middle := Run(w, requests[..last]);
      if Perform(middle.sequence, middle.state, requests[last]).Some? {
        ClaimsStepExactly(middle.sequence, middle.state, requests[last], k);
        OwnerMovesExactly(middle.sequence, middle.state, requests[last], k);
      }
    }
  }

  /** The outcome that the request reports for the effect. */
  function Reported(r: Request, e: string): Option<EffectOutcome> {
    if r.Apply? then LastOutcome(r.changes.effects, e)
    else if r.ReconcileEffect? && r.effect == e then Some(r.outcome)
    else None
  }

  /** The last outcome that an accepted request of the run reports. */
  function LastReport(w: World, requests: seq<Request>, e: string): Option<EffectOutcome> {
    if requests == [] then None
    else
      var middle, r := Run(w, requests[..|requests|-1]), requests[|requests|-1];
      if Perform(middle.sequence, middle.state, r).Some? && Reported(r, e).Some? then Reported(r, e)
      else LastReport(w, requests[..|requests|-1], e)
  }

  /** Over any run of any clients a stored effect keeps its target, and its outcome is the last one reported. */
  lemma {:induction false} OutcomeIsLastReport(w: World, requests: seq<Request>, e: string)
    requires e in w.state.effects
    ensures var after := Run(w, requests).state.effects;
            && e in after && SameTarget(after[e], w.state.effects[e])
            && after[e].outcome ==
                 if LastReport(w, requests, e).Some? then LastReport(w, requests, e) else w.state.effects[e].outcome
  {
    hide Perform;
    if requests != [] {
      var last := |requests| - 1;
      OutcomeIsLastReport(w, requests[..last], e);
      var middle := Run(w, requests[..last]);
      if Perform(middle.sequence, middle.state, requests[last]).Some? {
        EvidenceStepsExactly(middle.sequence, middle.state, requests[last], e);
        if requests[last].Apply? {
          NoRowNoOutcome(requests[last].changes.effects, e);
        }
      }
    }
  }

  lemma {:induction false} NoRowNoOutcome(rows: seq<Rows<EffectRow>>, e: string)
    ensures FirstRow(rows, e).None? ==> LastOutcome(rows, e).None?
  {
    if rows != [] {
      NoRowNoOutcome(rows[..|rows|-1], e);
    }
  }
}
