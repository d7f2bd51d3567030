/** Who owns what: exactly when a handoff opens, stands and ends, exactly whom each accepted transaction
    gives an entity to, and whom a handoff gives it to over a whole run. */
module GitAuthority {
  import opened Options
  import opened GitState
  import opened GitSafety
  import opened GitBlank

  // ---- what a request asks for --------------------------------------------------------------

  /** The request puts the entity's handoff into effect. */
  predicate Ends(s: State, r: Request, k: string) {
    || (r.CompleteHandoff? && r.entity == k)
    || (r.CompleteChange? && r.key in s.changes && k in s.changes[r.key].entities)
  }

  /** The request opens a handoff of the entity. */
  predicate Opens(s: State, r: Request, k: string) {
    match r
    case BeginHandoff(_, _, entity, _, _) => entity == k
    case BeginMemberChange(_, _, _, _, _) => k in Concerned(s, r)
    case BeginRevocation(_, _, target) => k in Running(s, target)
    case ReconcileInherited(_, _, _, _, owner, tasks) =>
      && Met(tasks, k) && k in s.entities && Owner(s.entities[k]) != owner
      && k !in s.handoffs && ClaimInstallation(s, k) != ""
    case _ => false
  }

  /** Whom the request wants the entity to go to. */
  function PendingOf(r: Request): string {
    match r
    case BeginHandoff(_, _, _, _, pending) => pending
    case ReconcileInherited(_, _, _, _, owner, _) => owner
    case _ => ""
  }

  /** The request moves the entity's authority. */
  predicate Moves(s: State, r: Request, k: string)
    requires k in s.entities
  {
    Ends(s, r, k) || InheritsUnclaimed(s, r, k)
  }

  /** To whom: the handoff's pending owner, nobody, or the owner that inherits. */
  function NewOwner(s: State, r: Request, k: string): string {
    match r
    case CompleteHandoff(_, _, _) => if k in s.handoffs then s.handoffs[k].pending else ""
    case ReconcileInherited(_, _, _, _, owner, _) => owner
    case _ => ""
  }

  // ---- the owner ----------------------------------------------------------------------------

  predicate MovedTo(s: State, after: State, k: string, owner: string)
    requires k in s.entities
  {
    && k in after.entities && after.entities[k].owner == Some(owner)
    && after.entities[k].generation == Some(Generation(s.entities[k]) + 1)
    && !IsDraining(after.entities[k]) && k !in after.claims && k !in after.handoffs
  }

  predicate Stays(s: State, after: State, k: string)
    requires k in s.entities
  {
    k in after.entities && SameStanding(s.entities[k], after.entities[k])
  }

  lemma TransferGives(s: State, keys: set<string>, owner: string, k: string)
    requires HandoffsHold(s.entities, s.handoffs) && k in s.entities && forall j :: j in keys ==> j in s.handoffs
    ensures if k in keys then MovedTo(s, Transfer(s, keys, owner), k, owner) else Stays(s, Transfer(s, keys, owner), k)
  {
  }

  lemma StageStays(s: State, keys: set<string>, pending: string, k: string)
    requires k in s.entities
    ensures Stays(s, Stage(s, keys, pending), k)
  {
  }

  lemma CompletionMoves(s: State, r: Request, k: string)
    requires Inv(s) && k in s.entities && (r.CompleteHandoff? || r.CompleteChange?) && Perform(0, s, r).Some?
    ensures var after := Perform(0, s, r).value.0;
            if Ends(s, r, k) then MovedTo(s, after, k, NewOwner(s, r, k)) else Stays(s, after, k)
  {
    hide Transfer, HandoffsHold, ClaimsHold, ChangesCover, Blockers, MayOwn, ActiveInstallation, ActiveAdministrator,
      Narrowed;
    if r.CompleteHandoff? {
      TransferGives(s, {r.entity}, s.handoffs[r.entity].pending, k);
    } else {
      TransferFrame(s, s.changes[r.key].entities, "");
      TransferGives(s, s.changes[r.key].entities, "", k);
    }
  }

  lemma OthersStay(sequence: nat, s: State, r: Request, k: string)
    requires k in s.entities && Perform(sequence, s, r).Some?
    requires !r.CompleteHandoff? && !r.CompleteChange? && !r.ReconcileInherited? && !r.Apply?
    ensures Stays(s, Perform(sequence, s, r).value.0, k)
  {
    hide Blockers, MayOwn, ActiveInstallation, ActiveAdministrator, HandoffFrom, Concerned, Running, FencePermits,
      Cleared;
  }

  lemma InheritanceGives(s: State, r: Request, k: string)
    requires r.ReconcileInherited? && k in s.entities
    ensures var h := InheritTasks(Inheritance(s, [], []), r.project, r.owner, r.tasks);
            h.Some? ==>
              if InheritsUnclaimed(s, r, k) then MovedTo(s, h.value.state, k, r.owner)
              else Stays(s, h.value.state, k)
  {
    hide InheritTasks, ClaimInstallation, TaskKey;
    assert r.tasks[..|r.tasks|] == r.tasks;
    InheritancePhases(s, r.project, r.owner, r.tasks, |r.tasks|, k);
  }

  /** Any accepted transaction of anyone leaves owner and generation alone or moves them: to the pending owner
      if it completes the entity's handoff, to nobody if it completes a membership change that lists it, and to
      the inheriting owner; always one generation on, with the claim and the handoff gone. */
  lemma OwnerMovesExactly(sequence: nat, s: State, r: Request, k: string)
    requires Inv(s) && k in s.entities && Perform(sequence, s, r).Some?
    ensures var after := Perform(sequence, s, r).value.0;
            if Moves(s, r, k) then MovedTo(s, after, k, NewOwner(s, r, k)) else Stays(s, after, k)
  {
    hide Inv, ApplyChanges, InheritTasks, BootstrapOf, BeginHandoffOf, BeginMemberChangeOf, BeginRevocationOf,
      EnrollOf, CompleteChangeOf, AcknowledgeStopOf, RecordFenceOf, RetainLateOf, ReconcileEffectOf,
      CompleteHandoffOf, MovedTo, InheritsUnclaimed, SameStanding;
    if r.Apply? {
      ApplyKeepsInv(s, r);
      KeptStands(s, ApplyChanges(s, r).value, k);
      NotInherits(s, r, k);
    } else if r.ReconcileInherited? {
      InheritanceGives(s, r, k);
    } else if r.CompleteHandoff? || r.CompleteChange? {
      CompletionMoves(s, r, k);
      NotInherits(s, r, k);
    } else {
      OthersStay(sequence, s, r, k);
      NotInherits(s, r, k);
    }
  }

  /** Completing a handoff hands the entity to the pending owner in the next generation, ends its draining, its
      claim and its handoff, keeps the handoff as evidence, names the stored owner and generation in its result,
      and touches nothing else. */
  lemma CompletionHandsOver(sequence: nat, s: State, r: Request)
    requires Inv(s) && r.CompleteHandoff? && Perform(sequence, s, r).Some?
    ensures var (after, result) := Perform(sequence, s, r).value;
            var k := r.entity;
            && k in s.handoffs && k in s.entities && MovedTo(s, after, k, s.handoffs[k].pending)
            && result == HandedOver(Owner(after.entities[k]), Generation(after.entities[k]))
            && after.recovery == s.recovery + {HandoffRecord(k, s.handoffs[k])}
            && after.entities - {k} == s.entities - {k}
            && after.claims == s.claims - {k} && after.handoffs == s.handoffs - {k}
            && after == s.(entities := after.entities, claims := after.claims, handoffs := after.handoffs,
                           recovery := after.recovery)
  {
    hide Blockers, MayOwn, ClaimsHold, ChangesCover;
  }

  // ---- the handoff --------------------------------------------------------------------------

  predicate SameMove(h: Handoff, g: Handoff) {
    && h.pending == g.pending && h.fromOwner == g.fromOwner && h.fromGeneration == g.fromGeneration
    && h.fromInstallation == g.fromInstallation
  }

  /** A standing handoff only gains flags: the worker's acknowledgement, or an administrator's fence. */
  predicate Flags(r: Request, k: string, h: Handoff, g: Handoff) {
    && SameMove(h, g)
    && g.stopAcknowledged == (h.stopAcknowledged || (r.AcknowledgeStop? && r.entity == k))
    && g.externalFence == (h.externalFence || (r.RecordFence? && r.entity == k))
  }

  /** A new handoff remembers what stands, names whom the request wants, and counts as acknowledged if there
      is nobody to stop. */
  predicate Begun(s: State, r: Request, k: string, g: Handoff)
    requires k in s.entities
  {
    && g.pending == PendingOf(r) && g.fromOwner == Owner(s.entities[k])
    && g.fromGeneration == Generation(s.entities[k]) && g.fromInstallation == ClaimInstallation(s, k)
    && !g.externalFence
    && g.stopAcknowledged ==
         if r.BeginHandoff? then k !in s.claims && Blockers(s, k) == {} else ClaimInstallation(s, k) == ""
  }

  /** What the request makes of the entity's handoff. */
  predicate HandoffStep(s: State, r: Request, after: State, k: string) {
    if k in s.handoffs then
      if Ends(s, r, k) then k !in after.handoffs
      else k in after.handoffs && Flags(r, k, s.handoffs[k], after.handoffs[k])
    else
      && (k in after.handoffs <==> Opens(s, r, k))
      && (Opens(s, r, k) ==> k in s.entities && Begun(s, r, k, after.handoffs[k]))
  }

  lemma StageBegins(s: State, keys: set<string>, pending: string, k: string)
    ensures var after := Stage(s, keys, pending);
            && (k in after.handoffs <==> k in s.handoffs || (k in keys && k in s.entities))
            && (k in keys && k in s.entities ==> after.handoffs[k] == HandoffFrom(s, k, pending))
            && (k in s.handoffs && k !in keys ==> after.handoffs[k] == s.handoffs[k])
  {
    hide Drained, HandoffFrom;
  }

  lemma ChangeBegins(s: State, r: Request, k: string)
    requires Inv(s) && (r.BeginMemberChange? || r.BeginRevocation?) && Perform(0, s, r).Some?
    ensures HandoffStep(s, r, Perform(0, s, r).value.0, k)
  {
    hide Blockers, MayOwn, ActiveInstallation, ActiveAdministrator, Stage, Inv;
    if r.BeginMemberChange? {
      StageBegins(s, Concerned(s, r), "", k);
      StageFrame(s, Concerned(s, r), "");
    } else {
      StageBegins(s, Running(s, r.target), "", k);
      StageFrame(s, Running(s, r.target), "");
    }
  }

  lemma SmallHandoffSteps(s: State, r: Request, k: string)
    requires Perform(1, s, r).Some? && Inv(s)
    requires r.BeginHandoff? || r.AcknowledgeStop? || r.RecordFence?
    ensures HandoffStep(s, r, Perform(1, s, r).value.0, k)
  {
    hide Blockers, MayOwn, ActiveInstallation, FencePermits, Drained, Inv, EffectBlocks;
  }

  lemma EndingSteps(s: State, r: Request, k: string)
    requires Perform(1, s, r).Some? && (r.CompleteHandoff? || r.CompleteChange?)
    ensures HandoffStep(s, r, Perform(1, s, r).value.0, k)
  {
    hide Blockers, MayOwn, ActiveInstallation, ActiveAdministrator, Narrowed, Transfer;
    if r.CompleteHandoff? {
      TransferFrame(s, {r.entity}, s.handoffs[r.entity].pending);
    } else {
      TransferFrame(s, s.changes[r.key].entities, "");
    }
  }

  lemma KeepsHandoffs(sequence: nat, s: State, r: Request)
    requires Perform(sequence, s, r).Some?
    requires r.Bootstrap? || r.Apply? || r.Enroll? || r.RetainLate? || r.ReconcileEffect?
    ensures Perform(sequence, s, r).value.0.handoffs == s.handoffs
  {
    hide PatchEntities, AdmitClaims, AdmitPermits, AdmitEffects, IsIndex, OwnerPatchBlocked, AuthorityDrains,
      ActiveInstallation, VersionsMatch, ActiveAdministrator;
  }

  /** A task that did not exist is created for the owner without a handoff. */
  lemma {:induction false} CreatedHasNone(s: State, project: string, owner: string, tasks: seq<string>, k: string)
    requires k !in s.entities && k !in s.handoffs
    ensures var h := InheritTasks(Inheritance(s, [], []), project, owner, tasks);
            h.Some? ==> k !in h.value.state.handoffs
                        && (k in h.value.state.entities ==> Owner(h.value.state.entities[k]) == owner)
  {
    hide MayOwn, Stage, Transfer, ClaimInstallation, TaskKey;
    if tasks != [] {
      var last := |tasks| - 1;
      CreatedHasNone(s, project, owner, tasks[..last], k);
      var before := InheritTasks(Inheritance(s, [], []), project, owner, tasks[..last]);
      if before.Some? {
        if TaskKey(tasks[last]) != k {
          OtherTaskAgrees(before.value, project, owner, tasks[last], k);
        }
      }
    }
  }

  lemma InheritanceHandoffs(s: State, r: Request, k: string)
    requires Inv(s) && r.ReconcileInherited?
    ensures var h := InheritTasks(Inheritance(s, [], []), r.project, r.owner, r.tasks);
            h.Some? ==> HandoffStep(s, r, h.value.state, k)
  {
    hide InheritTasks, TaskKey, Blockers, ClaimsHold, ChangesCover;
    assert r.tasks[..|r.tasks|] == r.tasks;
    if k in s.entities {
      InheritancePhases(s, r.project, r.owner, r.tasks, |r.tasks|, k);
    } else {
      CreatedHasNone(s, r.project, r.owner, r.tasks, k);
    }
  }

  /** Any accepted transaction of anyone opens, flags and ends exactly the handoffs it asks for. */
  lemma HandoffsStepExactly(sequence: nat, s: State, r: Request, k: string)
    requires Inv(s) && Perform(sequence, s, r).Some?
    ensures HandoffStep(s, r, Perform(sequence, s, r).value.0, k)
  {
    hide Inv, ApplyChanges, InheritTasks, BootstrapOf, BeginHandoffOf, BeginMemberChangeOf, BeginRevocationOf,
      EnrollOf, CompleteChangeOf, AcknowledgeStopOf, RecordFenceOf, RetainLateOf, ReconcileEffectOf,
      CompleteHandoffOf, Blockers, Concerned, Running;
    match r {
      case BeginHandoff(_, _, _, _, _) => SmallHandoffSteps(s, r, k);
      case ReconcileInherited(_, _, _, _, _, _) => InheritanceHandoffs(s, r, k);
      case BeginMemberChange(_, _, _, _, _) => ChangeBegins(s, r, k);
      case BeginRevocation(_, _, _) => ChangeBegins(s, r, k);
      case CompleteChange(_, _, _) => EndingSteps(s, r, k);
      case AcknowledgeStop(_, _, _) => SmallHandoffSteps(s, r, k);
      case RecordFence(_, _, _, _, _) => SmallHandoffSteps(s, r, k);
      case CompleteHandoff(_, _, _) => EndingSteps(s, r, k);
      case _ => KeepsHandoffs(sequence, s, r);
    }
  }

  // ---- over whole runs ----------------------------------------------------------------------

  /** The entity has a handoff at every point of the run. */
  ghost predicate Pends(w: World, requests: seq<Request>, k: string) {
    forall i {:trigger requests[..i]} :: 0 <= i <= |requests| ==> k in Run(w, requests[..i]).state.handoffs
  }

  lemma PendsShorter(w: World, requests: seq<Request>, k: string)
    requires Pends(w, requests, k) && requests != []
    ensures Pends(w, requests[..|requests|-1], k) && k in Run(w, requests).state.handoffs
  {
    hide Run;
    var front := requests[..|requests|-1];
    forall i | 0 <= i <= |front| ensures k in Run(w, front[..i]).state.handoffs {
      assert front[..i] == requests[..i];
    }
    assert requests[..|requests|] == requests;
  }

  lemma {:induction false} PendingStands(w: World, requests: seq<Request>, k: string)
    requires Inv(w.state) && Pends(w, requests, k)
    ensures k in w.state.handoffs && k in Run(w, requests).state.handoffs && Inv(Run(w, requests).state)
    ensures SameMove(w.state.handoffs[k], Run(w, requests).state.handoffs[k])
  {
    hide Inv, Perform, Pends;
    if requests == [] {
      assert k in Run(w, requests[..0]).state.handoffs by { assert Pends(w, requests, k); AtOnce(w, requests, k); }
    } else {
      var last := |requests| - 1;
      PendsShorter(w, requests, k);
      PendingStands(w, requests[..last], k);
      var middle := Run(w, requests[..last]);
      PerformKeeps(middle.sequence, middle.state, requests[last]);
      if Perform(middle.sequence, middle.state, requests[last]).Some? {
        HandoffsStepExactly(middle.sequence, middle.state, requests[last], k);
      }
    }
  }

  lemma AtOnce(w: World, requests: seq<Request>, k: string)
    requires Pends(w, requests, k) && requests == []
    ensures k in w.state.handoffs
  {
    assert requests[..0] == [];
  }

  /** Over any run of any clients, an entity whose handoff is completed goes to the owner that the request which
      opened this handoff asked for, in the generation after the one it had then. */
  lemma HandoffGivesToPending(past: seq<Request>, open: Request, between: seq<Request>, complete: Request, k: string)
    requires var w := Run(BIRTH, past);
             && k !in w.state.handoffs && Pends(Step(w, open), between, k)
    requires var w := Run(Step(Run(BIRTH, past), open), between);
             complete.CompleteHandoff? && complete.entity == k && Perform(w.sequence, w.state, complete).Some?
    ensures var w := Run(BIRTH, past);
            var after := Step(Run(Step(w, open), between), complete).state;
            && k in w.state.entities && Opens(w.state, open, k)
            && k in after.entities && after.entities[k].owner == Some(PendingOf(open))
            && after.entities[k].generation == Some(Generation(w.state.entities[k]) + 1)
            && k !in after.handoffs && k !in after.claims
  {
    hide Inv, Perform, Pends, Opens, Run;
    var w := Run(BIRTH, past);
    RunsKeepInv(past);
    PerformKeeps(w.sequence, w.state, open);
    var staged := Step(w, open);
    PendingStands(staged, between, k);
    HandoffsStepExactly(w.sequence, w.state, open, k);
    var last := Run(staged, between);
    CompletionHandsOver(last.sequence, last.state, complete);
    HandoffRemembers(last.state, k);
  }

  lemma HandoffRemembers(s: State, k: string)
    requires Inv(s) && k in s.handoffs
    ensures k in s.entities && s.handoffs[k].fromGeneration == Generation(s.entities[k])
  {
  }
}
