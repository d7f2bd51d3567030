/** What every accepted transaction keeps, whoever requests it and whatever it asks for. */
module GitSafety {
  import opened Options
  import opened GitState

  // ---- the invariant ------------------------------------------------------------------------

  /** A claim is held by its entity's owner, an active member, from an installation that is enrolled
      to it, and in the entity's generation. */
  ghost predicate ClaimHolds(entities: map<string, Entity>, members: map<string, Member>,
                             installations: map<string, string>, k: string, c: Claim)
  {
    && k in entities && entities[k].owner == c.owner == Some(c.actor)
    && entities[k].kind == c.kind && entities[k].scope == c.scope
    && Default(entities[k].generation, -1) == Default(c.generation, -1)
    && c.actor in members && members[c.actor].active
    && c.installation in installations && installations[c.installation] == c.actor
  }

  ghost predicate ClaimsHold(entities: map<string, Entity>, members: map<string, Member>,
                             installations: map<string, string>, claims: map<string, Claim>)
  {
    forall k {:trigger claims[k]} :: k in claims ==> ClaimHolds(entities, members, installations, k, claims[k])
  }

  /** A handoff drains its entity and remembers the owner and generation that still stand. */
  ghost predicate HandoffsHold(entities: map<string, Entity>, handoffs: map<string, Handoff>) {
    forall k {:trigger handoffs[k]} :: k in handoffs ==>
      && k in entities && IsDraining(entities[k])
      && handoffs[k].fromOwner == Owner(entities[k]) && handoffs[k].fromGeneration == Generation(entities[k])
  }

  ghost predicate ChangeCovers(claims: map<string, Claim>, key: ChangeKey, change: Change) {
    match key
    case MemberKey(m) =>
      change.member == m
        && (change.active == Some(false) ==> forall k :: k in claims && claims[k].actor == m ==> k in change.entities)
    case InstallationKey(i) => forall k :: k in claims && claims[k].installation == i ==> k in change.entities
  }

  /** A change that will disable a member or revoke an installation lists every claim that stands. */
  ghost predicate ChangesCover(claims: map<string, Claim>, changes: map<ChangeKey, Change>) {
    forall key {:trigger changes[key]} :: key in changes ==> ChangeCovers(claims, key, changes[key])
  }

  ghost predicate Inv(s: State) {
    && ClaimsHold(s.entities, s.members, s.installations, s.claims)
    && HandoffsHold(s.entities, s.handoffs)
    && ChangesCover(s.claims, s.changes)
  }

  // ---- apply --------------------------------------------------------------------------------

  predicate SameAuthority(e: Entity, f: Entity) {
    && e.kind == f.kind && e.scope == f.scope && e.owner == f.owner && e.generation == f.generation
    && e.draining == f.draining && e.pending == f.pending
  }

  predicate AuthorityKept(before: map<string, Entity>, after: map<string, Entity>) {
    forall k {:trigger after[k]} {:trigger before[k]} :: k in before ==>
      k in after && SameAuthority(before[k], after[k])
  }

  /** No patch of an existing entity moves its authority. */
  lemma {:induction false} PatchesKeepAuthority(entities: map<string, Entity>, rows: seq<(string, Entity)>)
    ensures PatchEntities(entities, rows).Some? ==> AuthorityKept(entities, PatchEntities(entities, rows).value)
  {
    if rows != [] {
      PatchesKeepAuthority(entities, rows[..|rows|-1]);
    }
  }

  lemma KeptHolds(before: map<string, Entity>, after: map<string, Entity>, members: map<string, Member>,
                  installations: map<string, string>, claims: map<string, Claim>, handoffs: map<string, Handoff>)
    requires AuthorityKept(before, after)
    requires ClaimsHold(before, members, installations, claims) && HandoffsHold(before, handoffs)
    ensures ClaimsHold(after, members, installations, claims) && HandoffsHold(after, handoffs)
  {
    forall k | k in claims ensures ClaimHolds(after, members, installations, k, claims[k]) {
      assert ClaimHolds(before, members, installations, k, claims[k]);
      assert SameAuthority(before[k], after[k]);
    }
    forall k | k in handoffs
      ensures k in after && IsDraining(after[k])
      ensures handoffs[k].fromOwner == Owner(after[k]) && handoffs[k].fromGeneration == Generation(after[k])
    {
      assert SameAuthority(before[k], after[k]);
    }
  }

  lemma AdmittedClaimHolds(s: State, entities: map<string, Entity>, claims: map<string, Claim>, actor: string,
                           installation: string, k: string, row: Option<ClaimRow>)
    requires ClaimsHold(entities, s.members, s.installations, claims) && ChangesCover(claims, s.changes)
    requires ActiveInstallation(s, actor, installation) && !AuthorityDrains(s.changes, actor, installation)
    ensures var after := AdmitClaim(entities, claims, actor, installation, k, row);
            after.Some? ==>
              ClaimsHold(entities, s.members, s.installations, after.value) && ChangesCover(after.value, s.changes)
  {
    var after := AdmitClaim(entities, claims, actor, installation, k, row);
    if after.Some? && row.Some? {
      assert ClaimHolds(entities, s.members, s.installations, k, after.value[k]);
      forall key | key in s.changes ensures ChangeCovers(after.value, key, s.changes[key]) {
        assert ChangeCovers(claims, key, s.changes[key]);
        assert s.changes[key].member != actor && key != InstallationKey(installation);
      }
    }
  }

  lemma {:induction false} AdmittedClaimsHold(s: State, entities: map<string, Entity>, actor: string,
                                              installation: string, rows: seq<Rows<ClaimRow>>)
    requires ClaimsHold(entities, s.members, s.installations, s.claims) && ChangesCover(s.claims, s.changes)
    requires ActiveInstallation(s, actor, installation) && !AuthorityDrains(s.changes, actor, installation)
    ensures var after := AdmitClaims(entities, s.claims, actor, installation, rows);
            after.Some? ==>
              ClaimsHold(entities, s.members, s.installations, after.value) && ChangesCover(after.value, s.changes)
  {
    hide ClaimsHold, ChangesCover, AdmitClaim, ActiveInstallation, AuthorityDrains;
    if rows != [] {
      var last := |rows| - 1;
      AdmittedClaimsHold(s, entities, actor, installation, rows[..last]);
      var before := AdmitClaims(entities, s.claims, actor, installation, rows[..last]);
      if before.Some? {
        AdmittedClaimHolds(s, entities, before.value, actor, installation, rows[last].key, rows[last].row);
      }
    }
  }

  lemma ApplyKeepsInv(s: State, r: Request)
    requires Inv(s) && r.Apply?
    ensures ApplyChanges(s, r).Some? ==> Inv(ApplyChanges(s, r).value)
    ensures ApplyChanges(s, r).Some? ==> AuthorityKept(s.entities, ApplyChanges(s, r).value.entities)
  {
    hide ClaimsHold, HandoffsHold, ChangesCover, AuthorityDrains, ActiveInstallation, VersionsMatch,
      AuthorityKept, IsIndex, PatchEntities, AdmitClaims, AdmitPermits, AdmitEffects, OwnerPatchBlocked;
    if ApplyChanges(s, r).Some? {
      PatchesKeepAuthority(s.entities, r.changes.entities);
      var entities := PatchEntities(s.entities, r.changes.entities).value;
      KeptHolds(s.entities, entities, s.members, s.installations, s.claims, s.handoffs);
      AdmittedClaimsHold(s, entities, r.actor, r.installation, r.changes.claims);
    }
  }

  // ---- staging and transferring authority ---------------------------------------------------

  lemma StageKeepsInv(s: State, keys: set<string>, pending: string)
    requires Inv(s)
    ensures Inv(Stage(s, keys, pending))
  {
    var after := Stage(s, keys, pending);
    forall k | k in s.claims ensures ClaimHolds(after.entities, s.members, s.installations, k, s.claims[k]) {
      assert ClaimHolds(s.entities, s.members, s.installations, k, s.claims[k]);
    }
  }

  lemma TransferKeepsInv(s: State, keys: set<string>, owner: string)
    requires Inv(s)
    ensures Inv(Transfer(s, keys, owner))
  {
    hide ChangesCover;
    var after := Transfer(s, keys, owner);
    forall k | k in after.claims ensures ClaimHolds(after.entities, s.members, s.installations, k, after.claims[k]) {
      assert ClaimHolds(s.entities, s.members, s.installations, k, s.claims[k]);
    }
    FewerClaimsCovered(s.claims, after.claims, s.changes);
  }

  lemma FewerClaimsCovered(before: map<string, Claim>, after: map<string, Claim>, changes: map<ChangeKey, Change>)
    requires ChangesCover(before, changes) && forall k :: k in after ==> k in before && after[k] == before[k]
    ensures ChangesCover(after, changes)
  {
    forall key | key in changes ensures ChangeCovers(after, key, changes[key]) {
      assert ChangeCovers(before, key, changes[key]);
    }
  }

  /** The owner and generation stand, or both move at once: one generation on, with the claim released, to
      nobody or to an active executing member that may work on the entity's project. */
  predicate AuthorityMoves(s: State, after: State, k: string)
    requires k in s.entities
  {
    && k in after.entities && after.entities[k].kind == s.entities[k].kind
       && after.entities[k].scope == s.entities[k].scope
    && (|| (after.entities[k].owner == s.entities[k].owner && after.entities[k].generation == s.entities[k].generation)
        || (Generation(after.entities[k]) == Generation(s.entities[k]) + 1 && k !in after.claims
            && !IsDraining(after.entities[k])
            && MayOwn(s.members, s.entities[k], Owner(after.entities[k]))))
  }

  predicate OnlyMoves(s: State, after: State) {
    forall k {:trigger after.entities[k]} {:trigger s.entities[k]} :: k in s.entities ==> AuthorityMoves(s, after, k)
  }

  lemma StageMoves(s: State, keys: set<string>, pending: string)
    ensures OnlyMoves(s, Stage(s, keys, pending))
  {
  }

  lemma TransferMoves(s: State, keys: set<string>, owner: string)
    requires HandoffsHold(s.entities, s.handoffs)
    requires forall k :: k in keys && k in s.entities ==> MayOwn(s.members, s.entities[k], owner)
    ensures OnlyMoves(s, Transfer(s, keys, owner))
  {
    hide MayOwn;
  }

  // ---- inherited owners ---------------------------------------------------------------------

  /** Like OnlyMoves, where everything that moved went to the one owner. */
  predicate InheritsTo(s: State, after: State, owner: string) {
    && after.members == s.members
    && forall k {:trigger after.entities[k]} {:trigger s.entities[k]} :: k in s.entities ==>
      && k in after.entities && after.entities[k].kind == s.entities[k].kind
         && after.entities[k].scope == s.entities[k].scope
      && after.entities[k].project == s.entities[k].project
      && (|| (after.entities[k].owner == s.entities[k].owner
              && after.entities[k].generation == s.entities[k].generation)
          || (Generation(after.entities[k]) == Generation(s.entities[k]) + 1 && k !in after.claims
              && !IsDraining(after.entities[k])
              && Owner(after.entities[k]) == owner && MayOwn(s.members, s.entities[k], owner)))
  }

  lemma CreatedKeepsInv(s: State, k: string, e: Entity)
    requires Inv(s) && k !in s.entities
    ensures Inv(s.(entities := s.entities[k := e]))
  {
    hide ChangesCover;
    var after := s.entities[k := e];
    forall j | j in s.claims ensures ClaimHolds(after, s.members, s.installations, j, s.claims[j]) {
      assert ClaimHolds(s.entities, s.members, s.installations, j, s.claims[j]);
    }
  }

  lemma InheritTaskKeepsInv(h: Inheritance, project: string, owner: string, task: string)
    requires Inv(h.state)
    ensures InheritTask(h, project, owner, task).Some? ==> Inv(InheritTask(h, project, owner, task).value.state)
  {
    hide Inv, Stage, Transfer, MayOwn;
    var s, k := h.state, TaskKey(task);
    if k !in s.entities {
      CreatedKeepsInv(s, k, InheritedEntity(project, task, owner));
    }
    StageKeepsInv(s, {k}, owner);
    TransferKeepsInv(Stage(s, {k}, owner), {k}, owner);
  }

  /** Staging a claim-free entity and transferring it moves just that entity. */
  lemma StagedAndTransferred(s: State, k: string, owner: string)
    requires k in s.entities
    ensures var e := s.entities[k];
            var after := Transfer(Stage(s, {k}, owner), {k}, owner);
            && after.entities == s.entities[k := Transferred(Drained(e, owner), owner, Generation(e) + 1)]
            && after.claims == s.claims - {k} && after.members == s.members
    ensures Stage(s, {k}, owner).members == s.members
    ensures Stage(s, {k}, owner).entities == s.entities[k := Drained(s.entities[k], owner)]
    ensures Stage(s, {k}, owner).claims == s.claims
  {
  }

  lemma SameProjectMayOwn(members: map<string, Member>, e: Entity, f: Entity, owner: string)
    requires e.kind == f.kind && e.scope == f.scope && e.project == f.project
    ensures MayOwn(members, e, owner) == MayOwn(members, f, owner)
  {
  }

  lemma InheritTaskMoves(start: State, h: Inheritance, project: string, owner: string, task: string)
    requires InheritsTo(start, h.state, owner)
    ensures InheritTask(h, project, owner, task).Some? ==>
              InheritsTo(start, InheritTask(h, project, owner, task).value.state, owner)
  {
    hide MayOwn, Stage, Transfer, ClaimInstallation;
    var after, k := InheritTask(h, project, owner, task), TaskKey(task);
    if k in h.state.entities {
      StagedAndTransferred(h.state, k, owner);
      if k in start.entities {
        SameProjectMayOwn(h.state.members, start.entities[k], h.state.entities[k], owner);
      }
    }
  }

  lemma {:induction false} InheritTasksKeep(s: State, project: string, owner: string, tasks: seq<string>)
    requires Inv(s)
    ensures var h := InheritTasks(Inheritance(s, [], []), project, owner, tasks);
            h.Some? ==> Inv(h.value.state) && InheritsTo(s, h.value.state, owner)
  {
    hide ClaimsHold, HandoffsHold, ChangesCover, InheritTask;
    if tasks == [] {
    } else {
      var last := |tasks| - 1;
      InheritTasksKeep(s, project, owner, tasks[..last]);
      var before := InheritTasks(Inheritance(s, [], []), project, owner, tasks[..last]);
      if before.Some? {
        InheritTaskKeepsInv(before.value, project, owner, tasks[last]);
        InheritTaskMoves(s, before.value, project, owner, tasks[last]);
      }
    }
  }

  lemma InheritTaskKeepsEffects(h: Inheritance, project: string, owner: string, task: string)
    ensures var after := InheritTask(h, project, owner, task);
            after.Some? ==> after.value.state.effects == h.state.effects
  {
    hide MayOwn, ClaimInstallation, Stage, Transfer;
    var s, k := h.state, TaskKey(task);
    StageFrame(s, {k}, owner);
    TransferFrame(Stage(s, {k}, owner), {k}, owner);
  }

  lemma {:induction false} InheritanceKeepsEffects(h: Inheritance, project: string, owner: string, tasks: seq<string>)
    ensures var after := InheritTasks(h, project, owner, tasks);
            after.Some? ==> after.value.state.effects == h.state.effects
  {
    hide InheritTask;
    if tasks != [] {
      InheritanceKeepsEffects(h, project, owner, tasks[..|tasks|-1]);
      var before := InheritTasks(h, project, owner, tasks[..|tasks|-1]);
      if before.Some? {
        InheritTaskKeepsEffects(before.value, project, owner, tasks[|tasks|-1]);
      }
    }
  }

  // ---- each transaction ---------------------------------------------------------------------

  /** The transaction, if accepted, keeps the invariant and moves authority only one generation on. */
  ghost predicate Keeps(s: State, after: Option<(State, Result)>) {
    after.Some? ==> Inv(after.value.0) && OnlyMoves(s, after.value.0)
  }

  lemma BeginHandoffKeeps(s: State, r: Request)
    requires Inv(s) && r.BeginHandoff?
    ensures Keeps(s, BeginHandoffOf(s, r))
  {
    hide Blockers, MayOwn, ChangesCover;
    var after := BeginHandoffOf(s, r);
    if after.Some? {
      forall k | k in s.claims ensures ClaimHolds(after.value.0.entities, s.members, s.installations, k, s.claims[k]) {
        assert ClaimHolds(s.entities, s.members, s.installations, k, s.claims[k]);
      }
    }
  }

  lemma NewChangeCovers(s: State, key: ChangeKey, change: Change)
    requires ChangesCover(s.claims, s.changes) && ChangeCovers(s.claims, key, change)
    ensures ChangesCover(s.claims, s.changes[key := change])
  {
    var after := s.changes[key := change];
    forall j | j in after ensures ChangeCovers(s.claims, j, after[j]) {
      assert j in s.changes ==> ChangeCovers(s.claims, j, s.changes[j]);
    }
  }

  lemma BeginMemberChangeKeeps(s: State, r: Request)
    requires Inv(s) && r.BeginMemberChange?
    ensures Keeps(s, BeginMemberChangeOf(s, r))
  {
    hide ClaimsHold, HandoffsHold, ChangesCover, OnlyMoves, Stage, ActiveAdministrator;
    var affected := Concerned(s, r);
    var change := Change(r.member, r.active, r.projects, affected);
    StageKeepsInv(s, affected, "");
    StageMoves(s, affected, "");
    assert ChangeCovers(s.claims, MemberKey(r.member), change) by {
      forall k | k in s.claims && s.claims[k].actor == r.member && r.active == Some(false) ensures k in affected {
        assert ClaimHolds(s.entities, s.members, s.installations, k, s.claims[k]) by { ClaimOf(s, k); }
      }
    }
    NewChangeCovers(s, MemberKey(r.member), change);
    StageFrame(s, affected, "");
    MovesFrame(s, Stage(s, affected, ""), Stage(s, affected, "").(changes := s.changes[MemberKey(r.member) := change]));
  }

  lemma ClaimOf(s: State, k: string)
    requires ClaimsHold(s.entities, s.members, s.installations, s.claims) && k in s.claims
    ensures ClaimHolds(s.entities, s.members, s.installations, k, s.claims[k])
  {
  }

  lemma StageFrame(s: State, keys: set<string>, pending: string)
    ensures Stage(s, keys, pending) ==
              s.(entities := Stage(s, keys, pending).entities, handoffs := Stage(s, keys, pending).handoffs)
  {
  }

  lemma MovesFrame(s: State, middle: State, after: State)
    requires OnlyMoves(s, middle) && after.entities == middle.entities && after.claims == middle.claims
    ensures OnlyMoves(s, after)
  {
  }

  lemma BeginRevocationKeeps(s: State, r: Request)
    requires Inv(s) && r.BeginRevocation?
    ensures Keeps(s, BeginRevocationOf(s, r))
  {
    hide ClaimsHold, HandoffsHold, ChangesCover, OnlyMoves, Stage, ActiveAdministrator;
    if BeginRevocationOf(s, r).Some? {
      var affected := Running(s, r.target);
      var change := Change(s.installations[r.target], None, None, affected);
      StageKeepsInv(s, affected, "");
      StageMoves(s, affected, "");
      NewChangeCovers(s, InstallationKey(r.target), change);
      StageFrame(s, affected, "");
      MovesFrame(s, Stage(s, affected, ""),
                 Stage(s, affected, "").(changes := s.changes[InstallationKey(r.target) := change]));
    }
  }

  lemma EnrollKeeps(s: State, r: Request)
    requires Inv(s) && r.Enroll?
    ensures Keeps(s, EnrollOf(s, r))
  {
    hide HandoffsHold, ChangesCover;
    var after := EnrollOf(s, r);
    if after.Some? {
      forall k | k in s.claims ensures ClaimHolds(s.entities, s.members, after.value.0.installations, k, s.claims[k]) {
        assert ClaimHolds(s.entities, s.members, s.installations, k, s.claims[k]);
      }
    }
  }

  /** Releasing the listed claims is enough for the member to be disabled or the installation revoked. */
  lemma CompleteChangeKeeps(s: State, r: Request)
    requires Inv(s) && r.CompleteChange?
    ensures Keeps(s, CompleteChangeOf(s, r))
  {
    hide ClaimsHold, HandoffsHold, ChangesCover, OnlyMoves, Transfer, Cleared, ActiveAdministrator;
    var after := CompleteChangeOf(s, r);
    if after.Some? {
      var change := s.changes[r.key];
      var moved := Transfer(s, change.entities, "");
      TransferKeepsInv(s, change.entities, "");
      TransferMoves(s, change.entities, "");
      TransferFrame(s, change.entities, "");
      MovesFrame(s, moved, after.value.0);
      ChangeOf(s, r.key);
      FewerChanges(moved.claims, moved.changes, r.key);
      UncoveredClaimsHold(moved, after.value.0, r.key, change);
    }
  }

  lemma ChangeOf(s: State, key: ChangeKey)
    requires ChangesCover(s.claims, s.changes) && key in s.changes
    ensures ChangeCovers(s.claims, key, s.changes[key])
  {
  }

  lemma FewerChanges(claims: map<string, Claim>, changes: map<ChangeKey, Change>, key: ChangeKey)
    requires ChangesCover(claims, changes)
    ensures ChangesCover(claims, changes - {key})
  {
  }

  lemma TransferFrame(s: State, keys: set<string>, owner: string)
    ensures Transfer(s, keys, owner) == s.(entities := Transfer(s, keys, owner).entities, handoffs := s.handoffs - keys,
                                           claims := s.claims - keys, recovery := Transfer(s, keys, owner).recovery)
  {
  }

  lemma UncoveredClaimsHold(moved: State, after: State, key: ChangeKey, change: Change)
    requires ClaimsHold(moved.entities, moved.members, moved.installations, moved.claims)
    requires after.entities == moved.entities && after.claims == moved.claims
    requires forall k :: k in moved.claims ==> k !in change.entities
    requires match key
             case MemberKey(m) =>
               && (change.active == Some(false) ==> forall k :: k in moved.claims ==> moved.claims[k].actor != m)
               && m in moved.members && after.installations == moved.installations
               && after.members == moved.members[m := Narrowed(moved.members[m], change)]
             case InstallationKey(i) =>
               && (forall k :: k in moved.claims ==> moved.claims[k].installation != i)
               && after.members == moved.members && after.installations == moved.installations - {i}
    ensures ClaimsHold(after.entities, after.members, after.installations, after.claims)
  {
    forall k | k in after.claims
      ensures ClaimHolds(after.entities, after.members, after.installations, k, after.claims[k]) {
      assert ClaimHolds(moved.entities, moved.members, moved.installations, k, moved.claims[k]);
    }
  }

  lemma SmallStepsKeep(s: State, r: Request)
    requires Inv(s)
    ensures r.AcknowledgeStop? ==> Keeps(s, AcknowledgeStopOf(s, r))
    ensures r.RecordFence? ==> Keeps(s, RecordFenceOf(s, r))
    ensures r.RetainLate? ==> Keeps(s, RetainLateOf(s, r))
    ensures r.ReconcileEffect? ==> Keeps(s, ReconcileEffectOf(s, r))
  {
    hide ClaimsHold, ChangesCover, Blockers, FencePermits, EffectBlocks;
  }

  lemma CompleteHandoffKeeps(s: State, r: Request)
    requires Inv(s) && r.CompleteHandoff?
    ensures Keeps(s, CompleteHandoffOf(s, r))
  {
    hide ClaimsHold, ChangesCover, HandoffsHold, Transfer, OnlyMoves, Cleared, MayOwn;
    if CompleteHandoffOf(s, r).Some? {
      TransferKeepsInv(s, {r.entity}, s.handoffs[r.entity].pending);
      TransferMoves(s, {r.entity}, s.handoffs[r.entity].pending);
    }
  }

  lemma BootstrapKeeps(sequence: nat, s: State, r: Request)
    requires Inv(s) && r.Bootstrap?
    ensures Keeps(s, BootstrapOf(sequence, s, r))
  {
    hide ChangesCover;
    assert s.entities == map[] ==> forall k :: k in s.handoffs ==> k in s.entities;
  }

  /** Every accepted transaction keeps the invariant, and a claim or an authority never changes
      except by one generation step that releases the claim. */
  lemma PerformKeeps(sequence: nat, s: State, r: Request)
    requires Inv(s)
    ensures Keeps(s, Perform(sequence, s, r))
  {
    hide Inv, OnlyMoves, InheritsTo;
    match r
    case Bootstrap(_, _, _, _) => BootstrapKeeps(sequence, s, r);
    case Apply(_, _, _, _, _) => ApplyMoves(s, r);
    case BeginHandoff(_, _, _, _, _) => BeginHandoffKeeps(s, r);
    case ReconcileInherited(actor, installation, project, phase, owner, tasks) =>
      InheritanceKeeps(s, project, owner, tasks);
    case BeginMemberChange(_, _, _, _, _) => BeginMemberChangeKeeps(s, r);
    case BeginRevocation(_, _, _) => BeginRevocationKeeps(s, r);
    case Enroll(_, _, _, _) => EnrollKeeps(s, r);
    case CompleteChange(_, _, _) => CompleteChangeKeeps(s, r);
    case CompleteHandoff(_, _, _) => CompleteHandoffKeeps(s, r);
    case _ => SmallStepsKeep(s, r);
  }

  lemma ApplyMoves(s: State, r: Request)
    requires Inv(s) && r.Apply?
    ensures ApplyChanges(s, r).Some? ==> Inv(ApplyChanges(s, r).value) && OnlyMoves(s, ApplyChanges(s, r).value)
  {
    hide Inv, ApplyChanges;
    ApplyKeepsInv(s, r);
  }

  lemma InheritanceKeeps(s: State, project: string, owner: string, tasks: seq<string>)
    requires Inv(s)
    ensures var h := InheritTasks(Inheritance(s, [], []), project, owner, tasks);
            h.Some? ==> Inv(h.value.state) && OnlyMoves(s, h.value.state)
  {
    hide Inv, InheritTasks;
    InheritTasksKeep(s, project, owner, tasks);
  }

  // ---- runs ---------------------------------------------------------------------------------

  datatype World = World(sequence: nat, state: State)

  function Step(w: World, r: Request): World {
    var after := Perform(w.sequence, w.state, r);
    if after.None? then w else World(w.sequence + 1, after.value.0)
  }

  function Run(w: World, requests: seq<Request>): World {
    if requests == [] then w else Step(Run(w, requests[..|requests|-1]), requests[|requests|-1])
  }

  const BIRTH := World(0, EMPTY)

  /** In every reachable state each claim is held by its entity's owner, an active member, from an
      installation enrolled to it, in the entity's generation; and each handoff still describes the
      authority it will move. */
  lemma {:induction false} RunsKeepInv(requests: seq<Request>)
    ensures Inv(Run(BIRTH, requests).state)
  {
    hide Perform;
    if requests != [] {
      var before := Run(BIRTH, requests[..|requests|-1]);
      RunsKeepInv(requests[..|requests|-1]);
      PerformKeeps(before.sequence, before.state, requests[|requests|-1]);
    }
  }
}
