/** Exactly when authority moves under an open effect, and when a handoff counts as stopped although
    something is open: for every client, disciplined or not. */
module GitBlank {
  import opened Options
  import opened GitState
  import opened GitSafety
  import opened GitHandoffs
  import GitRuns

  predicate SameStanding(e: Entity, f: Entity) { e.owner == f.owner && e.generation == f.generation }

  // ---- one transaction ----------------------------------------------------------------------

  /** The request inherits the task to another owner while no handoff is pending, and its claim's
      installation is blank or there is no claim. */
  predicate InheritsUnclaimed(s: State, r: Request, k: string)
    requires k in s.entities
  {
    && r.ReconcileInherited? && (exists t :: t in r.tasks && TaskKey(t) == k)
    && Owner(s.entities[k]) != r.owner && k !in s.handoffs && ClaimInstallation(s, k) == ""
  }

  /** The two states agree on the entity, its handoff and its claim. */
  predicate Agree(s: State, t: State, k: string) {
    && (k in s.entities) == (k in t.entities) && (k in s.entities ==> t.entities[k] == s.entities[k])
    && (k in s.handoffs) == (k in t.handoffs) && (k in s.handoffs ==> t.handoffs[k] == s.handoffs[k])
    && (k in s.claims) == (k in t.claims) && (k in s.claims ==> t.claims[k] == s.claims[k])
  }

  /** Where inheriting tasks has brought the entity, depending on whether its task has been met. */
  predicate Phase(s: State, t: State, owner: string, k: string, met: bool)
    requires k in s.entities
  {
    if !met || Owner(s.entities[k]) == owner || k in s.handoffs then Agree(s, t, k)
    else if ClaimInstallation(s, k) == "" then
      && k in t.entities && t.entities[k].owner == Some(owner) && !IsDraining(t.entities[k])
      && t.entities[k].generation == Some(Generation(s.entities[k]) + 1)
      && k !in t.claims && k !in t.handoffs
    else
      && k in t.entities && SameStanding(s.entities[k], t.entities[k]) && IsDraining(t.entities[k])
      && k in t.claims && t.claims[k] == s.claims[k]
      && k in t.handoffs && t.handoffs[k] == HandoffFrom(s, k, owner)
  }

  lemma StageElsewhere(s: State, j: string, owner: string, k: string)
    requires j != k
    ensures Agree(s, Stage(s, {j}, owner), k)
  {
    hide Drained, HandoffFrom;
  }

  lemma TransferElsewhere(s: State, j: string, owner: string, k: string)
    requires j != k
    ensures Agree(s, Transfer(s, {j}, owner), k)
  {
    hide Transferred;
  }

  lemma OtherTaskAgrees(h: Inheritance, project: string, owner: string, task: string, k: string)
    requires TaskKey(task) != k
    ensures var after := InheritTask(h, project, owner, task); after.Some? ==> Agree(h.state, after.value.state, k)
  {
    hide MayOwn, Stage, Transfer, TaskKey;
    var s, j := h.state, TaskKey(task);
    StageElsewhere(s, j, owner, k);
    TransferElsewhere(Stage(s, {j}, owner), j, owner, k);
  }

  lemma AgreeTransitive(s: State, t: State, u: State, owner: string, k: string, met: bool)
    requires k in s.entities && Phase(s, t, owner, k, met) && Agree(t, u, k)
    ensures Phase(s, u, owner, k, met)
  {
    hide ClaimInstallation;
  }

  lemma TaskMet(s: State, h: Inheritance, project: string, owner: string, task: string, k: string, met: bool)
    requires TaskKey(task) == k && k in s.entities && Phase(s, h.state, owner, k, met)
    ensures var after := InheritTask(h, project, owner, task);
            after.Some? ==> Phase(s, after.value.state, owner, k, true)
  {
    hide MayOwn, Stage, Transfer;
    var t := h.state;
    if k in t.entities {
      StagedAndTransferred(t, k, owner);
      StagedHandoff(t, k, owner);
    }
  }

  lemma StagedHandoff(s: State, k: string, owner: string)
    requires k in s.entities
    ensures var staged := Stage(s, {k}, owner);
            && k in staged.handoffs && staged.handoffs[k] == HandoffFrom(s, k, owner)
            && k !in Transfer(staged, {k}, owner).handoffs
  {
  }

  predicate Met(tasks: seq<string>, k: string) { exists t :: t in tasks && TaskKey(t) == k }

  lemma {:induction false} InheritancePhases(s: State, project: string, owner: string, tasks: seq<string>, n: nat,
                                             k: string)
    requires n <= |tasks| && k in s.entities
    ensures var h := InheritTasks(Inheritance(s, [], []), project, owner, tasks[..n]);
            h.Some? ==> Phase(s, h.value.state, owner, k, Met(tasks[..n], k))
  {
    hide Phase, Agree, InheritTask, TaskKey;
    if n == 0 {
      AtFirst(s, owner, k);
    } else {
      InheritancePhases(s, project, owner, tasks, n - 1, k);
      assert tasks[..n][..n-1] == tasks[..n-1];
      assert tasks[..n] == tasks[..n-1] + [tasks[n-1]];
      var before := InheritTasks(Inheritance(s, [], []), project, owner, tasks[..n-1]);
      var task, met := tasks[n-1], Met(tasks[..n-1], k);
      if before.Some? && InheritTask(before.value, project, owner, task).Some? {
        if TaskKey(task) == k {
          TaskMet(s, before.value, project, owner, task, k, met);
        } else {
          OtherTaskAgrees(before.value, project, owner, task, k);
          AgreeTransitive(s, before.value.state, InheritTask(before.value, project, owner, task).value.state, owner, k,
                          met);
        }
      }
    }
  }

  lemma AtFirst(s: State, owner: string, k: string)
    requires k in s.entities
    ensures Phase(s, s, owner, k, false)
  {
  }

  /** Inheriting moves an entity exactly if it inherits the task of an unclaimed entity to another owner. */
  lemma InheritanceMovesExactly(s: State, r: Request, k: string)
    requires r.ReconcileInherited? && k in s.entities
    ensures var h := InheritTasks(Inheritance(s, [], []), r.project, r.owner, r.tasks);
            h.Some? ==> k in h.value.state.entities
                        && (!SameStanding(s.entities[k], h.value.state.entities[k]) <==> InheritsUnclaimed(s, r, k))
  {
    hide InheritTasks, ClaimInstallation, TaskKey;
    assert r.tasks[..|r.tasks|] == r.tasks;
    InheritancePhases(s, r.project, r.owner, r.tasks, |r.tasks|, k);
  }

  /** Staging moves nothing, and a transfer moves only entities that are cleared. */
  lemma OthersStand(sequence: nat, s: State, r: Request, k: string)
    requires k in s.entities && Blockers(s, k) != {} && !r.ReconcileInherited? && !r.Apply?
    ensures var after := Perform(sequence, s, r);
            after.Some? ==> k in after.value.0.entities && SameStanding(s.entities[k], after.value.0.entities[k])
  {
    hide Blockers, InheritTasks, ApplyChanges, MayOwn, ActiveInstallation, ActiveAdministrator, HandoffFrom,
      Concerned, Running, FencePermits;
  }

  /** While an effect of the entity is open, an accepted transaction moves its owner or generation if and
      only if it inherits the task of an entity without a claim or with a claim from a blank installation. */
  lemma MovesOpenExactly(sequence: nat, s: State, r: Request, e: string, k: string)
    requires Inv(s) && k in s.entities && EffectBlocks(s, e, k) && Perform(sequence, s, r).Some?
    ensures var after := Perform(sequence, s, r).value.0;
            k in after.entities && (!SameStanding(s.entities[k], after.entities[k]) <==> InheritsUnclaimed(s, r, k))
  {
    hide Inv, InheritsUnclaimed, SameStanding, ApplyChanges, InheritTasks, EffectBlocks, BootstrapOf,
      BeginHandoffOf, BeginMemberChangeOf, BeginRevocationOf, EnrollOf, CompleteChangeOf, AcknowledgeStopOf,
      RecordFenceOf, RetainLateOf, ReconcileEffectOf, CompleteHandoffOf;
    GitRuns.BlockerCounts(s, e, k);
    if r.Apply? {
      ApplyKeepsInv(s, r);
      KeptStands(s, ApplyChanges(s, r).value, k);
      NotInherits(s, r, k);
    } else if r.ReconcileInherited? {
      InheritanceMovesExactly(s, r, k);
    } else {
      OthersStand(sequence, s, r, k);
      NotInherits(s, r, k);
    }
  }

  lemma KeptStands(s: State, after: State, k: string)
    requires AuthorityKept(s.entities, after.entities) && k in s.entities
    ensures k in after.entities && SameStanding(s.entities[k], after.entities[k])
  {
  }

  lemma NotInherits(s: State, r: Request, k: string)
    requires !r.ReconcileInherited? && k in s.entities
    ensures !InheritsUnclaimed(s, r, k)
  {
  }

  // ---- runs ---------------------------------------------------------------------------------

  lemma {:induction false} RowsResolve(entities: map<string, Entity>, index: map<string, string>,
                                       effects: map<string, Effect>, actor: string, installation: string,
                                       rows: seq<Rows<EffectRow>>)
    ensures var after := AdmitEffects(entities, index, effects, actor, installation, rows);
            after.Some? ==> EffectsOnlyResolve(effects, after.value)
  {
    hide LeadsToDraining;
    if rows != [] {
      RowsResolve(entities, index, effects, actor, installation, rows[..|rows|-1]);
    }
  }

  lemma ApplyResolves(s: State, r: Request)
    requires r.Apply? && ApplyChanges(s, r).Some?
    ensures EffectsOnlyResolve(s.effects, ApplyChanges(s, r).value.effects)
  {
    hide PatchEntities, AdmitClaims, AdmitPermits, AdmitEffects, IsIndex, OwnerPatchBlocked, AuthorityDrains,
      ActiveInstallation, VersionsMatch, EffectsOnlyResolve;
    RowsResolve(ApplyChanges(s, r).value.entities, r.index, s.effects, r.actor, r.installation, r.changes.effects);
  }

  /** No transaction opens a stored effect again, whoever requests it. */
  lemma EffectsNeverReopen(sequence: nat, s: State, r: Request)
    requires Perform(sequence, s, r).Some?
    ensures EffectsOnlyResolve(s.effects, Perform(sequence, s, r).value.0.effects)
  {
    hide InheritTasks, ApplyChanges, Blockers, MayOwn, ActiveInstallation, ActiveAdministrator, Cleared,
      Drained, Transferred, HandoffFrom;
    if r.Apply? {
      ApplyResolves(s, r);
    } else if r.ReconcileInherited? {
      InheritanceKeepsEffects(Inheritance(s, [], []), r.project, r.owner, r.tasks);
    }
  }

  /** The request is accepted and inherits the unclaimed task. */
  ghost predicate MovesUnclaimed(w: World, r: Request, k: string) {
    Perform(w.sequence, w.state, r).Some? && k in w.state.entities && InheritsUnclaimed(w.state, r, k)
  }

  ghost predicate NoneMovesUnclaimed(w: World, requests: seq<Request>, k: string) {
    forall i {:trigger requests[i]} :: 0 <= i < |requests| ==> !MovesUnclaimed(Run(w, requests[..i]), requests[i], k)
  }

  lemma NoneStep(w: World, requests: seq<Request>, k: string)
    requires requests != []
    ensures var last := |requests| - 1;
            NoneMovesUnclaimed(w, requests, k) <==>
              NoneMovesUnclaimed(w, requests[..last], k) && !MovesUnclaimed(Run(w, requests[..last]), requests[last], k)
  {
    hide Run, MovesUnclaimed;
    var last := |requests| - 1;
    var front := requests[..last];
    assert forall i :: 0 <= i < last ==> front[i] == requests[i] && front[..i] == requests[..i];
    if NoneMovesUnclaimed(w, front, k) && !MovesUnclaimed(Run(w, front), requests[last], k) {
      forall i | 0 <= i < |requests| ensures !MovesUnclaimed(Run(w, requests[..i]), requests[i], k) {
        if i < last {
          assert !MovesUnclaimed(Run(w, front[..i]), front[i], k);
        }
      }
    }
    if NoneMovesUnclaimed(w, requests, k) {
      forall i | 0 <= i < last ensures !MovesUnclaimed(Run(w, front[..i]), front[i], k) {
        assert !MovesUnclaimed(Run(w, requests[..i]), requests[i], k);
      }
    }
  }

  /** What a run does to an entity under an effect that is still open at its end. */
  ghost predicate Tracks(w: World, after: World, e: string, k: string, none: bool) {
    && k in w.state.entities && k in after.state.entities && e in w.state.effects && e in after.state.effects
    && after.state.effects[e].scope == w.state.effects[e].scope
    && Generation(after.state.entities[k]) >= Generation(w.state.entities[k])
    && (Unresolved(after.state.effects[e]) ==>
          && Unresolved(w.state.effects[e])
          && (none <==> SameStanding(w.state.entities[k], after.state.entities[k]))
          && (!none ==> Generation(after.state.entities[k]) > Generation(w.state.entities[k])))
  }

  lemma StepTracks(w: World, middle: World, r: Request, e: string, k: string, none: bool)
    requires Inv(middle.state) && Tracks(w, middle, e, k, none) && middle.state.effects[e].scope == Some(k)
    ensures Tracks(w, Step(middle, r), e, k, none && !MovesUnclaimed(middle, r, k))
  {
    hide Inv, Perform, InheritsUnclaimed, MayOwn;
    if Perform(middle.sequence, middle.state, r).Some? {
      PerformKeeps(middle.sequence, middle.state, r);
      EffectsNeverReopen(middle.sequence, middle.state, r);
      var after := Step(middle, r).state;
      assert AuthorityMoves(middle.state, after, k);
      assert EffectBlocks(middle.state, e, k) <==> Unresolved(middle.state.effects[e]);
      assert e in after.effects;
      if Unresolved(middle.state.effects[e]) {
        MovesOpenExactly(middle.sequence, middle.state, r, e, k);
      }
    }
  }

  /** Over any run of any clients, as long as an effect stays open, its entity keeps owner and generation
      if and only if no accepted request inherits the unclaimed task. */
  lemma {:induction false} OpenEffectPinsExactly(past: seq<Request>, requests: seq<Request>, e: string, k: string)
    requires k in Run(BIRTH, past).state.entities
    requires e in Run(BIRTH, past).state.effects && Run(BIRTH, past).state.effects[e].scope == Some(k)
    ensures Tracks(Run(BIRTH, past), Run(Run(BIRTH, past), requests), e, k,
                   NoneMovesUnclaimed(Run(BIRTH, past), requests, k))
    decreases |requests|
  {
    hide Inv, Step, MovesUnclaimed, Tracks;
    var w := Run(BIRTH, past);
    if requests == [] {
      AtBirth(w, e, k);
    } else {
      var last := |requests| - 1;
      OpenEffectPinsExactly(past, requests[..last], e, k);
      GitRuns.RunsKeepInvFrom(past, requests[..last]);
      NoneStep(w, requests, k);
      var middle := Run(w, requests[..last]);
      ScopeTracked(w, middle, e, k, NoneMovesUnclaimed(w, requests[..last], k));
      StepTracks(w, middle, requests[last], e, k, NoneMovesUnclaimed(w, requests[..last], k));
    }
  }

  lemma AtBirth(w: World, e: string, k: string)
    requires k in w.state.entities && e in w.state.effects
    ensures Tracks(w, w, e, k, true)
  {
  }

  lemma ScopeTracked(w: World, after: World, e: string, k: string, none: bool)
    requires Tracks(w, after, e, k, none)
    ensures e in w.state.effects && e in after.state.effects && after.state.effects[e].scope == w.state.effects[e].scope
  {
  }

  // ---- stopped, although something is open --------------------------------------------------

  predicate FlaggedAt(s: State, k: string) { k in s.handoffs && Flagged(s.handoffs[k]) }

  /** The request stages the entity for a lifecycle change. */
  predicate Stages(s: State, r: Request, k: string) {
    (r.BeginMemberChange? && k in Concerned(s, r)) || (r.BeginRevocation? && k in Running(s, r.target))
  }

  lemma {:induction false} InheritanceFlagsNothing(h: Inheritance, project: string, owner: string, tasks: seq<string>,
                                                   k: string)
    ensures var after := InheritTasks(h, project, owner, tasks);
            after.Some? ==> (FlaggedAt(after.value.state, k) ==> FlaggedAt(h.state, k))
  {
    hide InheritTask;
    if tasks != [] {
      InheritanceFlagsNothing(h, project, owner, tasks[..|tasks|-1], k);
      var before := InheritTasks(h, project, owner, tasks[..|tasks|-1]);
      if before.Some? {
        InheritTaskFlagsNothing(before.value, project, owner, tasks[|tasks|-1], k);
      }
    }
  }

  lemma InheritTaskFlagsNothing(h: Inheritance, project: string, owner: string, task: string, k: string)
    ensures var after := InheritTask(h, project, owner, task);
            after.Some? ==> (FlaggedAt(after.value.state, k) ==> FlaggedAt(h.state, k))
  {
    hide MayOwn, Stage, Transfer, Flagged;
    var s, j := h.state, TaskKey(task);
    if j == k {
      InheritedHandoffs(s, k, owner);
    } else {
      OtherTaskAgrees(h, project, owner, task, k);
    }
  }

  /** A claimed entity is staged unflagged, and an unclaimed one keeps no handoff. */
  lemma InheritedHandoffs(s: State, k: string, owner: string)
    ensures k in s.entities && ClaimInstallation(s, k) != "" ==> !FlaggedAt(Stage(s, {k}, owner), k)
    ensures k !in Transfer(Stage(s, {k}, owner), {k}, owner).handoffs
  {
    hide Drained, Transferred;
  }

  lemma StageFlags(s: State, keys: set<string>, k: string)
    requires keys <= s.entities.Keys && forall j :: j in keys ==> j !in s.handoffs
    ensures !FlaggedAt(s, k) ==> (FlaggedAt(Stage(s, keys, ""), k) <==> k in keys && ClaimInstallation(s, k) == "")
    ensures Blockers(Stage(s, keys, ""), k) == Blockers(s, k)
  {
    hide Blockers;
    SameTablesSettle(s, Stage(s, keys, ""));
  }

  lemma ChangesFlag(s: State, r: Request, k: string)
    requires r.BeginMemberChange? || r.BeginRevocation?
    requires !FlaggedAt(s, k)
    ensures r.BeginMemberChange? && BeginMemberChangeOf(s, r).Some? ==>
              (FlaggedAt(BeginMemberChangeOf(s, r).value.0, k) <==>
                 k in Concerned(s, r) && ClaimInstallation(s, k) == "")
    ensures r.BeginRevocation? && BeginRevocationOf(s, r).Some? ==>
              (FlaggedAt(BeginRevocationOf(s, r).value.0, k) <==>
                 k in Running(s, r.target) && ClaimInstallation(s, k) == "")
  {
    hide Stage, Blockers, ActiveAdministrator, ClaimInstallation, Flagged;
    if r.BeginMemberChange? && BeginMemberChangeOf(s, r).Some? {
      StageFlags(s, Concerned(s, r), k);
    } else if r.BeginRevocation? && BeginRevocationOf(s, r).Some? {
      StageFlags(s, Running(s, r.target), k);
    }
  }

  lemma ChangesKeepTables(s: State, r: Request)
    ensures r.BeginMemberChange? && BeginMemberChangeOf(s, r).Some? ==> SameTables(s, BeginMemberChangeOf(s, r).value.0)
    ensures r.BeginRevocation? && BeginRevocationOf(s, r).Some? ==> SameTables(s, BeginRevocationOf(s, r).value.0)
  {
    hide Blockers, ActiveAdministrator, Concerned, Running, Drained, HandoffFrom;
  }

  /** Everything else flags a handoff only when nothing blocks it. */
  lemma OthersFlagClear(sequence: nat, s: State, r: Request, k: string)
    requires !r.BeginMemberChange? && !r.BeginRevocation? && !r.Apply? && !r.ReconcileInherited? && !FlaggedAt(s, k)
    requires Perform(sequence, s, r).Some? && FlaggedAt(Perform(sequence, s, r).value.0, k)
    ensures Blockers(Perform(sequence, s, r).value.0, k) == {}
  {
    hide Blockers, MayOwn, ActiveInstallation, ActiveAdministrator, Transferred, Narrowed;
    var after := Perform(sequence, s, r).value.0;
    if r.RecordFence? {
      FencedIsClear(s, after, k);
    } else if SameTables(s, after) {
      SameTablesSettle(s, after);
    }
  }

  /** An accepted transaction leaves a handoff newly flagged as stopped or fenced although something blocks
      it if and only if it stages, for a lifecycle change, an entity with blockers and no claim or a claim
      from a blank installation. */
  lemma FlagsOpenExactly(sequence: nat, s: State, r: Request, k: string)
    requires Perform(sequence, s, r).Some? && !FlaggedAt(s, k)
    ensures var after := Perform(sequence, s, r).value.0;
            FlaggedAt(after, k) && Blockers(after, k) != {} <==>
              Stages(s, r, k) && ClaimInstallation(s, k) == "" && Blockers(s, k) != {}
  {
    hide Blockers, FlaggedAt, ClaimInstallation, ApplyChanges, InheritTasks, BootstrapOf, BeginHandoffOf,
      BeginMemberChangeOf, BeginRevocationOf, EnrollOf, CompleteChangeOf, AcknowledgeStopOf, RecordFenceOf,
      RetainLateOf, ReconcileEffectOf, CompleteHandoffOf, Concerned, Running;
    var after := Perform(sequence, s, r).value.0;
    if r.BeginMemberChange? || r.BeginRevocation? {
      ChangesFlag(s, r, k);
      ChangesKeepTables(s, r);
      SameTablesSettle(s, after);
    } else if r.Apply? {
      ApplyFlagsNothing(s, r, k);
    } else if r.ReconcileInherited? {
      InheritanceFlagsNothing(Inheritance(s, [], []), r.project, r.owner, r.tasks, k);
    } else if FlaggedAt(after, k) {
      OthersFlagClear(sequence, s, r, k);
    }
  }

  lemma ApplyFlagsNothing(s: State, r: Request, k: string)
    requires r.Apply? && ApplyChanges(s, r).Some?
    ensures FlaggedAt(ApplyChanges(s, r).value, k) <==> FlaggedAt(s, k)
  {
    hide PatchEntities, AdmitClaims, AdmitPermits, AdmitEffects, IsIndex, OwnerPatchBlocked, AuthorityDrains,
      ActiveInstallation, VersionsMatch;
  }

  // ---- both are reachable -------------------------------------------------------------------

  const ANN := Member(true, Administrative, true, {})

  const TASK := Entity(Some("task"), Some("t"), Some("garden"), Some("ann"), Some(1), None, None, Some(1))

  const BOOT := Bootstrap(map["ann" := ANN], map["" := "ann"], map[], map["task:t" := TASK])

  const CLAIM := Apply("ann", "", map[],
                       Changes([],
                               [Rows("task:t",
                                     Some(ClaimRow("c", Some("task"), Some("t"), Some("ann"), Some(1), None, None)))],
                                     [], []),
                       map["c" := "task:t"])

  const EFFECT := Apply("ann", "", map[],
                        Changes([], [], [],
                                [Rows("run",
                                      Some(EffectRow(Some("c"), Some("host"), Some("task:t"), Some("k"), Some(Pending),
                                                                        None, None)))]),
                        map["c" := "task:t"])

  /** Authority, a claim from a blank installation, an effect under it. */
  const BLANKING := [BOOT, CLAIM, EFFECT]

  const OWNED := EMPTY.(members := map["ann" := ANN], installations := map["" := "ann"],
                        entities := map["task:t" := TASK])

  const CLAIMED := OWNED.(claims := map["task:t" := Claim("c", Some("task"), Some("t"), Some("ann"), Some(1), "ann",
                                                          "")])

  /** A task claimed from an installation whose name is blank, with an open effect. */
  const BLANK := CLAIMED.(effects := map["run" := Effect("c", Some("host"), Some("task:t"), Some("k"), Some(Pending),
                                                         "ann", "")])

  lemma Boots()
    ensures Perform(0, EMPTY, BOOT).Some? && Perform(0, EMPTY, BOOT).value.0 == OWNED
  {
    assert EMPTY.revoked + map[] == EMPTY.revoked;
  }

  lemma Claims()
    ensures ApplyChanges(OWNED, CLAIM) == Some(CLAIMED)
  {
    var rows := CLAIM.changes.claims;
    assert rows[..0] == [];
    assert AdmitClaims(OWNED.entities, OWNED.claims, "ann", "", []) == Some(OWNED.claims);
    assert AdmitClaim(OWNED.entities, OWNED.claims, "ann", "", "task:t", rows[0].row) == Some(CLAIMED.claims);
  }

  lemma Starts()
    ensures ApplyChanges(CLAIMED, EFFECT) == Some(BLANK)
  {
    var rows := EFFECT.changes.effects;
    assert rows[..0] == [];
    assert AdmitEffects(CLAIMED.entities, EFFECT.index, CLAIMED.effects, "ann", "", []) == Some(CLAIMED.effects);
    assert AdmitEffect(CLAIMED.entities, EFFECT.index, CLAIMED.effects, "ann", "", "run", rows[0].row) ==
      Some(BLANK.effects);
  }

  lemma BlankIsReachable()
    ensures Run(BIRTH, BLANKING) == World(3, BLANK)
  {
    Boots();
    Claims();
    Starts();
    hide Run, BootstrapOf, ApplyChanges;
    var b := BLANKING;
    GitRuns.NothingYet();
    GitRuns.OneMore([], b[0], BIRTH, OWNED);
    GitRuns.OneMore([] + [b[0]], b[1], World(1, OWNED), CLAIMED);
    GitRuns.OneMore([] + [b[0]] + [b[1]], b[2], World(2, CLAIMED), BLANK);
    assert [] + [b[0]] + [b[1]] + [b[2]] == b;
  }

  const INHERIT := ReconcileInherited("ann", "", "garden", "p", "", ["t"])

  const DISABLE := BeginMemberChange("ann", "", "ann", Some(false), None)

  predicate OwnedBy(s: State, k: string, owner: string) { k in s.entities && s.entities[k].owner == Some(owner) }

  /** A lifecycle handoff takes a blank installation for no claim.  In a reachable state, inheriting the task
      moves its owner at once although an effect of it is open. */
  lemma BlankInstallationMoves()
    ensures Run(BIRTH, BLANKING).state == BLANK && EffectBlocks(BLANK, "run", "task:t")
    ensures var after := Perform(3, BLANK, INHERIT);
            after.Some? && OwnedBy(after.value.0, "task:t", "") && EffectBlocks(after.value.0, "run", "task:t")
  {
    BlankIsReachable();
    hide Run, EffectBlocks;
    assert TaskKey("t") == "task:t";
    var tasks := INHERIT.tasks;
    assert tasks[..0] == [] && tasks[0] == "t";
    StagedAndTransferred(BLANK, "task:t", "");
    InheritedTables(BLANK, "task:t", "");
    BlankEffectStays(Transfer(Stage(BLANK, {"task:t"}, ""), {"task:t"}, ""));
    hide Stage, Transfer;
    assert InheritTasks(Inheritance(BLANK, [], []), "garden", "", []) == Some(Inheritance(BLANK, [], []));
  }

  lemma InheritedTables(s: State, k: string, owner: string)
    ensures Transfer(Stage(s, {k}, owner), {k}, owner).effects == s.effects
  {
  }

  lemma BlankEffectStays(after: State)
    ensures EffectBlocks(BLANK, "run", "task:t")
    ensures after.effects == BLANK.effects ==> EffectBlocks(after, "run", "task:t")
  {
  }

  lemma DisableIsAccepted()
    ensures Perform(3, BLANK, DISABLE).Some? && "task:t" in Concerned(BLANK, DISABLE)
    ensures ClaimInstallation(BLANK, "task:t") == "" && !FlaggedAt(BLANK, "task:t")
  {
    hide Stage;
    assert BeginMemberChangeOf(BLANK, DISABLE).Some?;
  }

  /** And disabling the member leaves a handoff that counts as stopped under the same open effect. */
  lemma BlankInstallationStops()
    ensures Run(BIRTH, BLANKING).state == BLANK
    ensures var after := Perform(3, BLANK, DISABLE);
            && after.Some? && FlaggedAt(after.value.0, "task:t") && Blockers(after.value.0, "task:t") != {}
  {
    BlankIsReachable();
    BlankEffectStays(BLANK);
    GitRuns.BlockerCounts(BLANK, "run", "task:t");
    DisableIsAccepted();
    hide Run, Blockers, Stage, EffectBlocks, Perform, Concerned;
    FlagsOpenExactly(3, BLANK, DISABLE, "task:t");
  }
}
