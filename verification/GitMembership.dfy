/** Members and installations: what each accepted transaction makes of them, and what a change that was begun
    and completed over a run has done in the end. */
module GitMembership {
  import opened Options
  import opened GitState
  import opened GitSafety
  import opened GitAuthority
  import GitBlank

  // ---- pending changes ----------------------------------------------------------------------

  /** The request announces the change. */
  predicate Announces(r: Request, key: ChangeKey) {
    || (r.BeginMemberChange? && key == MemberKey(r.member))
    || (r.BeginRevocation? && key == InstallationKey(r.target))
  }

  /** What is announced: the new membership, or a revocation, with everything owned or claimed that it concerns. */
  predicate Announced(s: State, r: Request, change: Change) {
    match r
    case BeginMemberChange(_, _, member, active, projects) =>
      change == Change(member, active, projects, Concerned(s, r))
    case BeginRevocation(_, _, target) =>
      target in s.installations && change == Change(s.installations[target], None, None, Running(s, target))
    case _ => true
  }

  predicate Concludes(r: Request, key: ChangeKey) { r.CompleteChange? && r.key == key }

  /** Changes are announced once, stand as announced, and disappear by being completed. */
  lemma ChangesStepExactly(sequence: nat, s: State, r: Request, key: ChangeKey)
    requires Perform(sequence, s, r).Some?
    ensures var after := Perform(sequence, s, r).value.0;
            if key in s.changes then
              && (key in after.changes <==> !Concludes(r, key))
              && (!Concludes(r, key) ==> after.changes[key] == s.changes[key])
            else
              && (key in after.changes <==> Announces(r, key))
              && (Announces(r, key) ==> Announced(s, r, after.changes[key]))
  {
    hide ApplyChanges, InheritTasks, Blockers, MayOwn, ActiveInstallation, ActiveAdministrator, Cleared,
      HandoffFrom, FencePermits, Narrowed, Stage, Transfer, EffectBlocks, Concerned, Running;
    if r.Apply? {
      ApplyKeepsChanges(s, r);
    } else if r.ReconcileInherited? {
      InheritanceKeepsChanges(s, r.project, r.owner, r.tasks);
    } else if r.CompleteHandoff? {
      TransferFrame(s, {r.entity}, s.handoffs[r.entity].pending);
    } else if r.CompleteChange? {
      TransferFrame(s, s.changes[r.key].entities, "");
    }
  }

  lemma ApplyKeepsChanges(s: State, r: Request)
    requires r.Apply? && ApplyChanges(s, r).Some?
    ensures var after := ApplyChanges(s, r).value;
            && after.changes == s.changes && after.members == s.members && after.installations == s.installations
            && after.revoked == s.revoked && after.handoffs == s.handoffs && after.recovery == s.recovery
  {
    hide PatchEntities, AdmitClaims, AdmitPermits, AdmitEffects, IsIndex, OwnerPatchBlocked, AuthorityDrains,
      ActiveInstallation, VersionsMatch;
  }

  lemma {:induction false} InheritanceKeepsChanges(s: State, project: string, owner: string, tasks: seq<string>)
    ensures var h := InheritTasks(Inheritance(s, [], []), project, owner, tasks);
            h.Some? ==> && h.value.state.changes == s.changes && h.value.state.members == s.members
                        && h.value.state.installations == s.installations && h.value.state.revoked == s.revoked
                        && h.value.state.permits == s.permits && h.value.state.effects == s.effects
  {
    hide MayOwn, Stage, Transfer, ClaimInstallation;
    if tasks != [] {
      var last := |tasks| - 1;
      InheritanceKeepsChanges(s, project, owner, tasks[..last]);
      var before := InheritTasks(Inheritance(s, [], []), project, owner, tasks[..last]);
      if before.Some? {
        var k := TaskKey(tasks[last]);
        StageFrame(before.value.state, {k}, owner);
        TransferFrame(Stage(before.value.state, {k}, owner), {k}, owner);
      }
    }
  }

  // ---- members and installations ------------------------------------------------------------

  /** The member with the announced switch and projects. */
  predicate Changed(before: Member, change: Change, after: Member) {
    && after.role == before.role
    && after.active == (if change.active.Some? then change.active.value else before.active)
    && after.projects == (if change.projects.Some? then change.projects.value else before.projects)
    && after.everyProject == (change.projects.None? && before.everyProject)
  }

  /** Only the bootstrap and a completed change alter a member, and the change as announced. */
  lemma MembersStepExactly(sequence: nat, s: State, r: Request, m: string)
    requires Inv(s) && Perform(sequence, s, r).Some? && !r.Bootstrap?
    ensures var after := Perform(sequence, s, r).value.0;
            && (m in after.members <==> m in s.members)
            && (m in s.members ==>
                  if Concludes(r, MemberKey(m)) then
                    MemberKey(m) in s.changes && Changed(s.members[m], s.changes[MemberKey(m)], after.members[m])
                  else after.members[m] == s.members[m])
  {
    hide ApplyChanges, InheritTasks, Blockers, MayOwn, ActiveInstallation, ActiveAdministrator, Cleared,
      HandoffFrom, FencePermits, Stage, Transfer, EffectBlocks, Concerned, Running, ClaimsHold, HandoffsHold;
    if r.Apply? {
      ApplyKeepsChanges(s, r);
    } else if r.ReconcileInherited? {
      InheritanceKeepsChanges(s, r.project, r.owner, r.tasks);
    } else if r.BeginMemberChange? {
      StageFrame(s, Concerned(s, r), "");
    } else if r.BeginRevocation? {
      StageFrame(s, Running(s, r.target), "");
    } else if r.CompleteHandoff? {
      TransferFrame(s, {r.entity}, s.handoffs[r.entity].pending);
    } else if r.CompleteChange? {
      TransferFrame(s, s.changes[r.key].entities, "");
      ChangeOf(s, r.key);
    }
  }

  /** Only the bootstrap, an enrolment and a completed revocation alter whom an installation belongs to. */
  lemma InstallationsStepExactly(sequence: nat, s: State, r: Request, i: string)
    requires Perform(sequence, s, r).Some? && !r.Bootstrap?
    ensures var after := Perform(sequence, s, r).value.0;
            if r.Enroll? && r.target == i then
              i in after.installations && after.installations[i] == r.member && i !in after.revoked
            else if Concludes(r, InstallationKey(i)) then
              i !in after.installations
              && (i in s.installations ==> i in after.revoked && after.revoked[i] == s.installations[i])
            else
              && (i in after.installations <==> i in s.installations)
              && (i in s.installations ==> after.installations[i] == s.installations[i])
              && (i in after.revoked <==> i in s.revoked)
              && (i in s.revoked ==> after.revoked[i] == s.revoked[i])
  {
    hide ApplyChanges, InheritTasks, Blockers, MayOwn, ActiveInstallation, ActiveAdministrator, Cleared,
      HandoffFrom, FencePermits, Stage, Transfer, EffectBlocks, Concerned, Running, Narrowed;
    if r.Apply? {
      ApplyKeepsChanges(s, r);
    } else if r.ReconcileInherited? {
      InheritanceKeepsChanges(s, r.project, r.owner, r.tasks);
    } else if r.BeginMemberChange? {
      StageFrame(s, Concerned(s, r), "");
    } else if r.BeginRevocation? {
      StageFrame(s, Running(s, r.target), "");
    } else if r.CompleteHandoff? {
      TransferFrame(s, {r.entity}, s.handoffs[r.entity].pending);
    } else if r.CompleteChange? {
      TransferFrame(s, s.changes[r.key].entities, "");
    }
  }

  // ---- over whole runs ----------------------------------------------------------------------

  /** The change is pending at every point of the run. */
  ghost predicate Awaits(w: World, requests: seq<Request>, key: ChangeKey) {
    forall i {:trigger requests[..i]} :: 0 <= i <= |requests| ==> key in Run(w, requests[..i]).state.changes
  }

  lemma AwaitsShorter(w: World, requests: seq<Request>, key: ChangeKey)
    requires Awaits(w, requests, key) && requests != []
    ensures Awaits(w, requests[..|requests|-1], key) && key in Run(w, requests).state.changes
  {
    hide Run;
    var front := requests[..|requests|-1];
    forall i | 0 <= i <= |front| ensures key in Run(w, front[..i]).state.changes {
      assert front[..i] == requests[..i];
    }
    assert requests[..|requests|] == requests;
  }

  lemma AtOnce(w: World, requests: seq<Request>, key: ChangeKey)
    requires Awaits(w, requests, key) && requests == []
    ensures key in w.state.changes
  {
    assert requests[..0] == [];
  }

  /** While a change of a member is pending, the change and the member stand. */
  lemma {:induction false} ChangeStands(w: World, requests: seq<Request>, m: string)
    requires Inv(w.state) && Awaits(w, requests, MemberKey(m)) && m in w.state.members
    ensures var after := Run(w, requests).state;
            && Inv(after) && MemberKey(m) in w.state.changes && MemberKey(m) in after.changes
            && after.changes[MemberKey(m)] == w.state.changes[MemberKey(m)]
            && m in after.members && after.members[m] == w.state.members[m]
  {
    hide Inv, Perform, Awaits;
    if requests == [] {
      AtOnce(w, requests, MemberKey(m));
    } else {
      var last := |requests| - 1;
      AwaitsShorter(w, requests, MemberKey(m));
      ChangeStands(w, requests[..last], m);
      var middle := Run(w, requests[..last]);
      PerformKeeps(middle.sequence, middle.state, requests[last]);
      if Perform(middle.sequence, middle.state, requests[last]).Some? {
        ChangesStepExactly(middle.sequence, middle.state, requests[last], MemberKey(m));
        BootstrapIsFirst(middle.sequence, middle.state, requests[last], m);
        MembersStepExactly(middle.sequence, middle.state, requests[last], m);
      }
    }
  }

  lemma BootstrapIsFirst(sequence: nat, s: State, r: Request, m: string)
    requires m in s.members && Perform(sequence, s, r).Some?
    ensures !r.Bootstrap?
  {
  }

  /** Over any run of any clients, completing a membership change leaves the member as the request that began it
      asked, everything else about the member as it was then, and gives everything the member owned that the change
      concerned to nobody. */
  lemma ChangeTakesEffect(past: seq<Request>, begin: Request, between: seq<Request>, complete: Request)
    requires begin.BeginMemberChange? && MemberKey(begin.member) !in Run(BIRTH, past).state.changes
    requires Awaits(Step(Run(BIRTH, past), begin), between, MemberKey(begin.member))
    requires var w := Run(Step(Run(BIRTH, past), begin), between);
             Concludes(complete, MemberKey(begin.member)) && Perform(w.sequence, w.state, complete).Some?
    ensures var w := Run(BIRTH, past);
            var after := Step(Run(Step(w, begin), between), complete).state;
            var change := Change(begin.member, begin.active, begin.projects, Concerned(w.state, begin));
            && begin.member in w.state.members && begin.member in after.members
            && Changed(w.state.members[begin.member], change, after.members[begin.member])
            && forall k :: k in Concerned(w.state, begin) ==> k in after.entities && after.entities[k].owner == Some("")
  {
    hide Inv, Perform, Awaits, Run, Concerned, Changed;
    var w, m := Run(BIRTH, past), begin.member;
    var key := MemberKey(m);
    RunsKeepInv(past);
    PerformKeeps(w.sequence, w.state, begin);
    var announced := Step(w, begin);
    AwaitedAtFirst(announced, between, key);
    ChangesStepExactly(w.sequence, w.state, begin, key);
    BeginsForMember(w, begin);
    ChangeStands(announced, between, m);
    var last := Run(announced, between);
    BootstrapIsFirst(last.sequence, last.state, complete, m);
    MembersStepExactly(last.sequence, last.state, complete, m);
    forall k | k in Concerned(w.state, begin) ensures var after := Step(last, complete).state;
                                                      k in after.entities && after.entities[k].owner == Some("") {
      ListedIsStored(last.sequence, last.state, complete, k);
      OwnerMovesExactly(last.sequence, last.state, complete, k);
    }
  }

  lemma AwaitedAtFirst(w: World, requests: seq<Request>, key: ChangeKey)
    requires Awaits(w, requests, key)
    ensures key in w.state.changes
  {
    assert requests[..0] == [];
  }

  lemma BeginsForMember(w: World, begin: Request)
    requires begin.BeginMemberChange? && Perform(w.sequence, w.state, begin).Some?
    ensures begin.member in w.state.members && Step(w, begin).state.members == w.state.members
  {
    hide Stage, ActiveAdministrator, Concerned;
    StageFrame(w.state, Concerned(w.state, begin), "");
  }

  lemma ListedIsStored(sequence: nat, s: State, complete: Request, k: string)
    requires complete.CompleteChange? && Perform(sequence, s, complete).Some?
    ensures complete.key in s.changes && (k in s.changes[complete.key].entities ==> k in s.entities)
  {
    hide Cleared, Transfer, Narrowed, ActiveAdministrator;
  }
}
