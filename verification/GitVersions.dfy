/** Optimistic concurrency on entities: what a request that names a version finds, and when two requests
    that name the same one cannot both be accepted. */
module GitVersions {
  import opened Options
  import opened GitState
  import opened GitSafety
  import GitRuns

  function StoredVersion(s: State, k: string): int {
    if k in s.entities then Default(s.entities[k].version, 0) else 0
  }

  /** The request is made for version v of the entity. */
  predicate Expects(r: Request, k: string, v: int) {
    || (r.Apply? && k in r.expected && r.expected[k] == v)
    || (r.BeginHandoff? && r.entity == k && r.expectedVersion == v)
  }

  predicate Writes(r: Request, k: string) {
    || (r.Apply? && exists i :: 0 <= i < |r.changes.entities| && r.changes.entities[i].0 == k)
    || (r.BeginHandoff? && r.entity == k)
  }

  /** The request names the entity's version among the fields it writes. */
  predicate SetsVersion(r: Request, k: string) {
    || (r.Apply? && exists i ::
          0 <= i < |r.changes.entities| && r.changes.entities[i].0 == k && r.changes.entities[i].1.version.Some?)
    || (r.Bootstrap? && k in r.entities)
  }

  /** An accepted request finds exactly the versions it expects; an absent entity has version zero. */
  lemma AcceptedFindsExpected(sequence: nat, s: State, r: Request, k: string, v: int)
    requires Expects(r, k, v) && Perform(sequence, s, r).Some?
    ensures StoredVersion(s, k) == v
  {
    hide PatchEntities, AdmitClaims, AdmitPermits, AdmitEffects, IsIndex, OwnerPatchBlocked, AuthorityDrains,
      ActiveInstallation, Blockers, MayOwn, HandoffFrom;
  }

  // ---- what a list of patches makes of a version --------------------------------------------

  /** Each patch adds one, to the version it names if it names one. */
  function VersionAfter(v: int, rows: seq<(string, Entity)>, k: string): int {
    if rows == [] then v
    else
      var before := VersionAfter(v, rows[..|rows|-1], k);
      var (key, patch) := rows[|rows|-1];
      if key != k then before else Default(patch.version, before) + 1
  }

  /** How many patches are of the entity. */
  function Times(rows: seq<(string, Entity)>, k: string): nat {
    if rows == [] then 0 else Times(rows[..|rows|-1], k) + if rows[|rows|-1].0 == k then 1 else 0
  }

  lemma {:induction false} PatchesCount(s: State, rows: seq<(string, Entity)>, k: string)
    requires PatchEntities(s.entities, rows).Some?
    ensures var after := s.(entities := PatchEntities(s.entities, rows).value);
            StoredVersion(after, k) == VersionAfter(StoredVersion(s, k), rows, k)
    ensures k in PatchEntities(s.entities, rows).value <==> k in s.entities || Times(rows, k) > 0
  {
    hide ChangesAuthority;
    if rows != [] {
      PatchesCount(s, rows[..|rows|-1], k);
    }
  }

  lemma {:induction false} UnnamedVersionsCount(v: int, rows: seq<(string, Entity)>, k: string)
    requires forall i :: 0 <= i < |rows| && rows[i].0 == k ==> rows[i].1.version.None?
    ensures VersionAfter(v, rows, k) == v + Times(rows, k)
    ensures Times(rows, k) > 0 <==> exists i :: 0 <= i < |rows| && rows[i].0 == k
  {
    if rows != [] {
      var last := |rows| - 1;
      UnnamedVersionsCount(v, rows[..last], k);
      if i :| 0 <= i < |rows| && rows[i].0 == k {
        assert i < last ==> rows[..last][i].0 == k;
      }
    }
  }

  /** The stored version after an accepted apply, whatever else it carries. */
  lemma ApplyCounts(s: State, r: Request, k: string)
    requires r.Apply? && ApplyChanges(s, r).Some?
    ensures StoredVersion(ApplyChanges(s, r).value, k) == VersionAfter(StoredVersion(s, k), r.changes.entities, k)
    ensures k in ApplyChanges(s, r).value.entities <==> k in s.entities || Times(r.changes.entities, k) > 0
  {
    hide PatchEntities, AdmitClaims, AdmitPermits, AdmitEffects, IsIndex, OwnerPatchBlocked, AuthorityDrains,
      ActiveInstallation, VersionsMatch;
    PatchesCount(s, r.changes.entities, k);
  }

  // ---- no transaction lowers a version ------------------------------------------------------

  /** No entity disappears, and no version falls. */
  ghost predicate Rises(s: State, after: State) {
    forall k {:trigger StoredVersion(after, k)} :: k in s.entities ==>
      k in after.entities && StoredVersion(after, k) >= StoredVersion(s, k)
  }

  lemma StageRises(s: State, keys: set<string>, pending: string)
    ensures Rises(s, Stage(s, keys, pending))
  {
    hide HandoffFrom;
  }

  lemma TransferRises(s: State, keys: set<string>, owner: string)
    ensures Rises(s, Transfer(s, keys, owner))
  {
  }

  lemma InheritTaskRises(start: State, h: Inheritance, project: string, owner: string, task: string)
    requires Rises(start, h.state)
    ensures var after := InheritTask(h, project, owner, task); after.Some? ==> Rises(start, after.value.state)
  {
    hide MayOwn, Stage, Transfer, ClaimInstallation, Rises;
    var s, k := h.state, TaskKey(task);
    var staged := Stage(s, {k}, owner);
    StageRises(s, {k}, owner);
    RisesTransitive(start, s, staged);
    TransferRises(staged, {k}, owner);
    RisesTransitive(start, staged, Transfer(staged, {k}, owner));
    if k !in s.entities {
      CreatedRises(s, k, InheritedEntity(project, task, owner));
      RisesTransitive(start, s, s.(entities := s.entities[k := InheritedEntity(project, task, owner)]));
    }
  }

  lemma RisesTransitive(s: State, t: State, u: State)
    requires Rises(s, t) && Rises(t, u)
    ensures Rises(s, u)
  {
    hide StoredVersion;
    forall k | k in s.entities ensures StoredVersion(u, k) >= StoredVersion(s, k) && k in u.entities {
      assert StoredVersion(t, k) >= StoredVersion(s, k) && k in t.entities;
    }
  }

  lemma CreatedRises(s: State, k: string, e: Entity)
    requires k !in s.entities
    ensures Rises(s, s.(entities := s.entities[k := e]))
  {
  }

  lemma {:induction false} InheritTasksRise(s: State, project: string, owner: string, tasks: seq<string>)
    ensures var h := InheritTasks(Inheritance(s, [], []), project, owner, tasks); h.Some? ==> Rises(s, h.value.state)
  {
    hide InheritTask, Rises;
    if tasks == [] {
      assert Rises(s, s) by { SameRises(s); }
    } else {
      var last := |tasks| - 1;
      InheritTasksRise(s, project, owner, tasks[..last]);
      var before := InheritTasks(Inheritance(s, [], []), project, owner, tasks[..last]);
      if before.Some? {
        InheritTaskRises(s, before.value, project, owner, tasks[last]);
      }
    }
  }

  lemma SameRises(s: State)
    ensures Rises(s, s)
  {
  }

  /** Every other transaction. */
  lemma OthersRise(sequence: nat, s: State, r: Request)
    requires !r.Apply? && !r.ReconcileInherited? && !r.Bootstrap? && Perform(sequence, s, r).Some?
    ensures Rises(s, Perform(sequence, s, r).value.0)
  {
    hide Blockers, MayOwn, ActiveInstallation, ActiveAdministrator, Cleared, HandoffFrom, FencePermits, Narrowed,
      Concerned, Running;
  }

  lemma HandoffRaises(s: State, r: Request)
    requires r.BeginHandoff? && BeginHandoffOf(s, r).Some?
    ensures var after := BeginHandoffOf(s, r).value.0;
            r.entity in after.entities && StoredVersion(after, r.entity) == StoredVersion(s, r.entity) + 1
  {
    hide Blockers, MayOwn, ActiveInstallation, HandoffFrom;
  }

  /** A transaction that does not name the version never lowers it, and raises it if it writes the entity. */
  lemma PerformRaises(sequence: nat, s: State, r: Request, k: string)
    requires !SetsVersion(r, k) && Perform(sequence, s, r).Some?
    requires k in s.entities || Writes(r, k)
    ensures var after := Perform(sequence, s, r).value.0;
            && k in after.entities && StoredVersion(after, k) >= StoredVersion(s, k)
            && (Writes(r, k) ==> StoredVersion(after, k) > StoredVersion(s, k))
  {
    hide ApplyChanges, InheritTasks, BeginHandoffOf, BeginMemberChangeOf, BeginRevocationOf, EnrollOf,
      CompleteChangeOf, AcknowledgeStopOf, RecordFenceOf, RetainLateOf, ReconcileEffectOf, CompleteHandoffOf;
    if r.Apply? {
      ApplyCounts(s, r, k);
      UnnamedVersionsCount(StoredVersion(s, k), r.changes.entities, k);
    } else if r.ReconcileInherited? {
      InheritTasksRise(s, r.project, r.owner, r.tasks);
    } else if !r.Bootstrap? {
      OthersRise(sequence, s, r);
      if r.BeginHandoff? {
        HandoffRaises(s, r);
      }
    }
  }

  // ---- over whole runs ----------------------------------------------------------------------

  /** No accepted request of the run names the entity's version. */
  ghost predicate NoneSets(w: World, requests: seq<Request>, k: string) {
    forall i {:trigger requests[i]} :: 0 <= i < |requests| ==>
      !SetsVersion(requests[i], k)
        || Perform(Run(w, requests[..i]).sequence, Run(w, requests[..i]).state, requests[i]).None?
  }

  lemma NoneSetsShorter(w: World, requests: seq<Request>, k: string)
    requires NoneSets(w, requests, k) && requests != []
    ensures NoneSets(w, requests[..|requests|-1], k)
    ensures var last, middle := |requests| - 1, Run(w, requests[..|requests|-1]);
            !SetsVersion(requests[last], k) || Perform(middle.sequence, middle.state, requests[last]).None?
  {
    hide Run, Perform, SetsVersion;
    var last := |requests| - 1;
    var front := requests[..last];
    forall i | 0 <= i < last
      ensures !SetsVersion(front[i], k)
              || Perform(Run(w, front[..i]).sequence, Run(w, front[..i]).state, front[i]).None? {
      assert front[..i] == requests[..i] && front[i] == requests[i];
    }
  }

  lemma {:induction false} RunRaises(w: World, requests: seq<Request>, k: string)
    requires k in w.state.entities && NoneSets(w, requests, k)
    ensures k in Run(w, requests).state.entities
    ensures StoredVersion(Run(w, requests).state, k) >= StoredVersion(w.state, k)
  {
    hide Perform, NoneSets, StoredVersion, SetsVersion;
    if requests != [] {
      NoneSetsShorter(w, requests, k);
      var last := |requests| - 1;
      RunRaises(w, requests[..last], k);
      var middle := Run(w, requests[..last]);
      if Perform(middle.sequence, middle.state, requests[last]).Some? {
        PerformRaises(middle.sequence, middle.state, requests[last], k);
      }
    }
  }

  /** Two requests made for the same version of an entity, of which the first writes the entity, are never both
      accepted on one run, whatever else they carry and whatever comes in between, unless an accepted request
      names the entity's version itself. */
  lemma NoLostUpdate(w: World, first: Request, between: seq<Request>, second: Request, k: string, v: int)
    requires Perform(w.sequence, w.state, first).Some?
    requires Expects(first, k, v) && Writes(first, k) && Expects(second, k, v)
    requires !SetsVersion(first, k) && NoneSets(Step(w, first), between, k)
    ensures var later := Run(Step(w, first), between); Perform(later.sequence, later.state, second).None?
  {
    hide Perform, NoneSets, StoredVersion, SetsVersion, Expects, Writes, Run;
    AcceptedFindsExpected(w.sequence, w.state, first, k, v);
    PerformRaises(w.sequence, w.state, first, k);
    RunRaises(Step(w, first), between, k);
    var later := Run(Step(w, first), between);
    if Perform(later.sequence, later.state, second).Some? {
      AcceptedFindsExpected(later.sequence, later.state, second, k, v);
    }
  }

  // ---- naming the version -------------------------------------------------------------------

  /** After an accepted apply for version v with one patch of the entity, the entity has version v again, so
      that a second request for v is not found stale, if and only if the patch names the version before v. */
  lemma StaleGoesUnnoticedExactly(s: State, r: Request, i: nat, v: int)
    requires r.Apply? && ApplyChanges(s, r).Some? && i < |r.changes.entities|
    requires Expects(r, r.changes.entities[i].0, v)
    requires forall j :: 0 <= j < |r.changes.entities| && r.changes.entities[j].0 == r.changes.entities[i].0 ==> j == i
    ensures StoredVersion(ApplyChanges(s, r).value, r.changes.entities[i].0) == v <==>
              r.changes.entities[i].1.version == Some(v - 1)
  {
    hide ApplyChanges, StoredVersion;
    var k := r.changes.entities[i].0;
    assert StoredVersion(s, k) == v by {
      assert Perform(0, s, r).Some?;
      AcceptedFindsExpected(0, s, r, k, v);
    }
    ApplyCounts(s, r, k);
    OnePatchCounts(v, r.changes.entities, i, |r.changes.entities|);
    assert r.changes.entities[..|r.changes.entities|] == r.changes.entities;
  }

  lemma {:induction false} OnePatchCounts(v: int, rows: seq<(string, Entity)>, i: nat, n: nat)
    requires i < |rows| && n <= |rows|
    requires forall j :: 0 <= j < |rows| && rows[j].0 == rows[i].0 ==> j == i
    ensures VersionAfter(v, rows[..n], rows[i].0) == if n <= i then v else Default(rows[i].1.version, v) + 1
  {
    if n > 0 {
      OnePatchCounts(v, rows, i, n - 1);
      assert rows[..n][..n-1] == rows[..n-1];
    }
  }

  /** Writes the project of the task for version 1, and names the version before. */
  function Rename(project: string): Request {
    Apply("ann", "laptop", map["task:t" := 1],
          Changes([("task:t", NEW_ENTITY.(project := Some(project)))], [], [], []), map[])
  }

  function Renamed(project: string): State {
    GitRuns.OWNED.(entities := map["task:t" := GitRuns.OPEN_TASK.(project := Some(project))])
  }

  lemma RenameApplies(before: string, project: string)
    ensures ApplyChanges(Renamed(before), Rename(project)) == Some(Renamed(project))
  {
    var rows, s := Rename(project).changes.entities, Renamed(before);
    assert rows[..0] == [] && rows[0] == ("task:t", NEW_ENTITY.(project := Some(project)));
    assert PatchEntities(s.entities, []) == Some(s.entities);
    var e := GitRuns.OPEN_TASK.(project := Some(project));
    assert s.entities["task:t" := e] == Renamed(project).entities;
    assert PatchEntity(s.entities, "task:t", rows[0].1) == Some(Renamed(project).entities);
    assert ActiveInstallation(s, "ann", "laptop");
    assert IsIndex(s.claims, map[]);
  }

  /** Two requests for version 1 of one task are both accepted, one after the other, and the second overwrites
      what the first wrote. */
  lemma UpdateIsLost()
    ensures Run(BIRTH, [GitRuns.BOOT, Rename("a"), Rename("b")]) == World(3, Renamed("b"))
    ensures Run(BIRTH, [GitRuns.BOOT, Rename("a")]) == World(2, Renamed("a"))
    ensures Expects(Rename("a"), "task:t", 1) && Expects(Rename("b"), "task:t", 1)
  {
    GitRuns.Boots();
    RenameApplies("garden", "a");
    RenameApplies("a", "b");
    assert GitRuns.OWNED == Renamed("garden");
    hide Run, BootstrapOf, ApplyChanges;
    GitRuns.NothingYet();
    GitRuns.OneMore([], GitRuns.BOOT, BIRTH, GitRuns.OWNED);
    GitRuns.OneMore([] + [GitRuns.BOOT], Rename("a"), World(1, GitRuns.OWNED), Renamed("a"));
    GitRuns.OneMore([] + [GitRuns.BOOT] + [Rename("a")], Rename("b"), World(2, Renamed("a")), Renamed("b"));
    assert [] + [GitRuns.BOOT] + [Rename("a")] == [GitRuns.BOOT, Rename("a")];
    assert [GitRuns.BOOT, Rename("a")] + [Rename("b")] == [GitRuns.BOOT, Rename("a"), Rename("b")];
  }
}
