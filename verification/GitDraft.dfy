/** A copy of the shared state that one transaction changes in place.

    Each method is one transaction's code.  If it accepts, the draft holds exactly the state that the
    transaction's meaning in GitState gives; if it raises, that meaning is a refusal and the draft is
    dropped. */
module GitDraft {
  import opened Options
  import opened GitState

  ghost predicate Does(meaning: Option<(State, Result)>, after: State, r: Option<Result>) {
    if r.Some? then meaning == Some((after, r.value)) else meaning.None?
  }

  // ---- one entity more ----------------------------------------------------------------------

  lemma StageNone(s: State, pending: string)
    ensures Stage(s, {}, pending) == s
  {
    assert Stage(s, {}, pending).entities == s.entities;
    assert Stage(s, {}, pending).handoffs == s.handoffs;
  }

  lemma StageOneMore(s: State, done: set<string>, k: string, pending: string)
    requires k in s.entities && k !in done
    ensures var before := Stage(s, done, pending);
            && before.entities[k] == s.entities[k]
            && Stage(s, done + {k}, pending) ==
                 before.(entities := before.entities[k := Drained(s.entities[k], pending)],
                         handoffs := before.handoffs[k := HandoffFrom(s, k, pending)])
  {
    hide Drained, HandoffFrom;
    var before, after := Stage(s, done, pending), Stage(s, done + {k}, pending);
    assert after.entities == before.entities[k := Drained(s.entities[k], pending)];
    assert after.handoffs == before.handoffs[k := HandoffFrom(s, k, pending)];
  }

  lemma TransferNone(s: State, owner: string)
    ensures Transfer(s, {}, owner) == s
  {
    assert Transfer(s, {}, owner).entities == s.entities;
  }

  lemma TransferOneMore(s: State, done: set<string>, k: string, owner: string)
    requires k in s.entities && k in s.handoffs && k !in done
    ensures var before := Transfer(s, done, owner);
            && k in before.entities && before.entities[k] == s.entities[k] && k in before.handoffs
               && before.handoffs[k] == s.handoffs[k]
            && Transfer(s, done + {k}, owner) ==
                 before.(entities := before.entities[k := Transferred(s.entities[k], owner,
                                                                      s.handoffs[k].fromGeneration + 1)],
                         claims := before.claims - {k}, handoffs := before.handoffs - {k},
                         recovery := before.recovery + {HandoffRecord(k, s.handoffs[k])})
  {
    hide Transferred;
    var before, after := Transfer(s, done, owner), Transfer(s, done + {k}, owner);
    assert after.entities == before.entities[k := Transferred(s.entities[k], owner, s.handoffs[k].fromGeneration + 1)];
    assert after.claims == before.claims - {k};
    assert after.handoffs == before.handoffs - {k};
    assert after.recovery == before.recovery + {HandoffRecord(k, s.handoffs[k])};
  }

  // ---- resolving claims that share an operation id ------------------------------------------

  /** The request is refused before any of its rows is read. */
  predicate Barred(s: State, r: Request)
    requires r.Apply?
  {
    || AuthorityDrains(s.changes, r.actor, r.installation) || !ActiveInstallation(s, r.actor, r.installation)
    || !VersionsMatch(s.entities, r.expected)
  }

  lemma {:induction false} SomeIndex(claims: map<string, Claim>) returns (index: map<string, string>)
    ensures IsIndex(claims, index)
    decreases |claims|
  {
    if claims == map[] {
      index := map[];
    } else {
      var k :| k in claims;
      var rest := SomeIndex(claims - {k});
      index := rest[claims[k].operation := k];
      forall j | j in claims ensures claims[j].operation in index {
        assert j != k ==> j in claims - {k};
      }
    }
  }

  lemma SomeResolution(s: State, r: Request) returns (index: map<string, string>)
    ensures ResolvedBy(s, r, index)
  {
    hide PatchEntities, AdmitClaims, IsIndex;
    index := map[];
    if r.Apply? && PatchEntities(s.entities, r.changes.entities).Some? {
      var entities := PatchEntities(s.entities, r.changes.entities).value;
      var claims := AdmitClaims(entities, s.claims, r.actor, r.installation, r.changes.claims);
      if claims.Some? {
        index := SomeIndex(claims.value);
      }
    }
  }

  lemma RefusedIsRefusable(sequence: nat, s: State, r: Request, index: map<string, string>)
    requires r.Apply? && ApplyChanges(s, r.(index := index)).None?
    requires ResolvedBy(s, r, index) || Barred(s, r)
    ensures Refusable(sequence, s, r)
  {
    hide ResolvedBy;
    if !ResolvedBy(s, r, index) {
      var other := SomeResolution(s, r);
      assert Perform(sequence, s, WithIndex(r, other)).None?;
    } else {
      assert Perform(sequence, s, WithIndex(r, index)).None?;
    }
  }

  lemma OthersNeedNoIndex(sequence: nat, s: State, r: Request)
    requires !r.Apply?
    ensures Perform(sequence, s, r).Some? ==> Acceptable(sequence, s, r)
    ensures Perform(sequence, s, r).None? ==> Refusable(sequence, s, r)
  {
    hide Perform;
    assert WithIndex(r, map[]) == r && ResolvedBy(s, r, map[]);
  }

  class Draft {
    var members: map<string, Member>
    var installations: map<string, string>
    var revoked: map<string, string>
    var entities: map<string, Entity>
    var claims: map<string, Claim>
    var permits: map<string, Permit>
    var effects: map<string, Effect>
    var handoffs: map<string, Handoff>
    var changes: map<ChangeKey, Change>
    var recovery: set<Record>

    constructor (s: State)
      ensures State() == s
    {
      members, installations, revoked, entities, claims := s.members, s.installations, s.revoked, s.entities, s.claims;
      permits, effects, handoffs, changes, recovery := s.permits, s.effects, s.handoffs, s.changes, s.recovery;
    }

    function State(): State
      reads this
    {
      GitState.State(members, installations, revoked, entities, claims, permits, effects, handoffs, changes, recovery)
    }

    method Bootstrap(sequence: nat, r: Request) returns (result: Option<Result>)
      requires r.Bootstrap?
      modifies this
      ensures Does(BootstrapOf(sequence, old(State()), r), State(), result)
    {
      if sequence != 0 || members != map[] || installations != map[] || entities != map[]
        || claims != map[] || permits != map[] || effects != map[] {
        return None;
      }
      members, installations, revoked, entities := r.members, r.installations, revoked + r.revoked, r.entities;
      return Some(Bootstrapped(r.entities.Keys));
    }

    // ---- apply ------------------------------------------------------------------------------

    method PatchOne(k: string, patch: Entity) returns (ok: bool)
      modifies `entities
      ensures PatchEntity(old(entities), k, patch) == if ok then Some(entities) else None
    {
      var current := NEW_ENTITY;
      if k in entities {
        current := entities[k];
        if ChangesAuthority(current, patch) {
          return false;
        }
      }
      var e := Patched(current, patch);
      if e.version.None? {
        return false;
      }
      entities := entities[k := e.(version := Some(e.version.value + 1))];
      return true;
    }

    method ClaimOne(actor: string, installation: string, k: string, row: Option<ClaimRow>) returns (ok: bool)
      modifies `claims
      ensures AdmitClaim(entities, old(claims), actor, installation, k, row) == if ok then Some(claims) else None
    {
      if row.None? {
        return k !in claims;
      }
      var r := row.value;
      var claim := Claim(r.operation, r.kind, r.scope, r.owner, r.generation, Default(r.actor, actor),
                         Default(r.installation, installation));
      if claim.actor != actor || claim.installation != installation || claim.operation == "" {
        return false;
      }
      if k in claims && claims[k] != claim {
        return false;
      }
      if k !in entities {
        return false;
      }
      var e := entities[k];
      if claim.kind != e.kind || claim.scope != e.scope || claim.owner != e.owner || claim.owner != Some(actor)
        || Default(claim.generation, -1) != Default(e.generation, -1) || IsDraining(e) {
        return false;
      }
      claims := claims[k := claim];
      return true;
    }

    /** Which claim each operation id leads to; of two claims with one id, the one met last. */
    method Index() returns (index: map<string, string>)
      ensures IsIndex(claims, index)
    {
      index := map[];
      var todo := claims.Keys;
      while todo != {}
        invariant todo <= claims.Keys
        invariant forall k :: k in claims && k !in todo ==> claims[k].operation in index
        invariant forall op :: op in index ==> index[op] in claims && claims[index[op]].operation == op
      {
        var k :| k in todo;
        index := index[claims[k].operation := k];
        todo := todo - {k};
      }
    }

    method PermitOne(index: map<string, string>, actor: string, installation: string, k: string, row: Option<PermitRow>)
      returns (ok: bool)
      modifies `permits
      ensures AdmitPermit(entities, index, old(permits), actor, installation, k, row) ==
                if ok then Some(permits) else None
    {
      if row.None? {
        return k !in permits;
      }
      var r := row.value;
      if r.claim.None? || r.claim.value !in index {
        return false;
      }
      var permit := Permit(r.claim.value, r.status, Default(r.actor, actor), Default(r.installation, installation));
      if k in permits {
        var current := permits[k];
        var status := Default(current.status, Open);
        if permit.claim != current.claim || Default(r.status, status) != status
          || current.actor != actor || current.installation != installation {
          return false;
        }
      } else if LeadsToDraining(entities, index, permit.claim) || Default(r.status, Open) != Open {
        return false;
      }
      permits := permits[k := permit];
      return true;
    }

    method EffectOne(index: map<string, string>, actor: string, installation: string, k: string, row: Option<EffectRow>)
      returns (ok: bool)
      modifies `effects
      ensures AdmitEffect(entities, index, old(effects), actor, installation, k, row) ==
                if ok then Some(effects) else None
    {
      if row.None? {
        return k !in effects;
      }
      var r := row.value;
      if r.claim.None? || r.claim.value !in index {
        return false;
      }
      var effect := Effect(r.claim.value, r.provider, r.scope, r.key, r.outcome, Default(r.actor, actor),
                           Default(r.installation, installation));
      if k !in effects {
        if LeadsToDraining(entities, index, effect.claim) || Default(effect.outcome, Pending) == Withdrawn {
          return false;
        }
      } else {
        var current := effects[k];
        if !Unresolved(current) && Default(r.outcome, Pending) != Default(current.outcome, Pending) {
          return false;
        }
        if r.provider.None? { effect := effect.(provider := current.provider); }
        if r.scope.None? { effect := effect.(scope := current.scope); }
        if r.key.None? { effect := effect.(key := current.key); }
        if r.outcome.None? { effect := effect.(outcome := current.outcome); }
        if effect.claim != current.claim || effect.provider != current.provider || effect.scope != current.scope
          || effect.key != current.key {
          return false;
        }
        if Default(effect.outcome, Pending) == Withdrawn || current.actor != actor
          || current.installation != installation {
          return false;
        }
      }
      effects := effects[k := effect];
      return true;
    }

    method PatchAll(rows: seq<(string, Entity)>) returns (ok: bool)
      modifies `entities
      ensures PatchEntities(old(entities), rows) == if ok then Some(entities) else None
    {
      ghost var before := entities;
      for i := 0 to |rows|
        invariant PatchEntities(before, rows[..i]) == Some(entities)
      {
        assert rows[..i+1][..i] == rows[..i];
        ok := PatchOne(rows[i].0, rows[i].1);
        if !ok {
          PatchesFail(before, rows, i + 1);
          return;
        }
      }
      assert rows[..|rows|] == rows;
      ok := true;
    }

    method ClaimAll(actor: string, installation: string, rows: seq<Rows<ClaimRow>>) returns (ok: bool)
      modifies `claims
      ensures AdmitClaims(entities, old(claims), actor, installation, rows) == if ok then Some(claims) else None
    {
      ghost var before := claims;
      for i := 0 to |rows|
        invariant AdmitClaims(entities, before, actor, installation, rows[..i]) == Some(claims)
      {
        assert rows[..i+1][..i] == rows[..i];
        ok := ClaimOne(actor, installation, rows[i].key, rows[i].row);
        if !ok {
          ClaimsFail(entities, before, actor, installation, rows, i + 1);
          return;
        }
      }
      assert rows[..|rows|] == rows;
      ok := true;
    }

    method PermitAll(index: map<string, string>, actor: string, installation: string, rows: seq<Rows<PermitRow>>)
      returns (ok: bool)
      modifies `permits
      ensures AdmitPermits(entities, index, old(permits), actor, installation, rows) ==
                if ok then Some(permits) else None
    {
      ghost var before := permits;
      for i := 0 to |rows|
        invariant AdmitPermits(entities, index, before, actor, installation, rows[..i]) == Some(permits)
      {
        assert rows[..i+1][..i] == rows[..i];
        ok := PermitOne(index, actor, installation, rows[i].key, rows[i].row);
        if !ok {
          PermitsFail(entities, index, before, actor, installation, rows, i + 1);
          return;
        }
      }
      assert rows[..|rows|] == rows;
      ok := true;
    }

    method EffectAll(index: map<string, string>, actor: string, installation: string, rows: seq<Rows<EffectRow>>)
      returns (ok: bool)
      modifies `effects
      ensures AdmitEffects(entities, index, old(effects), actor, installation, rows) ==
                if ok then Some(effects) else None
    {
      ghost var before := effects;
      for i := 0 to |rows|
        invariant AdmitEffects(entities, index, before, actor, installation, rows[..i]) == Some(effects)
      {
        assert rows[..i+1][..i] == rows[..i];
        ok := EffectOne(index, actor, installation, rows[i].key, rows[i].row);
        if !ok {
          EffectsFail(entities, index, before, actor, installation, rows, i + 1);
          return;
        }
      }
      assert rows[..|rows|] == rows;
      ok := true;
    }

    method AdmitEvidence(index: map<string, string>, r: Request) returns (ok: bool)
      requires r.Apply?
      modifies `permits, `effects
      ensures var ps := AdmitPermits(entities, index, old(permits), r.actor, r.installation, r.changes.permits);
              var es := AdmitEffects(entities, index, old(effects), r.actor, r.installation, r.changes.effects);
              if ok then ps == Some(permits) && es == Some(effects) else ps.None? || es.None?
    {
      hide AdmitPermits, AdmitEffects;
      ok := PermitAll(index, r.actor, r.installation, r.changes.permits);
      if ok {
        ok := EffectAll(index, r.actor, r.installation, r.changes.effects);
      }
    }

    /** Checks and applies the rows table by table; later tables see what earlier ones wrote. */
    method ApplyRows(r: Request) returns (ok: bool, index: map<string, string>)
      requires r.Apply?
      modifies `entities, `claims, `permits, `effects
      ensures ApplyChanges(old(State()), r.(index := index)) == if ok then Some(State()) else None
      ensures ResolvedBy(old(State()), r, index) || (!ok && Barred(old(State()), r))
    {
      hide PatchEntities, AdmitClaims, AdmitPermits, AdmitEffects, IsIndex, OwnerPatchBlocked, AuthorityDrains,
        ActiveInstallation, VersionsMatch;
      ghost var s := State();
      index := map[];
      if AuthorityDrains(changes, r.actor, r.installation) || !ActiveInstallation(State(), r.actor, r.installation)
        || !VersionsMatch(entities, r.expected) {
        return false, index;
      }
      ok := PatchAll(r.changes.entities);
      if !ok {
        return;
      }
      ok := ClaimAll(r.actor, r.installation, r.changes.claims);
      if !ok {
        return;
      }
      index := Index();
      ok := AdmitEvidence(index, r);
      if !ok {
        return;
      }
      assert State() == s.(entities := entities, claims := claims, permits := permits, effects := effects);
      var blocked := OwnersBlocked(r.changes.entities);
      ok := !blocked;
    }

    method Apply(sequence: nat, r: Request) returns (result: Option<Result>, index: map<string, string>)
      requires r.Apply?
      modifies this
      ensures Does(Perform(sequence, old(State()), r.(index := index)), State(), result)
      ensures result.Some? ==> Acceptable(sequence, old(State()), r)
      ensures result.None? ==> Refusable(sequence, old(State()), r)
    {
      hide ApplyChanges, ResolvedBy, Barred;
      ghost var s := State();
      var ok;
      ok, index := ApplyRows(r);
      if !ok {
        RefusedIsRefusable(sequence, s, r, index);
        return None, index;
      }
      return Some(Applied(sequence + 1, set e | e in effects && Unresolved(effects[e]))), index;
    }

    method OwnersBlocked(rows: seq<(string, Entity)>) returns (blocked: bool)
      ensures blocked <==> exists i :: 0 <= i < |rows| && rows[i].1.owner.Some? && OwnerPatchBlocked(State(), rows[i].0)
    {
      for i := 0 to |rows|
        invariant forall j :: 0 <= j < i ==> !(rows[j].1.owner.Some? && OwnerPatchBlocked(State(), rows[j].0))
      {
        if rows[i].1.owner.Some? && OwnerPatchBlocked(State(), rows[i].0) {
          return true;
        }
      }
      return false;
    }

    // ---- handoffs ---------------------------------------------------------------------------

    method BeginHandoff(r: Request) returns (result: Option<Result>)
      requires r.BeginHandoff?
      modifies this
      ensures Does(BeginHandoffOf(old(State()), r), State(), result)
    {
      var k := r.entity;
      if !Present(entities, k) || Default(entities[k].version, 0) != r.expectedVersion
        || !ActiveInstallation(State(), r.actor, r.installation) {
        return None;
      }
      var owner := Owner(entities[k]);
      if r.actor != owner && members[r.actor].role != Administrative {
        return None;
      }
      if k in handoffs || !MayOwn(members, entities[k], r.pending) {
        return None;
      }
      var blockers := Blockers(State(), k);
      var idle := k !in claims && blockers == {};
      var handoff := HandoffFrom(State(), k, r.pending).(ready := idle, stopAcknowledged := idle);
      entities := entities[k := Drained(entities[k], r.pending)];
      handoffs := handoffs[k := handoff];
      return Some(HandoffBegun(idle, owner, r.pending, blockers));
    }

    /** Fences one authority while its owner and generation stay. */
    method StageOne(k: string, pending: string)
      requires k in entities
      modifies `entities, `handoffs
      ensures entities == old(entities)[k := Drained(old(entities)[k], pending)]
      ensures handoffs == old(handoffs)[k := HandoffFrom(old(State()), k, pending)]
    {
      var handoff := HandoffFrom(State(), k, pending);
      entities := entities[k := Drained(entities[k], pending)];
      handoffs := handoffs[k := handoff];
    }

    /** Releases one authority to its next owner and archives the handoff. */
    method TransferOne(k: string, owner: string)
      requires k in entities && k in handoffs
      modifies `entities, `claims, `handoffs, `recovery
      ensures entities == old(entities)[k := Transferred(old(entities)[k], owner, old(handoffs)[k].fromGeneration + 1)]
      ensures claims == old(claims) - {k} && handoffs == old(handoffs) - {k}
      ensures recovery == old(recovery) + {HandoffRecord(k, old(handoffs)[k])}
    {
      var handoff := handoffs[k];
      claims := claims - {k};
      entities := entities[k := Transferred(entities[k], owner, handoff.fromGeneration + 1)];
      recovery := recovery + {HandoffRecord(k, handoff)};
      handoffs := handoffs - {k};
    }

    /** Stages the entities in whatever order they come; false if one already has a handoff. */
    method StageAll(keys: set<string>) returns (ok: bool)
      modifies `entities, `handoffs
      ensures ok == (forall k :: k in keys ==> k in old(entities) && k !in old(handoffs))
      ensures ok ==> State() == Stage(old(State()), keys, "")
    {
      hide Drained, HandoffFrom, Stage;
      ghost var s := State();
      ghost var done: set<string> := {};
      var todo := keys;
      StageNone(s, "");
      while todo != {}
        invariant todo !! done && done + todo == keys
        invariant forall k :: k in done ==> k in s.entities && k !in s.handoffs
        invariant State() == Stage(s, done, "")
      {
        var k :| k in todo;
        StagedKeys(s, done);
        if k !in entities || k in handoffs {
          return false;
        }
        StageOneMore(s, done, k, "");
        ghost var before := State();
        StageOne(k, "");
        StagedFrom(s, done, k);
        assert State() == before.(entities := entities, handoffs := handoffs);
        done := done + {k};
        todo := todo - {k};
      }
      return true;
    }

    method TransferAll(keys: set<string>, owner: string)
      requires forall k :: k in keys ==> k in entities && k in handoffs
      modifies `entities, `claims, `handoffs, `recovery
      ensures State() == Transfer(old(State()), keys, owner)
    {
      hide Transfer, Transferred;
      ghost var s := State();
      ghost var done: set<string> := {};
      var todo := keys;
      TransferNone(s, owner);
      while todo != {}
        invariant todo !! done && done + todo == keys
        invariant State() == Transfer(s, done, owner)
      {
        var k :| k in todo;
        TransferOneMore(s, done, k, owner);
        ghost var before := State();
        TransferOne(k, owner);
        assert State() == before.(entities := entities, claims := claims, handoffs := handoffs, recovery := recovery);
        done := done + {k};
        todo := todo - {k};
      }
    }

    method Inherit(project: string, owner: string, task: string) returns (affected: bool, waits: bool, ok: bool)
      modifies `entities, `claims, `handoffs, `recovery
      ensures forall a, w :: InheritTask(Inheritance(old(State()), a, w), project, owner, task) ==
                if !ok then None
                else Some(Inheritance(State(), if affected then a + [task] else a, if waits then w + [task] else w))
    {
      var k := TaskKey(task);
      if k !in entities {
        entities := entities[k := InheritedEntity(project, task, owner)];
        return true, false, true;
      }
      if Owner(entities[k]) == owner {
        return false, false, true;
      }
      if k in handoffs {
        return false, true, handoffs[k].pending == owner;
      }
      if !MayOwn(members, entities[k], owner) {
        return false, false, false;
      }
      ghost var s := State();
      StageOnly(s, k, owner);
      StageOne(k, owner);
      assert State() == Stage(s, {k}, owner);
      if handoffs[k].ready {
        TransferOnly(State(), k, owner);
        ghost var staged := State();
        TransferOne(k, owner);
        assert State() == Transfer(staged, {k}, owner);
        return true, false, true;
      }
      return true, true, true;
    }

    method InheritAll(project: string, owner: string, tasks: seq<string>)
      returns (affected: seq<string>, waiting: seq<string>, ok: bool)
      modifies `entities, `claims, `handoffs, `recovery
      ensures InheritTasks(Inheritance(old(State()), [], []), project, owner, tasks) ==
              if ok then Some(Inheritance(State(), affected, waiting)) else None
    {
      hide InheritTask;
      ghost var start := Inheritance(State(), [], []);
      affected, waiting := [], [];
      for i := 0 to |tasks|
        invariant InheritTasks(start, project, owner, tasks[..i]) == Some(Inheritance(State(), affected, waiting))
      {
        assert tasks[..i+1][..i] == tasks[..i];
        var did, waits;
        did, waits, ok := Inherit(project, owner, tasks[i]);
        if !ok {
          InheritanceFails(start, project, owner, tasks, i + 1);
          return;
        }
        if did { affected := affected + [tasks[i]]; }
        if waits { waiting := waiting + [tasks[i]]; }
      }
      assert tasks[..|tasks|] == tasks;
      ok := true;
    }

    method ReconcileInherited(sequence: nat, r: Request) returns (result: Option<Result>)
      requires r.ReconcileInherited?
      modifies this
      ensures Does(Perform(sequence, old(State()), r), State(), result)
    {
      hide ActiveAdministrator, InheritTasks;
      if !ActiveAdministrator(State(), r.actor, r.installation) {
        return None;
      }
      var affected, waiting, ok := InheritAll(r.project, r.owner, r.tasks);
      if !ok {
        return None;
      }
      return Some(Reconciled(affected, waiting));
    }

    // ---- authority changes ------------------------------------------------------------------

    method BeginMemberChange(r: Request) returns (result: Option<Result>)
      requires r.BeginMemberChange?
      modifies this
      ensures Does(BeginMemberChangeOf(old(State()), r), State(), result)
    {
      if !ActiveAdministrator(State(), r.actor, r.installation) || r.member !in members {
        return None;
      }
      if (r.active != Some(false) && r.projects.None?) || MemberKey(r.member) in changes {
        return None;
      }
      var affected := Concerned(State(), r);
      var ok := StageAll(affected);
      if !ok {
        return None;
      }
      changes := changes[MemberKey(r.member) := Change(r.member, r.active, r.projects, affected)];
      return Some(Draining(affected));
    }

    method BeginRevocation(r: Request) returns (result: Option<Result>)
      requires r.BeginRevocation?
      modifies this
      ensures Does(BeginRevocationOf(old(State()), r), State(), result)
    {
      if !ActiveAdministrator(State(), r.actor, r.installation) || r.target !in installations
        || InstallationKey(r.target) in changes {
        return None;
      }
      var affected := Running(State(), r.target);
      var ok := StageAll(affected);
      if !ok {
        return None;
      }
      changes := changes[InstallationKey(r.target) := Change(installations[r.target], None, None, affected)];
      return Some(Draining(affected));
    }

    method Enroll(r: Request) returns (result: Option<Result>)
      requires r.Enroll?
      modifies this
      ensures Does(EnrollOf(old(State()), r), State(), result)
    {
      if !ActiveAdministrator(State(), r.actor, r.installation) || r.member !in members || !members[r.member].active {
        return None;
      }
      if r.target in installations || InstallationKey(r.target) in changes {
        return None;
      }
      installations := installations[r.target := r.member];
      revoked := revoked - {r.target};
      return Some(Enrolled(r.target, r.member));
    }

    /** Whether every entity of a change may move. */
    method AllCleared(keys: set<string>) returns (ok: bool)
      ensures ok == !exists k :: k in keys && (!Cleared(State(), k) || k !in entities)
      ensures ok ==> forall k :: k in keys ==> k in entities && k in handoffs
    {
      var todo := keys;
      while todo != {}
        invariant todo <= keys
        invariant forall k :: k in keys && k !in todo ==> Cleared(State(), k) && k in entities
      {
        var k :| k in todo;
        if !Cleared(State(), k) || k !in entities {
          return false;
        }
        todo := todo - {k};
      }
      return true;
    }

    /** Disables or narrows the member, or revokes the installation. */
    method Enforce(key: ChangeKey, change: Change)
      requires key.MemberKey? ==> change.member in members
      modifies `members, `installations, `revoked
      ensures Enforced(old(State()), key, change, State())
    {
      match key {
        case MemberKey(m) => members := members[change.member := Narrowed(members[change.member], change)];
        case InstallationKey(i) =>
          revoked := if i in installations then revoked[i := installations[i]] else revoked - {i};
          installations := installations - {i};
      }
    }

    /** Finishes every fenced authority, then the membership or the enrolment. */
    method Conclude(r: Request, change: Change)
      requires r.CompleteChange? && r.key in changes && changes[r.key] == change
      requires r.key.MemberKey? ==> change.member in members
      requires forall k :: k in change.entities ==> k in entities && k in handoffs
      modifies this
      ensures Concludes(old(State()), r.key, change, State())
    {
      hide Transfer, Narrowed;
      ghost var s := State();
      TransferAll(change.entities, "");
      TransferTouches(s, change.entities, "");
      Enforce(r.key, change);
      recovery := recovery + {ChangeRecord(r.key, change)};
      changes := changes - {r.key};
    }

    method CompleteChange(r: Request) returns (result: Option<Result>)
      requires r.CompleteChange?
      modifies this
      ensures Does(CompleteChangeOf(old(State()), r), State(), result)
    {
      ghost var s := State();
      if !ActiveAdministrator(State(), r.actor, r.installation) || r.key !in changes {
        return None;
      }
      var change := changes[r.key];
      var ok := AllCleared(change.entities);
      if !ok || (r.key.MemberKey? && change.member !in members) {
        return None;
      }
      hide ActiveAdministrator, Cleared, CompleteChangeOf, Concludes;
      Conclude(r, change);
      Concluded(s, r, change, State());
      return Some(Completed(r.key));
    }

    // ---- stopping, fencing, evidence and completion -----------------------------------------

    method AcknowledgeStop(r: Request) returns (result: Option<Result>)
      requires r.AcknowledgeStop?
      modifies this
      ensures Does(AcknowledgeStopOf(old(State()), r), State(), result)
    {
      var k := r.entity;
      if k !in handoffs || handoffs[k].fromOwner != r.actor || handoffs[k].fromInstallation != r.installation {
        return None;
      }
      if Blockers(State(), k) != {} {
        return None;
      }
      handoffs := handoffs[k := handoffs[k].(stopAcknowledged := true, ready := true)];
      return Some(HandoffReady);
    }

    /** Fences the open permits of the entity's claim, one after the other. */
    method FenceOpenPermits(k: string)
      modifies `permits
      ensures permits == FencePermits(old(State()), k)
    {
      ghost var s := State();
      var todo := permits.Keys;
      while todo != {}
        invariant todo <= s.permits.Keys == permits.Keys
        invariant forall p :: p in permits ==> permits[p] == if p in todo then s.permits[p] else FencePermits(s, k)[p]
      {
        var p :| p in todo;
        if k in claims && permits[p].claim == claims[k].operation && StatusOpen(permits[p]) {
          permits := permits[p := permits[p].(status := Some(Fenced))];
        }
        todo := todo - {p};
      }
      assert permits == FencePermits(s, k);
    }

    method RecordFence(r: Request) returns (result: Option<Result>)
      requires r.RecordFence?
      modifies this
      ensures Does(RecordFenceOf(old(State()), r), State(), result)
    {
      var k := r.entity;
      if r.actor !in members || members[r.actor].role != Administrative {
        return None;
      }
      if r.installation !in installations || installations[r.installation] != r.actor {
        return None;
      }
      if !r.execution || !r.publication || k !in handoffs {
        return None;
      }
      if exists e :: e in effects && EffectBlocks(State(), e, k) {
        return None;
      }
      FenceOpenPermits(k);
      handoffs := handoffs[k := handoffs[k].(externalFence := true, ready := true)];
      return Some(HandoffReady);
    }

    method RetainLate(r: Request) returns (result: Option<Result>)
      requires r.RetainLate?
      modifies this
      ensures Does(RetainLateOf(old(State()), r), State(), result)
    {
      var enrolled := r.installation in installations && installations[r.installation] == r.actor;
      var revokedHere := r.installation in revoked && revoked[r.installation] == r.actor;
      if !enrolled && !revokedHere {
        return None;
      }
      if !Present(entities, r.entity) || Generation(entities[r.entity]) <= r.generation {
        return None;
      }
      recovery := recovery + {LateEvidence(r.entity, r.generation, r.evidence, r.actor, r.installation)};
      return Some(Retained(r.evidence));
    }

    method ReconcileEffect(r: Request) returns (result: Option<Result>)
      requires r.ReconcileEffect?
      modifies this
      ensures Does(ReconcileEffectOf(old(State()), r), State(), result)
    {
      var k := r.effect;
      if r.outcome == Pending || r.outcome == Unknown {
        return None;
      }
      if r.installation !in installations || installations[r.installation] != r.actor {
        return None;
      }
      if k !in effects || (!Unresolved(effects[k]) && effects[k].outcome != Some(r.outcome)) {
        return None;
      }
      effects := effects[k := effects[k].(outcome := Some(r.outcome))];
      if k in permits {
        permits := permits[k := permits[k].(status := Some(if r.outcome == Withdrawn then Fenced else Terminal))];
      }
      return Some(Resolved(k, r.outcome));
    }

    method CompleteHandoff(r: Request) returns (result: Option<Result>)
      requires r.CompleteHandoff?
      modifies this
      ensures Does(CompleteHandoffOf(old(State()), r), State(), result)
    {
      var k := r.entity;
      if !ActiveInstallation(State(), r.actor, r.installation) || k !in handoffs {
        return None;
      }
      var h := handoffs[k];
      if r.actor != h.fromOwner && r.actor != h.pending && members[r.actor].role != Administrative {
        return None;
      }
      if !Cleared(State(), k) || k !in entities || !MayOwn(members, entities[k], h.pending) {
        return None;
      }
      ghost var s := State();
      TransferOnly(s, k, h.pending);
      TransferOne(k, h.pending);
      assert State() == Transfer(s, {k}, h.pending);
      return Some(HandedOver(h.pending, h.fromGeneration + 1));
    }

    /** Any transaction.  `index` is how an apply resolved the operation ids of claims. */
    method Mutate(sequence: nat, r: Request) returns (result: Option<Result>, index: map<string, string>)
      modifies this
      ensures Does(Perform(sequence, old(State()), WithIndex(r, index)), State(), result)
      ensures result.Some? ==> Acceptable(sequence, old(State()), r)
      ensures result.None? ==> Refusable(sequence, old(State()), r)
    {
      ghost var s := State();
      hide BootstrapOf, ApplyChanges, BeginHandoffOf, InheritTasks, BeginMemberChangeOf, BeginRevocationOf,
        EnrollOf, CompleteChangeOf, AcknowledgeStopOf, RecordFenceOf, RetainLateOf, ReconcileEffectOf,
        CompleteHandoffOf;
      index := map[];
      if !r.Apply? {
        OthersNeedNoIndex(sequence, s, r);
      }
      hide Acceptable, Refusable;
      match r {
        case Bootstrap(_, _, _, _) => result := Bootstrap(sequence, r);
        case Apply(_, _, _, _, _) => result, index := Apply(sequence, r);
        case BeginHandoff(_, _, _, _, _) => result := BeginHandoff(r);
        case ReconcileInherited(_, _, _, _, _, _) => result := ReconcileInherited(sequence, r);
        case BeginMemberChange(_, _, _, _, _) => result := BeginMemberChange(r);
        case BeginRevocation(_, _, _) => result := BeginRevocation(r);
        case Enroll(_, _, _, _) => result := Enroll(r);
        case CompleteChange(_, _, _) => result := CompleteChange(r);
        case AcknowledgeStop(_, _, _) => result := AcknowledgeStop(r);
        case RecordFence(_, _, _, _, _) => result := RecordFence(r);
        case RetainLate(_, _, _, _, _) => result := RetainLate(r);
        case ReconcileEffect(_, _, _, _) => result := ReconcileEffect(r);
        case CompleteHandoff(_, _, _) => result := CompleteHandoff(r);
      }
    }
  }

  /** The member is disabled or narrowed, or the installation is revoked. */
  predicate Enforced(s: State, key: ChangeKey, change: Change, after: State)
    requires key.MemberKey? ==> change.member in s.members
  {
    match key
    case MemberKey(m) =>
      && after.installations == s.installations && after.revoked == s.revoked
      && after.members == s.members[change.member := Narrowed(s.members[change.member], change)]
    case InstallationKey(i) =>
      && after.members == s.members && after.installations == s.installations - {i}
      && after.revoked == if i in s.installations then s.revoked[i := s.installations[i]] else s.revoked - {i}
  }

  predicate Concludes(s: State, key: ChangeKey, change: Change, after: State)
    requires key.MemberKey? ==> change.member in s.members
  {
    var moved := Transfer(s, change.entities, "");
    && Enforced(s, key, change, after)
    && after == moved.(members := after.members, installations := after.installations, revoked := after.revoked,
                       recovery := moved.recovery + {ChangeRecord(key, change)}, changes := s.changes - {key})
  }

  lemma Concluded(s: State, r: Request, change: Change, after: State)
    requires r.CompleteChange? && r.key in s.changes && s.changes[r.key] == change
             && ActiveAdministrator(s, r.actor, r.installation)
    requires !exists k :: k in change.entities && (!Cleared(s, k) || k !in s.entities)
    requires r.key.MemberKey? ==> change.member in s.members
    requires Concludes(s, r.key, change, after)
    ensures CompleteChangeOf(s, r) == Some((after, Completed(r.key)))
  {
    hide ActiveAdministrator, Cleared, Narrowed;
  }

  lemma StagedKeys(s: State, done: set<string>)
    requires forall k :: k in done ==> k in s.entities
    ensures Stage(s, done, "").entities.Keys == s.entities.Keys
    ensures Stage(s, done, "").handoffs.Keys == s.handoffs.Keys + done
  {
  }

  /** Staging other entities does not change what a handoff of this one records. */
  lemma StagedFrom(s: State, done: set<string>, k: string)
    requires k in s.entities && k !in done
    ensures k in Stage(s, done, "").entities && HandoffFrom(Stage(s, done, ""), k, "") == HandoffFrom(s, k, "")
  {
  }

  lemma StageOnly(s: State, k: string, pending: string)
    requires k in s.entities
    ensures Stage(s, {k}, pending) == s.(entities := s.entities[k := Drained(s.entities[k], pending)],
                                         handoffs := s.handoffs[k := HandoffFrom(s, k, pending)])
  {
    StageNone(s, pending);
    StageOneMore(s, {}, k, pending);
    assert {} + {k} == {k};
  }

  lemma TransferOnly(s: State, k: string, owner: string)
    requires k in s.entities && k in s.handoffs
    ensures Transfer(s, {k}, owner) ==
            s.(entities := s.entities[k := Transferred(s.entities[k], owner, s.handoffs[k].fromGeneration + 1)],
               claims := s.claims - {k}, handoffs := s.handoffs - {k},
               recovery := s.recovery + {HandoffRecord(k, s.handoffs[k])})
  {
    TransferNone(s, owner);
    TransferOneMore(s, {}, k, owner);
    assert {} + {k} == {k};
  }

  lemma TransferTouches(s: State, keys: set<string>, owner: string)
    ensures var after := Transfer(s, keys, owner);
            after == s.(entities := after.entities, claims := after.claims, handoffs := after.handoffs,
                        recovery := after.recovery)
  {
  }

  lemma {:induction false} InheritanceFails(h: Inheritance, project: string, owner: string, tasks: seq<string>, n: nat)
    requires n <= |tasks| && InheritTasks(h, project, owner, tasks[..n]).None?
    ensures InheritTasks(h, project, owner, tasks).None?
    decreases |tasks| - n
  {
    if n < |tasks| {
      assert tasks[..n+1][..n] == tasks[..n];
      InheritanceFails(h, project, owner, tasks, n + 1);
    } else {
      assert tasks[..n] == tasks;
    }
  }

  // ---- a row that is refused refuses the request --------------------------------------------

  lemma {:induction false} PatchesFail(entities: map<string, Entity>, rows: seq<(string, Entity)>, n: nat)
    requires n <= |rows| && PatchEntities(entities, rows[..n]).None?
    ensures PatchEntities(entities, rows).None?
    decreases |rows| - n
  {
    if n < |rows| {
      assert rows[..n+1][..n] == rows[..n];
      PatchesFail(entities, rows, n + 1);
    } else {
      assert rows[..n] == rows;
    }
  }

  lemma {:induction false} ClaimsFail(entities: map<string, Entity>, claims: map<string, Claim>, actor: string,
                                      installation: string, rows: seq<Rows<ClaimRow>>, n: nat)
    requires n <= |rows| && AdmitClaims(entities, claims, actor, installation, rows[..n]).None?
    ensures AdmitClaims(entities, claims, actor, installation, rows).None?
    decreases |rows| - n
  {
    if n < |rows| {
      assert rows[..n+1][..n] == rows[..n];
      ClaimsFail(entities, claims, actor, installation, rows, n + 1);
    } else {
      assert rows[..n] == rows;
    }
  }

  lemma {:induction false} PermitsFail(entities: map<string, Entity>, index: map<string, string>,
                                       permits: map<string, Permit>, actor: string, installation: string,
                                       rows: seq<Rows<PermitRow>>, n: nat)
    requires n <= |rows| && AdmitPermits(entities, index, permits, actor, installation, rows[..n]).None?
    ensures AdmitPermits(entities, index, permits, actor, installation, rows).None?
    decreases |rows| - n
  {
    if n < |rows| {
      assert rows[..n+1][..n] == rows[..n];
      PermitsFail(entities, index, permits, actor, installation, rows, n + 1);
    } else {
      assert rows[..n] == rows;
    }
  }

  lemma {:induction false} EffectsFail(entities: map<string, Entity>, index: map<string, string>,
                                       effects: map<string, Effect>, actor: string, installation: string,
                                       rows: seq<Rows<EffectRow>>, n: nat)
    requires n <= |rows| && AdmitEffects(entities, index, effects, actor, installation, rows[..n]).None?
    ensures AdmitEffects(entities, index, effects, actor, installation, rows).None?
    decreases |rows| - n
  {
    if n < |rows| {
      assert rows[..n+1][..n] == rows[..n];
      EffectsFail(entities, index, effects, actor, installation, rows, n + 1);
    } else {
      assert rows[..n] == rows;
    }
  }
}
