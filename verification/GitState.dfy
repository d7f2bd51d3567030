/** The state that installations share through a Git ref, and what each transaction makes of it.

    The state is one JSON document.  A row's fields may be missing, so most of them are options: the
    code reads some with a default, compares others as they are, and a request names only the fields
    it sets.  A transaction that raises changes nothing and is `None` here. */
module GitState {
  import opened Options

  datatype Role = Administrative | Executing | Observing

  datatype Member = Member(active: bool, role: Role, everyProject: bool, projects: set<string>)

  /** An entity, and also a patch of one: the fields it sets. */
  datatype Entity = Entity(kind: Option<string>, scope: Option<string>, project: Option<string>, owner: Option<string>,
                           generation: Option<int>, draining: Option<bool>, pending: Option<string>,
                           version: Option<int>)

  /** A row without fields. */
  const EMPTY_ENTITY := Entity(None, None, None, None, None, None, None, None)

  /** The entity has a row that is not empty. */
  predicate Present(entities: map<string, Entity>, k: string) { k in entities && entities[k] != EMPTY_ENTITY }

  datatype Claim = Claim(operation: string, kind: Option<string>, scope: Option<string>, owner: Option<string>,
                         generation: Option<int>, actor: string, installation: string)

  datatype PermitStatus = Open | Fenced | Terminal

  datatype Permit = Permit(claim: string, status: Option<PermitStatus>, actor: string, installation: string)

  datatype EffectOutcome = Pending | Unknown | Succeeded | Failed | Withdrawn

  datatype Effect = Effect(claim: string, provider: Option<string>, scope: Option<string>, key: Option<string>,
                           outcome: Option<EffectOutcome>, actor: string, installation: string)

  datatype Handoff = Handoff(fromOwner: string, fromGeneration: int, fromInstallation: string, pending: string,
                             ready: bool, stopAcknowledged: bool, externalFence: bool)

  datatype ChangeKey = MemberKey(member: string) | InstallationKey(installation: string)

  datatype Change = Change(member: string, active: Option<bool>, projects: Option<set<string>>, entities: set<string>)

  datatype Record =
    | HandoffRecord(entity: string, handoff: Handoff)
    | ChangeRecord(key: ChangeKey, change: Change)
    | LateEvidence(entity: string, generation: int, evidence: string, actor: string, installation: string)

  datatype State = State(
    members: map<string, Member>,
    installations: map<string, string>,
    revoked: map<string, string>,
    entities: map<string, Entity>,
    claims: map<string, Claim>,
    permits: map<string, Permit>,
    effects: map<string, Effect>,
    handoffs: map<string, Handoff>,
    changes: map<ChangeKey, Change>,
    recovery: set<Record>)

  const EMPTY := State(map[], map[], map[], map[], map[], map[], map[], map[], map[], {})

  // ---- requests -----------------------------------------------------------------------------

  datatype ClaimRow = ClaimRow(operation: string, kind: Option<string>, scope: Option<string>, owner: Option<string>,
                               generation: Option<int>, actor: Option<string>, installation: Option<string>)

  datatype PermitRow = PermitRow(claim: Option<string>, status: Option<PermitStatus>, actor: Option<string>,
                                 installation: Option<string>)

  datatype EffectRow = EffectRow(claim: Option<string>, provider: Option<string>, scope: Option<string>,
                                 key: Option<string>, outcome: Option<EffectOutcome>, actor: Option<string>,
                                 installation: Option<string>)

  datatype Rows<+R> = Rows(key: string, row: Option<R>)

  /** The rows in the order the request lists them; no row means release. */
  datatype Changes = Changes(entities: seq<(string, Entity)>, claims: seq<Rows<ClaimRow>>,
                             permits: seq<Rows<PermitRow>>, effects: seq<Rows<EffectRow>>)

  /** `index` in an Apply is the entity that each claim operation id leads to when the permits and
      effects are checked: if two claims share an id, the code takes one of them. */
  datatype Request =
    | Bootstrap(members: map<string, Member>, installations: map<string, string>, revoked: map<string, string>,
                entities: map<string, Entity>)
    | Apply(actor: string, installation: string, expected: map<string, int>, changes: Changes,
            index: map<string, string>)
    | BeginHandoff(actor: string, installation: string, entity: string, expectedVersion: int, pending: string)
    | ReconcileInherited(actor: string, installation: string, project: string, phase: string, owner: string,
                         tasks: seq<string>)
    | BeginMemberChange(actor: string, installation: string, member: string, active: Option<bool>,
                        projects: Option<set<string>>)
    | BeginRevocation(actor: string, installation: string, target: string)
    | Enroll(actor: string, installation: string, target: string, member: string)
    | CompleteChange(actor: string, installation: string, key: ChangeKey)
    | AcknowledgeStop(actor: string, installation: string, entity: string)
    | RecordFence(actor: string, installation: string, entity: string, execution: bool, publication: bool)
    | RetainLate(actor: string, installation: string, entity: string, generation: int, evidence: string)
    | ReconcileEffect(actor: string, installation: string, effect: string, outcome: EffectOutcome)
    | CompleteHandoff(actor: string, installation: string, entity: string)

  datatype Result =
    | Bootstrapped(entities: set<string>)
    | Applied(sequence: int, unresolved: set<string>)
    | HandoffBegun(ready: bool, owner: string, pending: string, blockers: set<string>)
    | Reconciled(affected: seq<string>, waiting: seq<string>)
    | Draining(entities: set<string>)
    | Enrolled(installation: string, member: string)
    | Completed(key: ChangeKey)
    | HandoffReady
    | Retained(evidence: string)
    | Resolved(effect: string, outcome: EffectOutcome)
    | HandedOver(owner: string, generation: int)

  // ---- reading rows -------------------------------------------------------------------------

  function Default<T>(o: Option<T>, otherwise: T): T { if o.Some? then o.value else otherwise }

  function Owner(e: Entity): string { Default(e.owner, "") }

  function Generation(e: Entity): int { Default(e.generation, 0) }

  function ClaimInstallation(s: State, k: string): string { if k in s.claims then s.claims[k].installation else "" }

  predicate IsDraining(e: Entity) { e.draining == Some(true) }

  predicate Unresolved(e: Effect) { Default(e.outcome, Pending) == Pending || Default(e.outcome, Pending) == Unknown }

  /** No terminal outcome is recorded under this key; a missing effect counts as pending. */
  predicate OutcomeOpen(effects: map<string, Effect>, key: string) { key in effects ==> Unresolved(effects[key]) }

  predicate StatusOpen(p: Permit) { p.status != Some(Fenced) && p.status != Some(Terminal) }

  predicate PermitBlocks(s: State, p: string, k: string) {
    && p in s.permits && k in s.claims && s.permits[p].claim == s.claims[k].operation
    && StatusOpen(s.permits[p]) && OutcomeOpen(s.effects, p)
  }

  predicate EffectBlocks(s: State, e: string, k: string) {
    e in s.effects && s.effects[e].scope == Some(k) && Unresolved(s.effects[e])
  }

  /** What must be resolved before the entity's authority may move. */
  function Blockers(s: State, k: string): set<string> {
    (set p | p in s.permits && PermitBlocks(s, p, k)) + (set e | e in s.effects && EffectBlocks(s, e, k))
  }

  predicate ActiveInstallation(s: State, actor: string, installation: string) {
    && installation in s.installations && s.installations[installation] == actor
    && actor in s.members && s.members[actor].active
  }

  predicate ActiveAdministrator(s: State, actor: string, installation: string) {
    ActiveInstallation(s, actor, installation) && s.members[actor].role == Administrative
  }

  function BeforeSlash(text: string): string {
    if text == "" || text[0] == '/' then "" else [text[0]] + BeforeSlash(text[1..])
  }

  function ProjectOf(e: Entity): string {
    if Default(e.project, "") == "" && e.kind == Some("phase")
    then BeforeSlash(Default(e.scope, "")) else Default(e.project, "")
  }

  /** Nobody, or an active executing member with access to the entity's project. */
  predicate MayOwn(members: map<string, Member>, e: Entity, owner: string) {
    owner == "" ||
      (&& owner in members && members[owner].active && members[owner].role != Observing
       && ProjectOf(e) != "" && (members[owner].everyProject || ProjectOf(e) in members[owner].projects))
  }

  // ---- apply --------------------------------------------------------------------------------

  function Patched(e: Entity, p: Entity): Entity {
    Entity(if p.kind.Some? then p.kind else e.kind, if p.scope.Some? then p.scope else e.scope,
           if p.project.Some? then p.project else e.project, if p.owner.Some? then p.owner else e.owner,
           if p.generation.Some? then p.generation else e.generation,
           if p.draining.Some? then p.draining else e.draining,
           if p.pending.Some? then p.pending else e.pending, if p.version.Some? then p.version else e.version)
  }

  /** The patch would change a field that only a handoff may change. */
  predicate ChangesAuthority(e: Entity, p: Entity) {
    || (p.kind.Some? && p.kind != e.kind) || (p.scope.Some? && p.scope != e.scope)
    || (p.owner.Some? && p.owner != e.owner) || (p.generation.Some? && p.generation != e.generation)
    || (p.draining.Some? && p.draining != e.draining) || (p.pending.Some? && p.pending != e.pending)
  }

  const NEW_ENTITY := Entity(None, None, None, None, None, None, None, Some(0))

  function PatchEntity(entities: map<string, Entity>, k: string, patch: Entity): Option<map<string, Entity>> {
    if k in entities && ChangesAuthority(entities[k], patch) then None
    else
      var e := Patched(if k in entities then entities[k] else NEW_ENTITY, patch);
      if e.version.None? then None else Some(entities[k := e.(version := Some(e.version.value + 1))])
  }

  function PatchEntities(entities: map<string, Entity>, rows: seq<(string, Entity)>): Option<map<string, Entity>> {
    if rows == [] then Some(entities)
    else
      var before := PatchEntities(entities, rows[..|rows|-1]);
      if before.None? then None else PatchEntity(before.value, rows[|rows|-1].0, rows[|rows|-1].1)
  }

  function AdmitClaim(entities: map<string, Entity>, claims: map<string, Claim>, actor: string, installation: string,
                      k: string, row: Option<ClaimRow>): Option<map<string, Claim>>
  {
    if row.None? then (if k in claims then None else Some(claims))
    else
      var r := row.value;
      var claim := Claim(r.operation, r.kind, r.scope, r.owner, r.generation, Default(r.actor, actor),
                         Default(r.installation, installation));
      if claim.actor != actor || claim.installation != installation || claim.operation == "" then None
      else if k in claims && claims[k] != claim then None
      else if k !in entities then None
      else
        var e := entities[k];
        if claim.kind != e.kind || claim.scope != e.scope || claim.owner != e.owner || claim.owner != Some(actor)
           || Default(claim.generation, -1) != Default(e.generation, -1) || IsDraining(e)
        then None else Some(claims[k := claim])
  }

  function AdmitClaims(entities: map<string, Entity>, claims: map<string, Claim>, actor: string, installation: string,
                       rows: seq<Rows<ClaimRow>>): Option<map<string, Claim>>
  {
    if rows == [] then Some(claims)
    else
      var before := AdmitClaims(entities, claims, actor, installation, rows[..|rows|-1]);
      if before.None? then None
      else AdmitClaim(entities, before.value, actor, installation, rows[|rows|-1].key, rows[|rows|-1].row)
  }

  predicate LeadsToDraining(entities: map<string, Entity>, index: map<string, string>, operation: string)
    requires operation in index
  {
    index[operation] in entities && IsDraining(entities[index[operation]])
  }

  function AdmitPermit(entities: map<string, Entity>, index: map<string, string>, permits: map<string, Permit>,
                       actor: string, installation: string, k: string,
                       row: Option<PermitRow>): Option<map<string, Permit>>
  {
    if row.None? then (if k in permits then None else Some(permits))
    else
      var r := row.value;
      if r.claim.None? || r.claim.value !in index then None
      else
        var permit := Permit(r.claim.value, r.status, Default(r.actor, actor), Default(r.installation, installation));
        if k !in permits then
          if LeadsToDraining(entities, index, permit.claim) || Default(r.status, Open) != Open then None
          else Some(permits[k := permit])
        else
          var current := permits[k];
          var status := Default(current.status, Open);
          if permit.claim != current.claim || Default(r.status, status) != status
             || current.actor != actor || current.installation != installation
          then None else Some(permits[k := permit])
  }

  function AdmitPermits(entities: map<string, Entity>, index: map<string, string>, permits: map<string, Permit>,
                        actor: string, installation: string, rows: seq<Rows<PermitRow>>): Option<map<string, Permit>>
  {
    if rows == [] then Some(permits)
    else
      var before := AdmitPermits(entities, index, permits, actor, installation, rows[..|rows|-1]);
      if before.None? then None
      else AdmitPermit(entities, index, before.value, actor, installation, rows[|rows|-1].key, rows[|rows|-1].row)
  }

  function AdmitEffect(entities: map<string, Entity>, index: map<string, string>, effects: map<string, Effect>,
                       actor: string, installation: string, k: string,
                       row: Option<EffectRow>): Option<map<string, Effect>>
  {
    if row.None? then (if k in effects then None else Some(effects))
    else
      var r := row.value;
      if r.claim.None? || r.claim.value !in index then None
      else
        var effect := Effect(r.claim.value, r.provider, r.scope, r.key, r.outcome, Default(r.actor, actor),
                             Default(r.installation, installation));
        if k !in effects then
          if LeadsToDraining(entities, index, effect.claim) || Default(effect.outcome, Pending) == Withdrawn then None
          else Some(effects[k := effect])
        else
          var current := effects[k];
          var merged := effect.(
            provider := if r.provider.Some? then r.provider else current.provider,
            scope := if r.scope.Some? then r.scope else current.scope,
            key := if r.key.Some? then r.key else current.key,
            outcome := if r.outcome.Some? then r.outcome else current.outcome);
          if !Unresolved(current) && Default(r.outcome, Pending) != Default(current.outcome, Pending) then None
          else if effect.claim != current.claim || merged.provider != current.provider || merged.scope != current.scope
               || merged.key != current.key then None
          else if Default(merged.outcome, Pending) == Withdrawn then None
          else if current.actor != actor || current.installation != installation then None
          else Some(effects[k := merged])
  }

  function AdmitEffects(entities: map<string, Entity>, index: map<string, string>, effects: map<string, Effect>,
                        actor: string, installation: string, rows: seq<Rows<EffectRow>>): Option<map<string, Effect>>
  {
    if rows == [] then Some(effects)
    else
      var before := AdmitEffects(entities, index, effects, actor, installation, rows[..|rows|-1]);
      if before.None? then None
      else AdmitEffect(entities, index, before.value, actor, installation, rows[|rows|-1].key, rows[|rows|-1].row)
  }

  /** Each operation id of a claim leads to a claim that carries it. */
  predicate IsIndex(claims: map<string, Claim>, index: map<string, string>) {
    && (forall k :: k in claims ==> claims[k].operation in index)
    && (forall op :: op in index ==> index[op] in claims && claims[index[op]].operation == op)
  }

  predicate AuthorityDrains(changes: map<ChangeKey, Change>, actor: string, installation: string) {
    exists k :: k in changes && (changes[k].member == actor || k == InstallationKey(installation))
  }

  predicate VersionsMatch(entities: map<string, Entity>, expected: map<string, int>) {
    forall k :: k in expected ==> (if k in entities then Default(entities[k].version, 0) else 0) == expected[k]
  }

  function Shown(o: Option<string>): string { Default(o, "None") }

  /** A patch that names an owner is refused while anything of the entity is unresolved, fenced or not. */
  predicate OwnerPatchBlocked(s: State, k: string) {
    || (exists e :: e in s.effects && EffectBlocks(s, e, k))
    || (exists p, c :: p in s.permits && c in s.claims && s.permits[p].claim == s.claims[c].operation
          && Shown(s.claims[c].kind) + ":" + Shown(s.claims[c].scope) == k && OutcomeOpen(s.effects, p))
  }

  function ApplyChanges(s: State, r: Request): (after: Option<State>)
    requires r.Apply?
  {
    if AuthorityDrains(s.changes, r.actor, r.installation) || !ActiveInstallation(s, r.actor, r.installation)
       || !VersionsMatch(s.entities, r.expected)
    then None
    else
      var entities := PatchEntities(s.entities, r.changes.entities);
      if entities.None? then None
      else
        var claims := AdmitClaims(entities.value, s.claims, r.actor, r.installation, r.changes.claims);
        if claims.None? || !IsIndex(claims.value, r.index) then None
        else
          var permits := AdmitPermits(entities.value, r.index, s.permits, r.actor, r.installation, r.changes.permits);
          var effects := AdmitEffects(entities.value, r.index, s.effects, r.actor, r.installation, r.changes.effects);
          if permits.None? || effects.None? then None
          else
            var after := s.(entities := entities.value, claims := claims.value, permits := permits.value,
                            effects := effects.value);
            if exists i ::
              0 <= i < |r.changes.entities| && r.changes.entities[i].1.owner.Some?
                && OwnerPatchBlocked(after, r.changes.entities[i].0)
            then None else Some(after)
  }

  // ---- handoffs -----------------------------------------------------------------------------

  function Drained(e: Entity, pending: string): Entity {
    e.(draining := Some(true), pending := Some(pending), version := Some(Default(e.version, 0) + 1))
  }

  function HandoffFrom(s: State, k: string, pending: string): Handoff
    requires k in s.entities
  {
    var idle := ClaimInstallation(s, k) == "";
    Handoff(Owner(s.entities[k]), Generation(s.entities[k]), ClaimInstallation(s, k), pending, idle, idle, false)
  }

  /** Drains each of the entities while its owner and generation stay. */
  function Stage(s: State, keys: set<string>, pending: string): State {
    s.(entities := map k | k in s.entities :: if k in keys then Drained(s.entities[k], pending) else s.entities[k],
       handoffs := map k | k in s.handoffs.Keys + (keys * s.entities.Keys) ::
                     if k in keys && k in s.entities then HandoffFrom(s, k, pending) else s.handoffs[k])
  }

  function Transferred(e: Entity, owner: string, generation: int): Entity {
    e.(owner := Some(owner), generation := Some(generation), draining := Some(false), pending := Some(""),
       version := Some(Default(e.version, 0) + 1))
  }

  /** Releases the claims of the entities and gives each to the owner in its next generation. */
  function Transfer(s: State, keys: set<string>, owner: string): State {
    s.(entities := map k | k in s.entities ::
                     if k in keys && k in s.handoffs
                     then Transferred(s.entities[k], owner, s.handoffs[k].fromGeneration + 1)
                     else s.entities[k],
       claims := s.claims - keys,
       recovery := s.recovery + (set k | k in keys && k in s.handoffs :: HandoffRecord(k, s.handoffs[k])),
       handoffs := s.handoffs - keys)
  }

  /** The handoff may take effect: nothing blocks it and its workers stopped or were fenced off. */
  predicate Cleared(s: State, k: string) {
    k in s.handoffs && Blockers(s, k) == {} && (s.handoffs[k].stopAcknowledged || s.handoffs[k].externalFence)
  }

  function BeginHandoffOf(s: State, r: Request): Option<(State, Result)>
    requires r.BeginHandoff?
  {
    var k := r.entity;
    if !Present(s.entities, k) || Default(s.entities[k].version, 0) != r.expectedVersion then None
    else if !ActiveInstallation(s, r.actor, r.installation) then None
    else if r.actor != Owner(s.entities[k]) && s.members[r.actor].role != Administrative then None
    else if k in s.handoffs || !MayOwn(s.members, s.entities[k], r.pending) then None
    else
      var idle := k !in s.claims && Blockers(s, k) == {};
      var handoff := HandoffFrom(s, k, r.pending).(ready := idle, stopAcknowledged := idle);
      Some((s.(entities := s.entities[k := Drained(s.entities[k], r.pending)], handoffs := s.handoffs[k := handoff]),
            HandoffBegun(idle, Owner(s.entities[k]), r.pending, Blockers(s, k))))
  }

  function TaskKey(task: string): string { "task:" + task }

  function InheritedEntity(project: string, task: string, owner: string): Entity {
    Entity(Some("task"), Some(task), Some(project), Some(owner), Some(1), None, None, Some(0))
  }

  datatype Inheritance = Inheritance(state: State, affected: seq<string>, waiting: seq<string>)

  function InheritTask(h: Inheritance, project: string, owner: string, task: string): Option<Inheritance> {
    var s, k := h.state, TaskKey(task);
    if k !in s.entities then
      Some(Inheritance(s.(entities := s.entities[k := InheritedEntity(project, task, owner)]), h.affected + [task],
                       h.waiting))
    else if Owner(s.entities[k]) == owner then Some(h)
    else if k in s.handoffs then
      if s.handoffs[k].pending != owner then None else Some(h.(waiting := h.waiting + [task]))
    else if !MayOwn(s.members, s.entities[k], owner) then None
    else
      var staged := Stage(s, {k}, owner);
      if ClaimInstallation(s, k) == ""
      then Some(Inheritance(Transfer(staged, {k}, owner), h.affected + [task], h.waiting))
      else Some(Inheritance(staged, h.affected + [task], h.waiting + [task]))
  }

  function InheritTasks(h: Inheritance, project: string, owner: string, tasks: seq<string>): Option<Inheritance> {
    if tasks == [] then Some(h)
    else
      var before := InheritTasks(h, project, owner, tasks[..|tasks|-1]);
      if before.None? then None else InheritTask(before.value, project, owner, tasks[|tasks|-1])
  }

  // ---- authority changes --------------------------------------------------------------------

  /** The entities of a member that disabling it, or narrowing its projects, concerns. */
  function Concerned(s: State, r: Request): set<string>
    requires r.BeginMemberChange?
  {
    set k | k in s.entities && s.entities[k].owner == Some(r.member)
      && (r.active == Some(false) || (r.projects.Some? && Default(s.entities[k].project, "") !in r.projects.value))
  }

  function BeginMemberChangeOf(s: State, r: Request): Option<(State, Result)>
    requires r.BeginMemberChange?
  {
    if !ActiveAdministrator(s, r.actor, r.installation) || r.member !in s.members then None
    else if r.active != Some(false) && r.projects.None? then None
    else if MemberKey(r.member) in s.changes || exists k :: k in Concerned(s, r) && k in s.handoffs then None
    else
      var change := Change(r.member, r.active, r.projects, Concerned(s, r));
      var staged := Stage(s, Concerned(s, r), "");
      Some((staged.(changes := s.changes[MemberKey(r.member) := change]), Draining(Concerned(s, r))))
  }

  function Running(s: State, installation: string): set<string> {
    set k | k in s.claims && s.claims[k].installation == installation
  }

  function BeginRevocationOf(s: State, r: Request): Option<(State, Result)>
    requires r.BeginRevocation?
  {
    if !ActiveAdministrator(s, r.actor, r.installation) || r.target !in s.installations then None
    else if InstallationKey(r.target) in s.changes then None
    else if exists k :: k in Running(s, r.target) && (k in s.handoffs || k !in s.entities) then None
    else
      var change := Change(s.installations[r.target], None, None, Running(s, r.target));
      var staged := Stage(s, Running(s, r.target), "");
      Some((staged.(changes := s.changes[InstallationKey(r.target) := change]), Draining(Running(s, r.target))))
  }

  function EnrollOf(s: State, r: Request): Option<(State, Result)>
    requires r.Enroll?
  {
    if !ActiveAdministrator(s, r.actor, r.installation) || !(r.member in s.members && s.members[r.member].active)
    then None
    else if r.target in s.installations || InstallationKey(r.target) in s.changes then None
    else Some((s.(installations := s.installations[r.target := r.member], revoked := s.revoked - {r.target}),
               Enrolled(r.target, r.member)))
  }

  function Narrowed(m: Member, change: Change): Member {
    var switched := if change.active.Some? then m.(active := change.active.value) else m;
    if change.projects.Some? then switched.(projects := change.projects.value, everyProject := false) else switched
  }

  function CompleteChangeOf(s: State, r: Request): Option<(State, Result)>
    requires r.CompleteChange?
  {
    if !ActiveAdministrator(s, r.actor, r.installation) || r.key !in s.changes then None
    else
      var change := s.changes[r.key];
      if exists k :: k in change.entities && (!Cleared(s, k) || k !in s.entities) then None
      else
        var moved := Transfer(s, change.entities, "");
        var archived := moved.(recovery := moved.recovery + {ChangeRecord(r.key, change)},
                               changes := s.changes - {r.key});
        match r.key
        case MemberKey(m) =>
          if change.member !in s.members then None
          else Some((archived.(members := s.members[change.member := Narrowed(s.members[change.member], change)]),
                     Completed(r.key)))
        case InstallationKey(i) =>
          Some((archived.(installations := s.installations - {i},
                          revoked := if i in s.installations then s.revoked[i := s.installations[i]]
                                     else s.revoked - {i}),
                Completed(r.key)))
  }

  // ---- stopping, fencing, evidence and completion -------------------------------------------

  function AcknowledgeStopOf(s: State, r: Request): Option<(State, Result)>
    requires r.AcknowledgeStop?
  {
    var k := r.entity;
    if k !in s.handoffs || s.handoffs[k].fromOwner != r.actor || s.handoffs[k].fromInstallation != r.installation
    then None
    else if Blockers(s, k) != {} then None
    else Some((s.(handoffs := s.handoffs[k := s.handoffs[k].(stopAcknowledged := true, ready := true)]), HandoffReady))
  }

  /** The permits of the entity's claim are fenced, except those already settled. */
  function FencePermits(s: State, k: string): map<string, Permit> {
    map p | p in s.permits ::
      if k in s.claims && s.permits[p].claim == s.claims[k].operation && StatusOpen(s.permits[p])
      then s.permits[p].(status := Some(Fenced)) else s.permits[p]
  }

  function RecordFenceOf(s: State, r: Request): Option<(State, Result)>
    requires r.RecordFence?
  {
    var k := r.entity;
    if !(r.actor in s.members && s.members[r.actor].role == Administrative) then None
    else if !(r.installation in s.installations && s.installations[r.installation] == r.actor) then None
    else if !r.execution || !r.publication || k !in s.handoffs then None
    else if exists e :: e in s.effects && EffectBlocks(s, e, k) then None
    else Some((s.(permits := FencePermits(s, k),
                  handoffs := s.handoffs[k := s.handoffs[k].(externalFence := true, ready := true)]),
               HandoffReady))
  }

  function RetainLateOf(s: State, r: Request): Option<(State, Result)>
    requires r.RetainLate?
  {
    if !((r.installation in s.installations && s.installations[r.installation] == r.actor)
         || (r.installation in s.revoked && s.revoked[r.installation] == r.actor)) then None
    else if !Present(s.entities, r.entity) || Generation(s.entities[r.entity]) <= r.generation then None
    else Some((s.(recovery := s.recovery + {LateEvidence(r.entity, r.generation, r.evidence, r.actor, r.installation)}),
               Retained(r.evidence)))
  }

  function ReconcileEffectOf(s: State, r: Request): Option<(State, Result)>
    requires r.ReconcileEffect?
  {
    var k := r.effect;
    if r.outcome == Pending || r.outcome == Unknown then None
    else if !(r.installation in s.installations && s.installations[r.installation] == r.actor) then None
    else if k !in s.effects || !(Unresolved(s.effects[k]) || s.effects[k].outcome == Some(r.outcome)) then None
    else
      var status := if r.outcome == Withdrawn then Fenced else Terminal;
      Some((s.(effects := s.effects[k := s.effects[k].(outcome := Some(r.outcome))],
               permits := if k in s.permits then s.permits[k := s.permits[k].(status := Some(status))] else s.permits),
            Resolved(k, r.outcome)))
  }

  function CompleteHandoffOf(s: State, r: Request): Option<(State, Result)>
    requires r.CompleteHandoff?
  {
    var k := r.entity;
    if !ActiveInstallation(s, r.actor, r.installation) || k !in s.handoffs then None
    else
      var h := s.handoffs[k];
      if r.actor != h.fromOwner && r.actor != h.pending && s.members[r.actor].role != Administrative then None
      else if !Cleared(s, k) || k !in s.entities || !MayOwn(s.members, s.entities[k], h.pending) then None
      else Some((Transfer(s, {k}, h.pending), HandedOver(h.pending, h.fromGeneration + 1)))
  }

  function BootstrapOf(sequence: nat, s: State, r: Request): Option<(State, Result)>
    requires r.Bootstrap?
  {
    if sequence != 0 || s.members != map[] || s.installations != map[] || s.entities != map[]
       || s.claims != map[] || s.permits != map[] || s.effects != map[] then None
    else Some((s.(members := r.members, installations := r.installations, revoked := s.revoked + r.revoked,
                  entities := r.entities),
               Bootstrapped(r.entities.Keys)))
  }

  // ---- any transaction ----------------------------------------------------------------------

  /** What the transaction makes of the state at the given sequence number, and its result. */
  function Perform(sequence: nat, s: State, r: Request): Option<(State, Result)> {
    match r
    case Bootstrap(_, _, _, _) => BootstrapOf(sequence, s, r)
    case Apply(_, _, _, _, _) =>
      var after := ApplyChanges(s, r);
      if after.None? then None
      else Some((after.value,
                 Applied(sequence + 1, set e | e in after.value.effects && Unresolved(after.value.effects[e]))))
    case BeginHandoff(_, _, _, _, _) => BeginHandoffOf(s, r)
    case ReconcileInherited(actor, installation, project, phase, owner, tasks) =>
      if !ActiveAdministrator(s, actor, installation) then None
      else
        var after := InheritTasks(Inheritance(s, [], []), project, owner, tasks);
        if after.None? then None else Some((after.value.state, Reconciled(after.value.affected, after.value.waiting)))
    case BeginMemberChange(_, _, _, _, _) => BeginMemberChangeOf(s, r)
    case BeginRevocation(_, _, _) => BeginRevocationOf(s, r)
    case Enroll(_, _, _, _) => EnrollOf(s, r)
    case CompleteChange(_, _, _) => CompleteChangeOf(s, r)
    case AcknowledgeStop(_, _, _) => AcknowledgeStopOf(s, r)
    case RecordFence(_, _, _, _, _) => RecordFenceOf(s, r)
    case RetainLate(_, _, _, _, _) => RetainLateOf(s, r)
    case ReconcileEffect(_, _, _, _) => ReconcileEffectOf(s, r)
    case CompleteHandoff(_, _, _) => CompleteHandoffOf(s, r)
  }

  function WithIndex(r: Request, index: map<string, string>): Request { if r.Apply? then r.(index := index) else r }

  /** The index resolves the operation ids of the claims as they are once the request's claim rows are in. */
  predicate ResolvedBy(s: State, r: Request, index: map<string, string>) {
    r.Apply? ==>
      var entities := PatchEntities(s.entities, r.changes.entities);
      entities.Some? ==>
        var claims := AdmitClaims(entities.value, s.claims, r.actor, r.installation, r.changes.claims);
        claims.Some? ==> IsIndex(claims.value, index)
  }

  /** The transaction is accepted, for some resolution of claims that share an operation id. */
  ghost predicate Acceptable(sequence: nat, s: State, r: Request) {
    exists index :: ResolvedBy(s, r, index) && Perform(sequence, s, WithIndex(r, index)).Some?
  }

  /** The transaction is refused, for some resolution of claims that share an operation id. */
  ghost predicate Refusable(sequence: nat, s: State, r: Request) {
    exists index :: ResolvedBy(s, r, index) && Perform(sequence, s, WithIndex(r, index)).None?
  }
}
