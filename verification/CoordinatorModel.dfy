/** The SQL coordinator's tables for one garden, and what each transaction makes of them.

    Every operation of the service is one atomic transaction, so its meaning is a function from the
    tables to an outcome: the new tables and a reply, or a refusal that changes nothing.  `now` is
    the server clock as read by the call. */
module CoordinatorModel {
  import opened Options
  import opened Reservations

  datatype Kind = Task | Phase

  datatype Scope = Scope(kind: Kind, name: string)

  datatype Role = Administrator | Member | Viewer

  datatype Principal = Principal(garden: string, member: string, installation: string, role: Role)

  datatype Authority = Authority(version: int, owner: string, generation: int, nextFence: int)

  /** A fenced lease: the row of the claims table and the value a caller holds are the same thing. */
  datatype Claim = Claim(scope: Scope, owner: string, generation: int, installation: string,
                         operation: string, fence: int, expires: int)

  datatype OutboxStatus = Waiting | Finished | Superseded

  datatype OutboxRow = OutboxRow(operation: string, kind: string, scope: string, version: int, fence: int,
                                 payload: string, status: OutboxStatus)

  datatype EffectStatus = Pending | Unknown | Succeeded | Failed

  datatype EffectKey = EffectKey(provider: string, key: string)

  datatype Effect = Effect(operation: string, actor: string, installation: string, scope: Scope,
                           generation: int, fence: int, credential: string, precondition: string,
                           request: string, status: EffectStatus, result: string)

  datatype HandoffKey = HandoffKey(scope: Scope, toGeneration: int)

  datatype Handoff = Handoff(fromOwner: string, toOwner: string, fromGeneration: int, version: int, ready: bool)

  datatype CancelKey = CancelKey(scope: Scope, installation: string, fence: int)

  datatype Request =
    | SetAuthorityRequest(scope: Scope, owner: string, generation: int, expectedVersion: int)
    | InitializeRequest(rows: seq<(Scope, string)>)
    | ClaimRequest(scope: Scope, expectedVersion: int, owner: string, generation: int, leaseSeconds: int)
    | TransitionRequest(claimOperation: string, expectedVersion: int, newState: string, markdown: string,
                        evidence: Option<string>, path: string, revision: string)
    | EffectRequest(key: EffectKey, credential: string, precondition: string, request: string)

  datatype Reply =
    | AuthoritySet(version: int, owner: string, generation: int, reconciling: bool)
    | Initialized(count: nat)
    | Claimed(claim: Claim)
    | Transitioned(version: int)
    | EffectPending(operation: string)

  datatype Operation = Operation(actor: string, installation: string, request: Request, reply: Reply)

  /** `cancellations` maps each request to whether it is acknowledged; `outbox` ids are positions. */
  datatype Db = Db(
    authority: map<Scope, Authority>,
    claims: map<Scope, Claim>,
    operations: map<string, Operation>,
    outbox: seq<OutboxRow>,
    effects: map<EffectKey, Effect>,
    handoffs: map<HandoffKey, Handoff>,
    cancellations: map<CancelKey, bool>,
    evidence: map<string, string>,
    reservations: Table)

  const EMPTY := Db(map[], map[], map[], [], map[], map[], map[], map[], Table([], map[]))

  datatype Error = PermissionError | ValueError | Stale | MissingKey | IntegrityError

  datatype Outcome<+T> = Done(db: Db, value: T) | Refused(error: Error)

  // ---- idempotency --------------------------------------------------------------------------

  datatype Replay = Fresh | Repeated(reply: Reply) | Reused

  /** Looks the operation id up: an id stands for one caller and one request. */
  function Repeat(db: Db, p: Principal, operation: string, request: Request): Replay {
    if operation !in db.operations then Fresh
    else
      var row := db.operations[operation];
      if row.actor == p.member && row.installation == p.installation && row.request == request
      then Repeated(row.reply) else Reused
  }

  function Record(db: Db, p: Principal, operation: string, request: Request, reply: Reply): Db {
    db.(operations := db.operations[operation := Operation(p.member, p.installation, request, reply)])
  }

  // ---- authority ----------------------------------------------------------------------------

  predicate Unresolved(e: Effect) { e.status == Pending || e.status == Unknown }

  predicate ScopeHasUnresolvedEffect(effects: map<EffectKey, Effect>, s: Scope) {
    exists k :: k in effects && effects[k].scope == s && Unresolved(effects[k])
  }

  function SetAuthority(db: Db, p: Principal, garden: string, s: Scope, owner: string, generation: int,
                        expectedVersion: int, operation: string): Outcome<Reply>
  {
    var request := SetAuthorityRequest(s, owner, generation, expectedVersion);
    if p.garden != garden || p.role != Administrator then Refused(PermissionError)
    else if s.name == "" then Refused(ValueError)
    else match Repeat(db, p, operation, request)
    case Repeated(reply) => Done(db, reply)
    case Reused => Refused(Stale)
    case Fresh =>
      var version := if s in db.authority then db.authority[s].version else 0;
      if version != expectedVersion then Refused(Stale)
      else if s in db.authority && generation <= db.authority[s].generation then Refused(Stale)
      else if ScopeHasUnresolvedEffect(db.effects, s) then Refused(Stale)
      else
        var reply := AuthoritySet(version + 1, owner, generation, s in db.authority);
        Done(Record(Reassigned(db, s, owner, generation, version + 1), p, operation, request, reply), reply)
  }

  /** The new authority row; an existing scope also gets a handoff to reconcile, a cancellation for
      the claim that was active, and no claim. */
  function Reassigned(db: Db, s: Scope, owner: string, generation: int, version: int): Db {
    if s !in db.authority then
      db.(authority := db.authority[s := Authority(version, owner, generation, 0)], claims := db.claims - {s})
    else
      var row := db.authority[s];
      var key := HandoffKey(s, generation);
      db.(
        authority := db.authority[s := Authority(version, owner, generation, row.nextFence)],
        handoffs := if key in db.handoffs then db.handoffs
                    else db.handoffs[key := Handoff(row.owner, owner, row.generation, version, false)],
        cancellations := if s in db.claims
                         then db.cancellations[CancelKey(s, db.claims[s].installation, db.claims[s].fence) := false]
                         else db.cancellations,
        claims := db.claims - {s})
  }

  predicate Quiescent(db: Db) {
    && db.claims == map[]
    && (forall i :: 0 <= i < |db.outbox| ==> db.outbox[i].status == Finished)
    && (forall k :: k in db.effects ==> !Unresolved(db.effects[k]))
  }

  /** Installs the rows in order; an empty name or a scope that already has authority refuses all. */
  function InstallRows(authority: map<Scope, Authority>, rows: seq<(Scope, string)>): (r: Option<map<Scope, Authority>>)
    decreases |rows|
  {
    if rows == [] then Some(authority)
    else
      var (s, owner) := rows[0];
      if s.name == "" || s in authority then None
      else InstallRows(authority[s := Authority(1, owner, 1, 0)], rows[1..])
  }

  function InstallError(authority: map<Scope, Authority>, rows: seq<(Scope, string)>): Error
    requires InstallRows(authority, rows).None?
    decreases |rows|
  {
    var (s, owner) := rows[0];
    if s.name == "" then ValueError
    else if s in authority then Stale
    else InstallError(authority[s := Authority(1, owner, 1, 0)], rows[1..])
  }

  function InitializeAuthority(db: Db, p: Principal, garden: string, rows: seq<(Scope, string)>,
                               operation: string): Outcome<Reply> {
    var request := InitializeRequest(rows);
    if p.garden != garden || p.role != Administrator then Refused(PermissionError)
    else match Repeat(db, p, operation, request)
    case Repeated(reply) => Done(db, reply)
    case Reused => Refused(Stale)
    case Fresh =>
      if !Quiescent(db) then Refused(Stale)
      else
        var installed := InstallRows(db.authority, rows);
        if installed.None? then Refused(InstallError(db.authority, rows))
        else
          var reply := Initialized(|rows|);
          Done(Record(db.(authority := installed.value), p, operation, request, reply), reply)
  }

  // ---- claims -------------------------------------------------------------------------------

  predicate CancellationWaits(cancellations: map<CancelKey, bool>, s: Scope) {
    exists k :: k in cancellations && k.scope == s && !cancellations[k]
  }

  predicate OldEffectWaits(effects: map<EffectKey, Effect>, s: Scope, fromGeneration: int) {
    exists k :: k in effects && effects[k].scope == s && effects[k].generation <= fromGeneration
      && Unresolved(effects[k])
  }

  /** The outbox names scopes without their kind. */
  predicate OldProjectionWaits(outbox: seq<OutboxRow>, name: string, version: int) {
    exists i :: 0 <= i < |outbox| && outbox[i].scope == name && outbox[i].version < version
      && outbox[i].status == Waiting
  }

  predicate HandoffBlocked(db: Db, s: Scope, h: Handoff) {
    || CancellationWaits(db.cancellations, s)
    || OldEffectWaits(db.effects, s, h.fromGeneration)
    || OldProjectionWaits(db.outbox, s.name, h.version)
  }

  predicate SomeHandoffBlocked(db: Db, s: Scope) {
    exists k :: k in db.handoffs && k.scope == s && !db.handoffs[k].ready && HandoffBlocked(db, s, db.handoffs[k])
  }

  function HandoffsReady(handoffs: map<HandoffKey, Handoff>, s: Scope): map<HandoffKey, Handoff> {
    map k | k in handoffs :: if k.scope == s then handoffs[k].(ready := true) else handoffs[k]
  }

  function AcquireClaim(db: Db, p: Principal, garden: string, s: Scope, expectedVersion: int, owner: string,
                        generation: int, operation: string, leaseSeconds: int, now: int): Outcome<Reply>
  {
    var request := ClaimRequest(s, expectedVersion, owner, generation, leaseSeconds);
    if p.garden != garden || p.member != owner || p.role == Viewer then Refused(PermissionError)
    else if s.name == "" || operation == "" || leaseSeconds < 1 then Refused(ValueError)
    else match Repeat(db, p, operation, request)
    case Repeated(reply) => Done(db, reply)
    case Reused => Refused(Stale)
    case Fresh =>
      if s !in db.authority then Refused(Stale)
      else if db.authority[s].version != expectedVersion || db.authority[s].owner != owner
           || db.authority[s].generation != generation then Refused(Stale)
      else if owner == "" then Refused(Stale)
      else if SomeHandoffBlocked(db, s) then Refused(Stale)
      else if ScopeHasUnresolvedEffect(db.effects, s) then Refused(Stale)
      else if s in db.claims && db.claims[s].expires > now then Refused(Stale)
      else
        var fence := db.authority[s].nextFence + 1;
        var claim := Claim(s, owner, generation, p.installation, operation, fence, now + leaseSeconds);
        var granted := db.(
          handoffs := HandoffsReady(db.handoffs, s),
          authority := db.authority[s := db.authority[s].(nextFence := fence)],
          claims := db.claims[s := claim]);
        Done(Record(granted, p, operation, request, Claimed(claim)), Claimed(claim))
  }

  /** The caller's claim is the stored one, unexpired, and its authority still stands. */
  predicate Validates(db: Db, p: Principal, garden: string, c: Claim, expectedVersion: Option<int>, now: int) {
    && p.garden == garden
    && c.scope in db.claims && db.claims[c.scope] == c
    && c.installation == p.installation && c.expires > now
    && c.scope in db.authority && db.authority[c.scope].owner == p.member
    && db.authority[c.scope].generation == c.generation
    && (expectedVersion.Some? ==> db.authority[c.scope].version == expectedVersion.value)
  }

  function ClaimError(p: Principal, garden: string): Error { if p.garden != garden then PermissionError else Stale }

  // ---- transitions and the outbox -----------------------------------------------------------

  /** The updates of a transition whose claim is valid, undone if its evidence was recorded before. */
  function Moved(db: Db, p: Principal, c: Claim, request: Request, operation: string): Outcome<Reply>
    requires request.TransitionRequest? && c.scope in db.authority
  {
    if request.evidence.Some? && request.evidence.value in db.evidence then Refused(IntegrityError)
    else
      var version := db.authority[c.scope].version + 1;
      var row := OutboxRow(operation, "task_transition", c.scope.name, version, c.fence, request.newState, Waiting);
      var moved := db.(
        authority := db.authority[c.scope := db.authority[c.scope].(version := version)],
        outbox := db.outbox + [row, row.(kind := "git_projection")],
        evidence := if request.evidence.Some? then db.evidence[request.evidence.value := operation] else db.evidence);
      Done(Record(moved, p, operation, request, Transitioned(version)), Transitioned(version))
  }

  function Transition(db: Db, p: Principal, garden: string, c: Claim, request: Request, operation: string,
                      now: int): Outcome<Reply>
    requires request.TransitionRequest? && request.claimOperation == c.operation
  {
    if request.path != "" && request.revision == "" then Refused(ValueError)
    else match Repeat(db, p, operation, request)
    case Repeated(reply) => Done(db, reply)
    case Reused => Refused(Stale)
    case Fresh =>
      if !Validates(db, p, garden, c, Some(request.expectedVersion), now) then Refused(ClaimError(p, garden))
      else Moved(db, p, c, request, operation)
  }

  function FinishOutbox(db: Db, p: Principal, garden: string, id: int, version: int, success: bool): Outcome<()> {
    if p.garden != garden || p.role != Administrator then Refused(PermissionError)
    else if !(0 <= id < |db.outbox|) then Refused(MissingKey)
    else
      var row := db.outbox[id];
      var task := Scope(Task, row.scope);
      if row.version != version then Refused(Stale)
      else if row.kind == "git_projection" && task in db.authority && db.authority[task].version != version
      then Refused(Stale)
      else Done(db.(outbox := db.outbox[id := row.(status := if success then Finished else Waiting)]), ())
  }

  function SupersedeOutbox(db: Db, p: Principal, garden: string, id: int, version: int): Outcome<()> {
    if p.garden != garden || p.role != Administrator then Refused(PermissionError)
    else if !(0 <= id < |db.outbox|) then Refused(MissingKey)
    else if db.outbox[id].version != version then Refused(Stale)
    else Done(db.(outbox := db.outbox[id := db.outbox[id].(status := Superseded)]), ())
  }

  // ---- provider effects ---------------------------------------------------------------------

  function BeginEffect(db: Db, p: Principal, garden: string, c: Claim, request: Request, operation: string,
                       expectedVersion: Option<int>, now: int): Outcome<Reply>
    requires request.EffectRequest?
  {
    match Repeat(db, p, operation, request)
    case Repeated(reply) => Done(db, reply)
    case Reused => Refused(Stale)
    case Fresh =>
      if !Validates(db, p, garden, c, expectedVersion, now) then Refused(ClaimError(p, garden))
      else if request.key in db.effects && Unresolved(db.effects[request.key]) then Refused(Stale)
      else
        var effect := Effect(operation, p.member, p.installation, c.scope, c.generation, c.fence,
                             request.credential, request.precondition, request.request, Pending, "{}");
        Done(Record(db.(effects := db.effects[request.key := effect]), p, operation, request, EffectPending(operation)),
             EffectPending(operation))
  }

  predicate HasEffect(db: Db, k: EffectKey, operation: string) {
    k in db.effects && db.effects[k].operation == operation
  }

  /** `k` is the row the operation id selects; there is at most one. */
  function FinishEffect(db: Db, p: Principal, garden: string, k: Option<EffectKey>, outcome: EffectStatus,
                        result: string): Outcome<()>
    requires k.Some? ==> k.value in db.effects
  {
    if p.garden != garden then Refused(PermissionError)
    else if outcome == Pending then Refused(ValueError)
    else if k.None? then Refused(PermissionError)
    else
      var row := db.effects[k.value];
      if p.role != Administrator && (row.actor != p.member || row.installation != p.installation)
      then Refused(PermissionError)
      else if row.status == Succeeded || row.status == Failed || (row.status == Unknown && outcome == Unknown) then
        if row.status == outcome && row.result == result then Done(db, ()) else Refused(Stale)
      else Done(db.(effects := db.effects[k.value := row.(status := outcome, result := result)]), ())
  }

  /** An administrator acknowledges for the installation that the cancellation names. */
  function AcknowledgeCancellation(db: Db, p: Principal, garden: string, s: Scope, fence: int,
                                   requested: Option<string>): Outcome<()> {
    var installation := if p.role == Administrator && requested.Some? then requested.value else p.installation;
    var key := CancelKey(s, installation, fence);
    if p.garden != garden then Refused(PermissionError)
    else if key !in db.cancellations || db.cancellations[key] then Refused(Stale)
    else Done(db.(cancellations := db.cancellations[key := true]), ())
  }

  // ---- reservations -------------------------------------------------------------------------

  function Reservation(db: Db, r: Reservations.Outcome): Outcome<bool> {
    match r
    case Accepted(table, active) => Done(db.(reservations := table), active)
    case Denied => Refused(PermissionError)
    case Conflict => Refused(Stale)
  }

  predicate HasPrefix(text: string, prefix: string) { prefix <= text }

  function ReserveShared(db: Db, p: Principal, garden: string, pool: string, operation: string, units: int, spend: int,
                         requested: Requested): Outcome<bool>
  {
    if p.garden != garden || p.role == Viewer then Refused(PermissionError)
    else if HasPrefix(pool, "phase:") then Refused(PermissionError)
    else if HasPrefix(pool, "global:") && p.role != Administrator then Refused(PermissionError)
    else Reservation(db, Reserve(db.reservations, pool, operation, p.member, p.installation, units, spend, requested))
  }

  function ReservePhase(db: Db, p: Principal, garden: string, c: Claim, pool: string, operation: string, units: int,
                        spend: int, requested: Requested, now: int): Outcome<bool>
  {
    if c.scope.kind != Phase || p.garden != garden || p.role == Viewer || units < 0 || spend < 0
    then Refused(PermissionError)
    else if !Validates(db, p, garden, c, None, now) then Refused(Stale)
    else Reservation(db, Reserve(db.reservations, "phase:" + c.scope.name + ":" + pool, operation,
                                 p.member, p.installation, units, spend, requested))
  }

  function SetReservationPool(db: Db, p: Principal, garden: string, pool: string, units: int,
                              spend: int): Outcome<bool> {
    if p.garden != garden then Refused(PermissionError)
    else if p.role == Administrator && (pool == "" || units < 0 || spend < 0) then Refused(ValueError)
    else Reservation(db, SetPool(db.reservations, p.role == Administrator, pool, units, spend))
  }

  function ReleaseReservation(db: Db, p: Principal, garden: string, pool: string, operation: string): Outcome<bool> {
    if p.garden != garden then Refused(PermissionError)
    else Reservation(db, Release(db.reservations, p.role == Administrator, p.member, p.installation, pool, operation))
  }
}
