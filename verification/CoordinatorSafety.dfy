/** What every run of the coordinator keeps, whatever is called, by whom, in which order. */
module CoordinatorSafety {
  import opened Options
  import opened Reservations
  import opened CoordinatorModel

  /** One call.  `requested` and `selected` are the rows that the call's lookups return. */
  datatype Call =
    | DoSetAuthority(p: Principal, s: Scope, owner: string, generation: int, expectedVersion: int, operation: string)
    | DoInitialize(p: Principal, rows: seq<(Scope, string)>, operation: string)
    | DoClaim(p: Principal, s: Scope, expectedVersion: int, owner: string, generation: int, operation: string,
              lease: int, now: int)
    | DoTransition(p: Principal, c: Claim, request: Request, operation: string, now: int)
    | DoFinishOutbox(p: Principal, id: int, version: int, success: bool)
    | DoSupersede(p: Principal, id: int, version: int)
    | DoBeginEffect(p: Principal, c: Claim, request: Request, operation: string, expected: Option<int>, now: int)
    | DoFinishEffect(p: Principal, selected: Option<EffectKey>, outcome: EffectStatus, result: string)
    | DoAcknowledge(p: Principal, s: Scope, fence: int, requested: Option<string>)
    | DoSetPool(p: Principal, pool: string, units: int, spend: int)
    | DoReserve(p: Principal, pool: string, operation: string, units: int, spend: int, limits: Requested)
    | DoReservePhase(p: Principal, c: Claim, pool: string, operation: string, units: int, spend: int, limits: Requested,
                     now: int)
    | DoRelease(p: Principal, pool: string, operation: string)

  function After<T>(outcome: CoordinatorModel.Outcome<T>, before: Db): Db {
    if outcome.Done? then outcome.db else before
  }

  predicate WellFormed(db: Db, call: Call) {
    match call
    case DoTransition(p, c, request, operation, now) =>
      request.TransitionRequest? && request.claimOperation == c.operation
    case DoBeginEffect(p, c, request, operation, expected, now) => request.EffectRequest?
    case DoFinishEffect(p, selected, outcome, result) => selected.Some? ==> selected.value in db.effects
    case _ => true
  }

  function Next(db: Db, garden: string, call: Call): Db
    requires WellFormed(db, call)
  {
    match call
    case DoSetAuthority(p, s, owner, generation, expectedVersion, operation) =>
      After(SetAuthority(db, p, garden, s, owner, generation, expectedVersion, operation), db)
    case DoInitialize(p, rows, operation) => After(InitializeAuthority(db, p, garden, rows, operation), db)
    case DoClaim(p, s, expectedVersion, owner, generation, operation, lease, now) =>
      After(AcquireClaim(db, p, garden, s, expectedVersion, owner, generation, operation, lease, now), db)
    case DoTransition(p, c, request, operation, now) => After(Transition(db, p, garden, c, request, operation, now), db)
    case DoFinishOutbox(p, id, version, success) => After(FinishOutbox(db, p, garden, id, version, success), db)
    case DoSupersede(p, id, version) => After(SupersedeOutbox(db, p, garden, id, version), db)
    case DoBeginEffect(p, c, request, operation, expected, now) =>
      After(BeginEffect(db, p, garden, c, request, operation, expected, now), db)
    case DoFinishEffect(p, selected, outcome, result) =>
      After(FinishEffect(db, p, garden, selected, outcome, result), db)
    case DoAcknowledge(p, s, fence, requested) => After(AcknowledgeCancellation(db, p, garden, s, fence, requested), db)
    case DoSetPool(p, pool, units, spend) => After(SetReservationPool(db, p, garden, pool, units, spend), db)
    case DoReserve(p, pool, operation, units, spend, limits) =>
      After(ReserveShared(db, p, garden, pool, operation, units, spend, limits), db)
    case DoReservePhase(p, c, pool, operation, units, spend, limits, now) =>
      After(ReservePhase(db, p, garden, c, pool, operation, units, spend, limits, now), db)
    case DoRelease(p, pool, operation) => After(ReleaseReservation(db, p, garden, pool, operation), db)
  }

  // ---- the invariant ------------------------------------------------------------------------

  /** A stored claim carries its scope's latest fence, its generation and its owner, and no worker
      of its scope still has to acknowledge a cancellation. */
  ghost predicate ClaimsCurrent(authority: map<Scope, Authority>, claims: map<Scope, Claim>,
                                cancellations: map<CancelKey, bool>) {
    forall s :: s in claims ==>
      && s in authority && claims[s].scope == s
      && claims[s].fence == authority[s].nextFence
      && claims[s].generation == authority[s].generation
      && claims[s].owner == authority[s].owner
      && !CancellationWaits(cancellations, s)
  }

  ghost predicate EffectCurrent(authority: map<Scope, Authority>, e: Effect) {
    && e.scope in authority
    && (Unresolved(e) ==> e.generation == authority[e.scope].generation && e.fence == authority[e.scope].nextFence)
  }

  /** An effect whose outcome is open carries its scope's current generation and latest fence. */
  ghost predicate EffectsCurrent(authority: map<Scope, Authority>, effects: map<EffectKey, Effect>) {
    forall k {:trigger effects[k]} :: k in effects ==> EffectCurrent(authority, effects[k])
  }

  ghost predicate HandoffsPast(authority: map<Scope, Authority>, handoffs: map<HandoffKey, Handoff>) {
    forall k :: k in handoffs ==>
      && k.scope in authority
      && handoffs[k].fromGeneration < k.toGeneration <= authority[k.scope].generation
      && handoffs[k].version <= authority[k.scope].version
  }

  predicate HandoffOpen(handoffs: map<HandoffKey, Handoff>, s: Scope) {
    exists k :: k in handoffs && k.scope == s && !handoffs[k].ready
  }

  /** An unacknowledged cancellation keeps some handoff of its scope open. */
  ghost predicate CancellationsGuarded(handoffs: map<HandoffKey, Handoff>, cancellations: map<CancelKey, bool>) {
    forall s :: CancellationWaits(cancellations, s) ==> HandoffOpen(handoffs, s)
  }

  /** The uniqueness constraints of the claims, effects and outbox tables never bite: their rows
      were all written under operation ids that are recorded, each of them once. */
  ghost predicate ClaimIdsUnique(claims: map<Scope, Claim>, operations: map<string, Operation>) {
    && (forall s :: s in claims ==> claims[s].operation in operations)
    && (forall s, t :: s in claims && t in claims && claims[s].operation == claims[t].operation ==> s == t)
  }

  ghost predicate EffectIdsUnique(effects: map<EffectKey, Effect>, operations: map<string, Operation>) {
    && (forall k :: k in effects ==> effects[k].operation in operations)
    && (forall j, k :: j in effects && k in effects && effects[j].operation == effects[k].operation ==> j == k)
  }

  ghost predicate OutboxIdsUnique(outbox: seq<OutboxRow>, operations: map<string, Operation>) {
    && (forall i :: 0 <= i < |outbox| ==> outbox[i].operation in operations)
    && (forall i, j :: 0 <= i < j < |outbox| ==>
          outbox[i].operation != outbox[j].operation || outbox[i].kind != outbox[j].kind)
  }

  ghost predicate Inv(db: Db) {
    && ClaimsCurrent(db.authority, db.claims, db.cancellations)
    && EffectsCurrent(db.authority, db.effects)
    && HandoffsPast(db.authority, db.handoffs)
    && CancellationsGuarded(db.handoffs, db.cancellations)
    && ClaimIdsUnique(db.claims, db.operations)
    && EffectIdsUnique(db.effects, db.operations)
    && OutboxIdsUnique(db.outbox, db.operations)
    && WithinLimits(db.reservations)
  }

  // ---- each transaction keeps it ------------------------------------------------------------

  lemma EffectsStayCurrent(before: map<Scope, Authority>, after: map<Scope, Authority>, effects: map<EffectKey, Effect>)
    requires EffectsCurrent(before, effects)
    requires forall s :: s in before ==> s in after
    requires forall s :: s in before && ScopeHasUnresolvedEffect(effects, s) ==>
               after[s].generation == before[s].generation && after[s].nextFence == before[s].nextFence
    ensures EffectsCurrent(after, effects)
  {
    forall k | k in effects ensures EffectCurrent(after, effects[k]) {
      assert EffectCurrent(before, effects[k]);
    }
  }

  lemma ReassignGuards(handoffs: map<HandoffKey, Handoff>, cancellations: map<CancelKey, bool>, s: Scope,
                       key: HandoffKey, h: Handoff, cancel: CancelKey)
    requires CancellationsGuarded(handoffs, cancellations)
    requires key.scope == s == cancel.scope && !h.ready && key !in handoffs
    ensures CancellationsGuarded(handoffs[key := h], cancellations)
    ensures CancellationsGuarded(handoffs[key := h], cancellations[cancel := false])
    ensures forall t :: t != s ==>
              (CancellationWaits(cancellations[cancel := false], t) <==> CancellationWaits(cancellations, t))
  {
    var after := handoffs[key := h];
    assert HandoffOpen(after, s) by { assert key in after; }
    forall t ensures HandoffOpen(handoffs, t) ==> HandoffOpen(after, t) {
      if k :| k in handoffs && k.scope == t && !handoffs[k].ready {
        assert k in after && !after[k].ready;
      }
    }
    forall t | t != s
      ensures CancellationWaits(cancellations[cancel := false], t) <==> CancellationWaits(cancellations, t) {
      if k :| k in cancellations && k.scope == t && !cancellations[k] {
        assert k in cancellations[cancel := false];
      }
    }
  }

  /** The claim that a reassignment cancels, if there is one. */
  function CancelledBy(db: Db, s: Scope): CancelKey {
    if s in db.claims then CancelKey(s, db.claims[s].installation, db.claims[s].fence) else CancelKey(s, "", 0)
  }

  lemma ReassignClaims(db: Db, s: Scope, owner: string, generation: int, version: int)
    requires ClaimsCurrent(db.authority, db.claims, db.cancellations)
    requires forall t :: t != s ==>
               (CancellationWaits(Reassigned(db, s, owner, generation, version).cancellations, t) <==>
                  CancellationWaits(db.cancellations, t))
    ensures var after := Reassigned(db, s, owner, generation, version);
            ClaimsCurrent(after.authority, after.claims, after.cancellations)
  {
    hide CancellationWaits;
  }

  lemma ReassignHandoffs(db: Db, s: Scope, owner: string, generation: int, version: int)
    requires HandoffsPast(db.authority, db.handoffs)
    requires s in db.authority ==> generation > db.authority[s].generation && version == db.authority[s].version + 1
    ensures var after := Reassigned(db, s, owner, generation, version); HandoffsPast(after.authority, after.handoffs)
    ensures s in db.authority ==> HandoffKey(s, generation) !in db.handoffs
  {
  }

  lemma FewerClaimIds(before: map<Scope, Claim>, s: Scope, operations: map<string, Operation>)
    requires ClaimIdsUnique(before, operations)
    ensures ClaimIdsUnique(before - {s}, operations)
  {
  }

  lemma ReassignEffects(db: Db, s: Scope, owner: string, generation: int, version: int)
    requires EffectsCurrent(db.authority, db.effects) && !ScopeHasUnresolvedEffect(db.effects, s)
    ensures EffectsCurrent(Reassigned(db, s, owner, generation, version).authority, db.effects)
  {
    hide EffectsCurrent, ScopeHasUnresolvedEffect;
    EffectsStayCurrent(db.authority, Reassigned(db, s, owner, generation, version).authority, db.effects);
  }

  lemma ReassignKeepsInv(db: Db, s: Scope, owner: string, generation: int, version: int)
    requires Inv(db) && !ScopeHasUnresolvedEffect(db.effects, s)
    requires s in db.authority ==> generation > db.authority[s].generation && version == db.authority[s].version + 1
    ensures Inv(Reassigned(db, s, owner, generation, version))
  {
    hide ClaimsCurrent, EffectsCurrent, HandoffsPast, CancellationsGuarded, ClaimIdsUnique, EffectIdsUnique,
      OutboxIdsUnique, WithinLimits, ScopeHasUnresolvedEffect, CancellationWaits;
    var after := Reassigned(db, s, owner, generation, version);
    ReassignHandoffs(db, s, owner, generation, version);
    if s in db.authority {
      var key := HandoffKey(s, generation);
      ReassignGuards(db.handoffs, db.cancellations, s, key, after.handoffs[key], CancelledBy(db, s));
    }
    ReassignClaims(db, s, owner, generation, version);
    ReassignEffects(db, s, owner, generation, version);
    FewerClaimIds(db.claims, s, db.operations);
  }

  lemma {:induction false} InstallAdds(authority: map<Scope, Authority>, rows: seq<(Scope, string)>)
    requires InstallRows(authority, rows).Some?
    ensures forall s :: s in authority ==>
              s in InstallRows(authority, rows).value && InstallRows(authority, rows).value[s] == authority[s]
    decreases |rows|
  {
    if rows != [] {
      InstallAdds(authority[rows[0].0 := Authority(1, rows[0].1, 1, 0)], rows[1..]);
    }
  }

  lemma RecordKeepsInv(db: Db, p: Principal, operation: string, request: Request, reply: Reply)
    requires Inv(db)
    ensures Inv(Record(db, p, operation, request, reply))
  {
    hide ClaimsCurrent, EffectsCurrent, HandoffsPast, CancellationsGuarded, WithinLimits;
  }

  /** An unacknowledged cancellation shuts the gate for new claims. */
  lemma WaitingBlocks(db: Db, s: Scope)
    requires CancellationsGuarded(db.handoffs, db.cancellations)
    ensures CancellationWaits(db.cancellations, s) ==> SomeHandoffBlocked(db, s)
  {
    if CancellationWaits(db.cancellations, s) {
      var k :| k in db.handoffs && k.scope == s && !db.handoffs[k].ready;
      assert HandoffBlocked(db, s, db.handoffs[k]);
    }
  }

  /** The claim that AcquireClaim stores when it grants one. */
  lemma GrantKeepsInv(db: Db, s: Scope, claim: Claim, operations: map<string, Operation>)
    requires Inv(db) && s in db.authority
    requires !SomeHandoffBlocked(db, s) && !ScopeHasUnresolvedEffect(db.effects, s)
    requires claim.scope == s && claim.owner == db.authority[s].owner && claim.generation == db.authority[s].generation
    requires claim.fence == db.authority[s].nextFence + 1
    requires claim.operation !in db.operations && forall op :: op in db.operations || op == claim.operation ==>
               op in operations
    ensures !CancellationWaits(db.cancellations, s)
    ensures Inv(db.(handoffs := HandoffsReady(db.handoffs, s), operations := operations,
                    authority := db.authority[s := db.authority[s].(nextFence := claim.fence)],
                    claims := db.claims[s := claim]))
  {
    hide EffectsCurrent, CancellationsGuarded, EffectIdsUnique, OutboxIdsUnique, WithinLimits,
      CancellationWaits, SomeHandoffBlocked;
    assert EffectIdsUnique(db.effects, operations)
      && OutboxIdsUnique(db.outbox, operations) by { MoreOperations(db, operations); }
    WaitingBlocks(db, s);
    EffectsStayCurrent(db.authority, db.authority[s := db.authority[s].(nextFence := claim.fence)], db.effects);
    ReadyGuards(db.handoffs, db.cancellations, s);
  }

  /** Ids stay recorded when more operations are. */
  lemma MoreOperations(db: Db, operations: map<string, Operation>)
    requires forall op :: op in db.operations ==> op in operations
    ensures ClaimIdsUnique(db.claims, db.operations) ==> ClaimIdsUnique(db.claims, operations)
    ensures EffectIdsUnique(db.effects, db.operations) ==> EffectIdsUnique(db.effects, operations)
    ensures OutboxIdsUnique(db.outbox, db.operations) ==> OutboxIdsUnique(db.outbox, operations)
  {
  }

  lemma ReadyGuards(handoffs: map<HandoffKey, Handoff>, cancellations: map<CancelKey, bool>, s: Scope)
    requires CancellationsGuarded(handoffs, cancellations) && !CancellationWaits(cancellations, s)
    ensures CancellationsGuarded(HandoffsReady(handoffs, s), cancellations)
  {
    var after := HandoffsReady(handoffs, s);
    forall t | CancellationWaits(cancellations, t) ensures HandoffOpen(after, t) {
      var k :| k in handoffs && k.scope == t && !handoffs[k].ready;
      assert k in after && after[k] == handoffs[k];
    }
  }

  lemma TransitionKeepsInv(db: Db, p: Principal, garden: string, c: Claim, request: Request, operation: string,
                           now: int)
    requires Inv(db) && request.TransitionRequest? && request.claimOperation == c.operation
    ensures Inv(After(Transition(db, p, garden, c, request, operation, now), db))
  {
    hide EffectsCurrent, CancellationsGuarded, OutboxIdsUnique, EffectIdsUnique, ClaimIdsUnique, WithinLimits,
      CancellationWaits;
    var outcome := Transition(db, p, garden, c, request, operation, now);
    if outcome.Done? && operation !in db.operations {
      var after := outcome.db;
      EffectsStayCurrent(db.authority, after.authority, db.effects);
      var row := after.outbox[|db.outbox|];
      EnqueuedIds(db.outbox, row, db.operations, after.operations);
      MoreOperations(db, after.operations);
    }
  }

  /** Two rows of a new operation, of two kinds, keep the ids of the journal apart. */
  lemma EnqueuedIds(outbox: seq<OutboxRow>, row: OutboxRow, before: map<string, Operation>,
                    after: map<string, Operation>)
    requires OutboxIdsUnique(outbox, before) && row.operation !in before && row.kind == "task_transition"
    requires row.operation in after && forall op :: op in before ==> op in after
    ensures OutboxIdsUnique(outbox + [row, row.(kind := "git_projection")], after)
  {
    var rows, n := outbox + [row, row.(kind := "git_projection")], |outbox|;
    assert "task_transition"[0] != "git_projection"[0];
    forall i, j | 0 <= i < j < |rows| ensures rows[i].operation != rows[j].operation || rows[i].kind != rows[j].kind {
      assert i < n ==> rows[i] == outbox[i];
      assert j < n ==> rows[j] == outbox[j];
    }
  }

  /** An effect recorded under the current claim of its scope, by a new operation. */
  lemma EffectAdded(authority: map<Scope, Authority>, effects: map<EffectKey, Effect>, k: EffectKey, effect: Effect,
                    before: map<string, Operation>, after: map<string, Operation>)
    requires EffectsCurrent(authority, effects) && EffectCurrent(authority, effect)
    requires EffectIdsUnique(effects, before) && effect.operation !in before && effect.operation in after
    requires forall op :: op in before ==> op in after
    ensures EffectsCurrent(authority, effects[k := effect]) && EffectIdsUnique(effects[k := effect], after)
  {
    var added := effects[k := effect];
    forall key | key in added ensures EffectCurrent(authority, added[key]) {
      assert key != k ==> EffectCurrent(authority, effects[key]);
    }
  }

  lemma BeginEffectKeepsInv(db: Db, p: Principal, garden: string, c: Claim, request: Request, operation: string,
                            expected: Option<int>, now: int)
    requires Inv(db) && request.EffectRequest?
    ensures Inv(After(BeginEffect(db, p, garden, c, request, operation, expected, now), db))
  {
    hide EffectsCurrent, HandoffsPast, CancellationsGuarded, ClaimIdsUnique, EffectIdsUnique, OutboxIdsUnique,
      WithinLimits;
    var outcome := BeginEffect(db, p, garden, c, request, operation, expected, now);
    if outcome.Done? && operation !in db.operations {
      EffectAdded(db.authority, db.effects, request.key, outcome.db.effects[request.key], db.operations,
                  outcome.db.operations);
      MoreOperations(db, outcome.db.operations);
    }
  }

  lemma FinishEffectKeepsInv(db: Db, p: Principal, garden: string, selected: Option<EffectKey>, outcome: EffectStatus,
                             result: string)
    requires Inv(db) && (selected.Some? ==> selected.value in db.effects)
    ensures Inv(After(FinishEffect(db, p, garden, selected, outcome, result), db))
  {
    hide ClaimsCurrent, HandoffsPast, CancellationsGuarded, ClaimIdsUnique, OutboxIdsUnique, WithinLimits;
    var after := After(FinishEffect(db, p, garden, selected, outcome, result), db);
    if after != db {
      forall k | k in after.effects ensures EffectCurrent(after.authority, after.effects[k]) {
        assert EffectCurrent(db.authority, db.effects[k]);
      }
    }
  }

  lemma AcknowledgeKeepsInv(db: Db, p: Principal, garden: string, s: Scope, fence: int, requested: Option<string>)
    requires Inv(db)
    ensures Inv(After(AcknowledgeCancellation(db, p, garden, s, fence, requested), db))
  {
    hide EffectsCurrent, HandoffsPast, ClaimIdsUnique, EffectIdsUnique, OutboxIdsUnique, WithinLimits;
    var after := After(AcknowledgeCancellation(db, p, garden, s, fence, requested), db);
    forall t ensures CancellationWaits(after.cancellations, t) ==> CancellationWaits(db.cancellations, t) {
      if k :| k in after.cancellations && k.scope == t && !after.cancellations[k] {
        assert k in db.cancellations && !db.cancellations[k];
      }
    }
  }

  lemma SetAuthorityKeepsInv(db: Db, p: Principal, garden: string, s: Scope, owner: string, generation: int,
                             expectedVersion: int, operation: string)
    requires Inv(db)
    ensures Inv(After(SetAuthority(db, p, garden, s, owner, generation, expectedVersion, operation), db))
  {
    hide Inv;
    var outcome := SetAuthority(db, p, garden, s, owner, generation, expectedVersion, operation);
    if outcome.Done? && operation !in db.operations {
      ReassignKeepsInv(db, s, owner, generation, expectedVersion + 1);
      RecordKeepsInv(Reassigned(db, s, owner, generation, expectedVersion + 1), p, operation,
                     SetAuthorityRequest(s, owner, generation, expectedVersion), outcome.value);
    }
  }

  lemma InitializeKeepsInv(db: Db, p: Principal, garden: string, rows: seq<(Scope, string)>, operation: string)
    requires Inv(db)
    ensures Inv(After(InitializeAuthority(db, p, garden, rows, operation), db))
  {
    hide EffectsCurrent, CancellationsGuarded, WithinLimits;
    var outcome := InitializeAuthority(db, p, garden, rows, operation);
    if outcome.Done? && operation !in db.operations {
      InstallAdds(db.authority, rows);
      EffectsStayCurrent(db.authority, outcome.db.authority, db.effects);
    }
  }

  lemma ClaimKeepsInv(db: Db, p: Principal, garden: string, s: Scope, expectedVersion: int, owner: string,
                      generation: int, operation: string, lease: int, now: int)
    requires Inv(db)
    ensures Inv(After(AcquireClaim(db, p, garden, s, expectedVersion, owner, generation, operation, lease, now), db))
  {
    var outcome := AcquireClaim(db, p, garden, s, expectedVersion, owner, generation, operation, lease, now);
    if outcome.Done? && operation !in db.operations {
      GrantKeepsInv(db, s, outcome.value.claim, outcome.db.operations);
    }
  }

  lemma OutboxKeepsInv(db: Db, p: Principal, garden: string, id: int, version: int, success: bool)
    requires Inv(db)
    ensures Inv(After(FinishOutbox(db, p, garden, id, version, success), db))
    ensures Inv(After(SupersedeOutbox(db, p, garden, id, version), db))
  {
    hide ClaimsCurrent, EffectsCurrent, HandoffsPast, CancellationsGuarded, ClaimIdsUnique, EffectIdsUnique,
      WithinLimits;
  }

  lemma SetPoolKeepsInv(db: Db, p: Principal, garden: string, pool: string, units: int, spend: int)
    requires Inv(db)
    ensures Inv(After(SetReservationPool(db, p, garden, pool, units, spend), db))
  {
    hide ClaimsCurrent, EffectsCurrent, HandoffsPast, CancellationsGuarded, ClaimIdsUnique, EffectIdsUnique,
      OutboxIdsUnique, WithinLimits;
    if SetPool(db.reservations, p.role == Administrator, pool, units, spend).Accepted? {
      SetPoolKeepsLimits(db.reservations, p.role == Administrator, pool, units, spend);
    }
  }

  lemma ReleaseKeepsInv(db: Db, p: Principal, garden: string, pool: string, operation: string)
    requires Inv(db)
    ensures Inv(After(ReleaseReservation(db, p, garden, pool, operation), db))
  {
    hide ClaimsCurrent, EffectsCurrent, HandoffsPast, CancellationsGuarded, ClaimIdsUnique, EffectIdsUnique,
      OutboxIdsUnique, WithinLimits;
    if Release(db.reservations, p.role == Administrator, p.member, p.installation, pool, operation).Accepted? {
      ReleaseKeepsLimits(db.reservations, p.role == Administrator, p.member, p.installation, pool, operation);
    }
  }

  lemma ReservationKeepsInv(db: Db, p: Principal, pool: string, operation: string, units: int, spend: int,
                            limits: Requested)
    requires Inv(db)
    ensures Inv(After(Reservation(db,
                                  Reserve(db.reservations, pool, operation, p.member, p.installation, units, spend,
                                          limits)), db))
  {
    hide ClaimsCurrent, EffectsCurrent, HandoffsPast, CancellationsGuarded, ClaimIdsUnique, EffectIdsUnique,
      OutboxIdsUnique;
    if Reserve(db.reservations, pool, operation, p.member, p.installation, units, spend, limits).Accepted? {
      ReserveKeepsLimits(db.reservations, pool, operation, p.member, p.installation, units, spend, limits);
    }
  }

  /** Every call keeps the invariant. */
  lemma CallKeepsInv(db: Db, garden: string, call: Call)
    requires Inv(db) && WellFormed(db, call)
    ensures Inv(Next(db, garden, call))
  {
    hide Inv;
    match call
    case DoSetAuthority(p, s, owner, generation, expectedVersion, operation) =>
      SetAuthorityKeepsInv(db, p, garden, s, owner, generation, expectedVersion, operation);
    case DoInitialize(p, rows, operation) => InitializeKeepsInv(db, p, garden, rows, operation);
    case DoClaim(p, s, expectedVersion, owner, generation, operation, lease, now) =>
      ClaimKeepsInv(db, p, garden, s, expectedVersion, owner, generation, operation, lease, now);
    case DoTransition(p, c, request, operation, now) => TransitionKeepsInv(db, p, garden, c, request, operation, now);
    case DoFinishOutbox(p, id, version, success) => OutboxKeepsInv(db, p, garden, id, version, success);
    case DoSupersede(p, id, version) => OutboxKeepsInv(db, p, garden, id, version, false);
    case DoBeginEffect(p, c, request, operation, expected, now) =>
      BeginEffectKeepsInv(db, p, garden, c, request, operation, expected, now);
    case DoFinishEffect(p, selected, outcome, result) => FinishEffectKeepsInv(db, p, garden, selected, outcome, result);
    case DoAcknowledge(p, s, fence, requested) => AcknowledgeKeepsInv(db, p, garden, s, fence, requested);
    case DoSetPool(p, pool, units, spend) => SetPoolKeepsInv(db, p, garden, pool, units, spend);
    case DoReserve(p, pool, operation, units, spend, limits) =>
      ReservationKeepsInv(db, p, pool, operation, units, spend, limits);
    case DoReservePhase(p, c, pool, operation, units, spend, limits, now) =>
      ReservationKeepsInv(db, p, "phase:" + c.scope.name + ":" + pool, operation, units, spend, limits);
    case DoRelease(p, pool, operation) => ReleaseKeepsInv(db, p, garden, pool, operation);
  }
}
