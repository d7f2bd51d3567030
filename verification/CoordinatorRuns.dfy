/** Properties of whole runs of the coordinator: fences, leases, replays and what follows a reassignment. */
module CoordinatorRuns {
  import opened Options
  import opened Reservations
  import opened CoordinatorModel
  import opened CoordinatorSafety

  /** A claim as it was granted, with the clock reading its lease starts from. */
  datatype Grant = Grant(claim: Claim, start: int)

  function Granted(db: Db, garden: string, call: Call): Option<Grant> {
    if call.DoClaim? then
      var outcome := AcquireClaim(db, call.p, garden, call.s, call.expectedVersion, call.owner, call.generation,
                                  call.operation, call.lease, call.now);
      if outcome.Done? && call.operation !in db.operations then Some(Grant(outcome.value.claim, call.now)) else None
    else None
  }

  /** The tables together with everything ever granted, oldest first. */
  datatype World = World(db: Db, log: seq<Grant>)

  function Step(w: World, garden: string, call: Call): World {
    if !WellFormed(w.db, call) then w
    else
      var granted := Granted(w.db, garden, call);
      World(Next(w.db, garden, call), if granted.Some? then w.log + [granted.value] else w.log)
  }

  function Run(w: World, garden: string, calls: seq<Call>): World {
    if calls == [] then w else Step(Run(w, garden, calls[..|calls|-1]), garden, calls[|calls|-1])
  }

  ghost predicate GrantKnown(db: Db, g: Grant) {
    && g.claim.scope in db.authority
    && g.claim.fence <= db.authority[g.claim.scope].nextFence
    && g.claim.generation <= db.authority[g.claim.scope].generation
    && g.start < g.claim.expires
    && (g.claim.generation == db.authority[g.claim.scope].generation ==>
          g.claim.scope in db.claims && g.claim.expires <= db.claims[g.claim.scope].expires)
  }

  /** Later grants of a scope have larger fences, and within a generation their leases start only
      when every earlier lease has ended. */
  ghost predicate Ordered(g: Grant, h: Grant) {
    g.claim.scope == h.claim.scope ==>
      && g.claim.fence < h.claim.fence
      && (g.claim.generation == h.claim.generation ==> g.claim.expires <= h.start)
  }

  ghost predicate LogFits(w: World) {
    && (forall i {:trigger w.log[i]} :: 0 <= i < |w.log| ==> GrantKnown(w.db, w.log[i]))
    && (forall i, j {:trigger w.log[i], w.log[j]} :: 0 <= i < j < |w.log| ==> Ordered(w.log[i], w.log[j]))
  }

  /** What a call that grants nothing does: a claim may only go, and then its generation is over. */
  ghost predicate FencesStay(db: Db, after: Db) {
    && (forall s {:trigger after.authority[s]} {:trigger s in db.authority} :: s in db.authority ==>
          && s in after.authority
          && after.authority[s].nextFence == db.authority[s].nextFence
          && db.authority[s].generation <= after.authority[s].generation)
    && (forall s {:trigger after.claims[s]} :: s in after.claims ==> s in db.claims && after.claims[s] == db.claims[s])
    && (forall s {:trigger db.claims[s]} :: s in db.claims && s !in after.claims && s in db.authority ==>
          s in after.authority && db.authority[s].generation < after.authority[s].generation)
  }

  /** What a grant does: the next fence, beyond every lease of the scope that it replaces. */
  ghost predicate GrantFits(db: Db, after: Db, g: Grant) {
    var s := g.claim.scope;
    && s in db.authority
    && after.authority == db.authority[s := db.authority[s].(nextFence := g.claim.fence)]
    && after.claims == db.claims[s := g.claim]
    && g.claim.fence == db.authority[s].nextFence + 1
    && g.claim.generation == db.authority[s].generation
    && g.start < g.claim.expires
    && (s in db.claims ==> db.claims[s].expires <= g.start)
  }

  lemma SetAuthorityFences(db: Db, p: Principal, garden: string, s: Scope, owner: string, generation: int,
                           expectedVersion: int, operation: string)
    ensures FencesStay(db, After(SetAuthority(db, p, garden, s, owner, generation, expectedVersion, operation), db))
  {
    hide FencesStay;
    var outcome := SetAuthority(db, p, garden, s, owner, generation, expectedVersion, operation);
    if outcome.Done? && operation !in db.operations {
      ReassignedFences(db, outcome.db, s, owner, generation, expectedVersion + 1);
    } else {
      FencesStayPut(db);
    }
  }

  lemma FencesStayPut(db: Db)
    ensures FencesStay(db, db)
  {
  }

  lemma ReassignedFences(db: Db, after: Db, s: Scope, owner: string, generation: int, version: int)
    requires s in db.authority ==> generation > db.authority[s].generation
    requires after.authority == Reassigned(db, s, owner, generation, version).authority
    requires after.claims == Reassigned(db, s, owner, generation, version).claims
    ensures FencesStay(db, after)
  {
    hide ScopeHasUnresolvedEffect, CancellationWaits;
  }

  lemma InitializeFences(db: Db, p: Principal, garden: string, rows: seq<(Scope, string)>, operation: string)
    ensures FencesStay(db, After(InitializeAuthority(db, p, garden, rows, operation), db))
  {
    var outcome := InitializeAuthority(db, p, garden, rows, operation);
    if outcome.Done? && operation !in db.operations {
      InstallAdds(db.authority, rows);
    }
  }

  lemma ClaimFences(db: Db, garden: string, call: Call)
    requires call.DoClaim?
    ensures var granted := Granted(db, garden, call);
            if granted.Some? then GrantFits(db, Next(db, garden, call), granted.value) else Next(db, garden, call) == db
  {
  }

  lemma TransitionFences(db: Db, p: Principal, garden: string, c: Claim, request: Request, operation: string, now: int)
    requires request.TransitionRequest? && request.claimOperation == c.operation
    ensures FencesStay(db, After(Transition(db, p, garden, c, request, operation, now), db))
  {
  }

  /** The other calls touch neither authority nor claims. */
  lemma OtherFences(db: Db, garden: string, call: Call)
    requires WellFormed(db, call) && !call.DoSetAuthority? && !call.DoInitialize? && !call.DoClaim?
             && !call.DoTransition?
    ensures Next(db, garden, call).authority == db.authority && Next(db, garden, call).claims == db.claims
  {
    hide Validates, Reserve, Release, SetPool, Find, HasPrefix;
  }

  lemma CallFences(db: Db, garden: string, call: Call)
    requires WellFormed(db, call)
    ensures var granted := Granted(db, garden, call);
            if granted.Some? then GrantFits(db, Next(db, garden, call), granted.value)
            else FencesStay(db, Next(db, garden, call))
  {
    hide SetAuthority, InitializeAuthority, AcquireClaim, Transition, FinishOutbox, SupersedeOutbox, BeginEffect,
      FinishEffect, AcknowledgeCancellation, SetReservationPool, ReserveShared, ReservePhase, ReleaseReservation;
    match call
    case DoSetAuthority(p, s, owner, generation, expectedVersion, operation) =>
      SetAuthorityFences(db, p, garden, s, owner, generation, expectedVersion, operation);
    case DoInitialize(p, rows, operation) => InitializeFences(db, p, garden, rows, operation);
    case DoClaim(p, s, expectedVersion, owner, generation, operation, lease, now) => ClaimFences(db, garden, call);
    case DoTransition(p, c, request, operation, now) => TransitionFences(db, p, garden, c, request, operation, now);
    case _ => OtherFences(db, garden, call);
  }

  lemma KnownStays(db: Db, after: Db, g: Grant)
    requires GrantKnown(db, g) && FencesStay(db, after)
    ensures GrantKnown(after, g)
  {
    var s := g.claim.scope;
    assert after.authority[s].generation >= db.authority[s].generation;
    if s in after.claims {
      assert after.claims[s] == db.claims[s];
    }
  }

  lemma KnownThroughGrant(db: Db, after: Db, g: Grant, granted: Grant)
    requires GrantKnown(db, g) && GrantFits(db, after, granted)
    ensures GrantKnown(after, g) && GrantKnown(after, granted) && Ordered(g, granted)
  {
  }

  /** The log keeps fitting the tables through any one call. */
  lemma StepFits(w: World, garden: string, call: Call)
    requires LogFits(w)
    ensures LogFits(Step(w, garden, call))
  {
    hide Next, Granted, GrantKnown, GrantFits, FencesStay, Ordered;
    if WellFormed(w.db, call) {
      var granted := Granted(w.db, garden, call);
      var after := Step(w, garden, call);
      CallFences(w.db, garden, call);
      if granted.None? {
        forall i | 0 <= i < |w.log| ensures GrantKnown(after.db, w.log[i]) { KnownStays(w.db, after.db, w.log[i]); }
      } else {
        FirstKnown(w.db, after.db, granted.value);
        forall i | 0 <= i < |w.log| ensures GrantKnown(after.db, w.log[i]) && Ordered(w.log[i], granted.value) {
          KnownThroughGrant(w.db, after.db, w.log[i], granted.value);
        }
      }
    }
  }

  lemma FirstKnown(db: Db, after: Db, granted: Grant)
    requires GrantFits(db, after, granted)
    ensures GrantKnown(after, granted)
  {
  }

  const BIRTH := World(EMPTY, [])

  lemma {:induction false} SafetyStays(w: World, garden: string, calls: seq<Call>)
    requires Inv(w.db) && LogFits(w)
    ensures Inv(Run(w, garden, calls).db) && LogFits(Run(w, garden, calls))
  {
    hide Inv, LogFits, Next, Granted, WellFormed;
    if calls != [] {
      var before := Run(w, garden, calls[..|calls|-1]);
      var call := calls[|calls|-1];
      SafetyStays(w, garden, calls[..|calls|-1]);
      StepFits(before, garden, call);
      if WellFormed(before.db, call) {
        CallKeepsInv(before.db, garden, call);
      }
    }
  }

  /** After any run from empty tables the invariant holds, every later grant of a scope has a larger
      fence, across reassignments too, and no two leases of one generation overlap.  Nothing is
      assumed of the clock readings. */
  lemma RunsAreSafe(garden: string, calls: seq<Call>)
    ensures Inv(Run(BIRTH, garden, calls).db) && LogFits(Run(BIRTH, garden, calls))
  {
    hide Inv, LogFits;
    EmptyIsSafe();
    SafetyStays(BIRTH, garden, calls);
  }

  lemma EmptyRows()
    ensures ClaimsCurrent(EMPTY.authority, EMPTY.claims, EMPTY.cancellations)
    ensures EffectsCurrent(EMPTY.authority, EMPTY.effects)
    ensures HandoffsPast(EMPTY.authority, EMPTY.handoffs)
    ensures CancellationsGuarded(EMPTY.handoffs, EMPTY.cancellations)
  {
    hide EffectCurrent, HandoffOpen;
  }

  lemma EmptyIds()
    ensures ClaimIdsUnique(EMPTY.claims, EMPTY.operations)
    ensures EffectIdsUnique(EMPTY.effects, EMPTY.operations)
    ensures OutboxIdsUnique(EMPTY.outbox, EMPTY.operations)
  {
  }

  lemma EmptyLimits()
    ensures WithinLimits(EMPTY.reservations)
  {
  }

  lemma EmptyIsSafe()
    ensures Inv(EMPTY) && LogFits(BIRTH)
  {
    hide ClaimsCurrent, EffectsCurrent, HandoffsPast, CancellationsGuarded, ClaimIdsUnique, EffectIdsUnique,
      OutboxIdsUnique, WithinLimits;
    EmptyRows();
    EmptyIds();
    EmptyLimits();
  }

  // ---- superseded claims --------------------------------------------------------------------

  /** One step raises no fence or generation back. */
  lemma StepGrows(w: World, garden: string, call: Call, s: Scope)
    requires s in w.db.authority
    ensures var after := Step(w, garden, call).db.authority;
            && s in after && w.db.authority[s].nextFence <= after[s].nextFence
            && w.db.authority[s].generation <= after[s].generation
  {
    hide Next, Granted, WellFormed;
    if WellFormed(w.db, call) {
      CallFences(w.db, garden, call);
      var after := Step(w, garden, call).db.authority;
      assert s in after;
    }
  }

  lemma {:induction false} RunGrows(w: World, garden: string, calls: seq<Call>, s: Scope)
    requires s in w.db.authority
    ensures var after := Run(w, garden, calls).db.authority;
            && s in after && w.db.authority[s].nextFence <= after[s].nextFence
            && w.db.authority[s].generation <= after[s].generation
  {
    hide Step;
    if calls != [] {
      RunGrows(w, garden, calls[..|calls|-1], s);
      StepGrows(Run(w, garden, calls[..|calls|-1]), garden, calls[|calls|-1], s);
    }
  }

  /** The call grants a new claim on the scope or moves the scope to another generation. */
  predicate Supersedes(db: Db, garden: string, call: Call, s: Scope) {
    && WellFormed(db, call)
    && ((Granted(db, garden, call).Some? && Granted(db, garden, call).value.claim.scope == s)
        || (s in db.authority && s in Next(db, garden, call).authority
            && Next(db, garden, call).authority[s].generation != db.authority[s].generation))
  }

  lemma SupersedingIsWellFormed(db: Db, garden: string, call: Call, s: Scope)
    requires Supersedes(db, garden, call, s)
    ensures WellFormed(db, call)
  {
  }

  /** What supersedes leaves no earlier grant with both the latest fence and the generation. */
  lemma SupersededFalls(w: World, garden: string, call: Call, g: Grant)
    requires LogFits(w) && g in w.log && Supersedes(w.db, garden, call, g.claim.scope)
    ensures var after := Next(w.db, garden, call).authority;
            && g.claim.scope in after
            && (g.claim.fence < after[g.claim.scope].nextFence || g.claim.generation < after[g.claim.scope].generation)
  {
    hide Next, Granted, WellFormed, Ordered;
    var i :| 0 <= i < |w.log| && w.log[i] == g;
    assert GrantKnown(w.db, g);
    CallFences(w.db, garden, call);
    assert g.claim.scope in Next(w.db, garden, call).authority;
  }

  /** A claim that a later grant or a reassignment superseded never validates again: not for anyone,
      not at any clock reading, whatever is called or replayed afterwards. */
  lemma SupersededNeverValidates(garden: string, past: seq<Call>, call: Call, future: seq<Call>, g: Grant,
                                 p: Principal, expected: Option<int>, now: int)
    requires g in Run(BIRTH, garden, past).log
    requires Supersedes(Run(BIRTH, garden, past).db, garden, call, g.claim.scope)
    ensures !Validates(Run(Step(Run(BIRTH, garden, past), garden, call), garden, future).db, p, garden, g.claim,
                       expected, now)
  {
    hide Next, Granted, LogFits, Supersedes, WellFormed, EffectsCurrent, HandoffsPast, CancellationsGuarded,
      ClaimIdsUnique, EffectIdsUnique, OutboxIdsUnique, WithinLimits;
    var before := Run(BIRTH, garden, past);
    var middle := Step(before, garden, call);
    RunsAreSafe(garden, past);
    SupersededFalls(before, garden, call, g);
    SupersedingIsWellFormed(before.db, garden, call, g.claim.scope);
    RunGrows(middle, garden, future, g.claim.scope);
    assert Inv(middle.db) && LogFits(middle) by {
      CallKeepsInv(before.db, garden, call);
      StepFits(before, garden, call);
    }
    SafetyStays(middle, garden, future);
  }

  // ---- effects whose outcome is open --------------------------------------------------------

  /** An effect that is pending or unknown carries its scope's generation and latest fence, so no
      grant came after it and no reassignment either, and the search for effects of generations a
      handoff left behind finds nothing. */
  lemma OpenEffectHoldsScope(garden: string, calls: seq<Call>, k: EffectKey)
    requires k in Run(BIRTH, garden, calls).db.effects
    requires Unresolved(Run(BIRTH, garden, calls).db.effects[k])
    ensures var w := Run(BIRTH, garden, calls);
            var e := w.db.effects[k];
            && e.scope in w.db.authority
            && e.generation == w.db.authority[e.scope].generation && e.fence == w.db.authority[e.scope].nextFence
            && (forall g :: g in w.log && g.claim.scope == e.scope ==>
                  g.claim.fence <= e.fence && g.claim.generation <= e.generation)
  {
    hide Run, ClaimsCurrent, HandoffsPast, CancellationsGuarded, ClaimIdsUnique, EffectIdsUnique,
      OutboxIdsUnique, WithinLimits;
    RunsAreSafe(garden, calls);
    var w := Run(BIRTH, garden, calls);
    assert EffectCurrent(w.db.authority, w.db.effects[k]);
    forall g | g in w.log ensures GrantKnown(w.db, g) {
      var i :| 0 <= i < |w.log| && w.log[i] == g;
    }
  }

  /** Only cancellations and old projections ever hold a handoff up. */
  lemma NoOldEffectWaits(garden: string, calls: seq<Call>, key: HandoffKey)
    requires key in Run(BIRTH, garden, calls).db.handoffs
    ensures var db := Run(BIRTH, garden, calls).db;
            && !OldEffectWaits(db.effects, key.scope, db.handoffs[key].fromGeneration)
            && (HandoffBlocked(db, key.scope, db.handoffs[key]) <==>
                  CancellationWaits(db.cancellations, key.scope)
                  || OldProjectionWaits(db.outbox, key.scope.name, db.handoffs[key].version))
  {
    hide Run, LogFits, ClaimsCurrent, CancellationsGuarded, ClaimIdsUnique, EffectIdsUnique, OutboxIdsUnique,
      WithinLimits, CancellationWaits, OldProjectionWaits;
    RunsAreSafe(garden, calls);
    var db := Run(BIRTH, garden, calls).db;
    forall k | k in db.effects ensures EffectCurrent(db.authority, db.effects[k]) {
    }
  }

  // ---- the first claim after a reassignment -------------------------------------------------

  /** A handoff of the scope is not ready yet and dates from the given authority version. */
  predicate OpenSince(handoffs: map<HandoffKey, Handoff>, s: Scope, version: int) {
    exists k :: k in handoffs && k.scope == s && !handoffs[k].ready && handoffs[k].version == version
  }

  /** Reassigning an existing scope opens a handoff, takes the claim away and requests that the
      workers of that claim stop. */
  lemma ReassignmentOpens(db: Db, p: Principal, garden: string, s: Scope, owner: string, generation: int,
                          expectedVersion: int, operation: string)
    requires HandoffsPast(db.authority, db.handoffs) && s in db.authority && operation !in db.operations
    requires SetAuthority(db, p, garden, s, owner, generation, expectedVersion, operation).Done?
    ensures var after := SetAuthority(db, p, garden, s, owner, generation, expectedVersion, operation).db;
            && OpenSince(after.handoffs, s, after.authority[s].version)
            && s !in after.claims
            && (s in db.claims ==> CancellationWaits(after.cancellations, s))
            && after.authority[s].version == db.authority[s].version + 1
  {
    var after := SetAuthority(db, p, garden, s, owner, generation, expectedVersion, operation).db;
    var key := HandoffKey(s, generation);
    assert key in after.handoffs;
    if s in db.claims {
      assert CancelKey(s, db.claims[s].installation, db.claims[s].fence) in after.cancellations;
    }
  }

  predicate Grants(db: Db, garden: string, call: Call, s: Scope) {
    WellFormed(db, call) && Granted(db, garden, call).Some? && Granted(db, garden, call).value.claim.scope == s
  }

  lemma AuthorityKeepsOpen(db: Db, p: Principal, garden: string, t: Scope, owner: string, generation: int,
                           expectedVersion: int, operation: string, s: Scope, version: int)
    requires OpenSince(db.handoffs, s, version)
    ensures OpenSince(After(SetAuthority(db, p, garden, t, owner, generation, expectedVersion, operation), db).handoffs,
                      s, version)
  {
    var after := After(SetAuthority(db, p, garden, t, owner, generation, expectedVersion, operation), db);
    var k :| k in db.handoffs && k.scope == s && !db.handoffs[k].ready && db.handoffs[k].version == version;
    assert k in after.handoffs && after.handoffs[k] == db.handoffs[k];
  }

  lemma ClaimKeepsOpen(db: Db, garden: string, call: Call, s: Scope, version: int)
    requires call.DoClaim? && OpenSince(db.handoffs, s, version) && !Grants(db, garden, call, s)
    ensures OpenSince(Next(db, garden, call).handoffs, s, version)
  {
    var after := Next(db, garden, call);
    var k :| k in db.handoffs && k.scope == s && !db.handoffs[k].ready && db.handoffs[k].version == version;
    assert k in after.handoffs && after.handoffs[k] == db.handoffs[k];
  }

  lemma OtherHandoffs(db: Db, garden: string, call: Call)
    requires WellFormed(db, call) && !call.DoSetAuthority? && !call.DoClaim?
    ensures Next(db, garden, call).handoffs == db.handoffs
  {
    hide Validates, Reserve, Release, SetPool, Find, HasPrefix, InstallRows, InstallError, Quiescent;
  }

  lemma StepKeepsOpen(w: World, garden: string, call: Call, s: Scope, version: int)
    requires OpenSince(w.db.handoffs, s, version) && !Grants(w.db, garden, call, s)
    ensures OpenSince(Step(w, garden, call).db.handoffs, s, version)
  {
    hide OpenSince, Granted, SetAuthority, InitializeAuthority, AcquireClaim, Transition, FinishOutbox,
      SupersedeOutbox, BeginEffect, FinishEffect, AcknowledgeCancellation, SetReservationPool, ReserveShared,
      ReservePhase, ReleaseReservation;
    if WellFormed(w.db, call) {
      match call
      case DoSetAuthority(p, t, owner, generation, expectedVersion, operation) =>
        AuthorityKeepsOpen(w.db, p, garden, t, owner, generation, expectedVersion, operation, s, version);
      case DoClaim(_, _, _, _, _, _, _, _) => ClaimKeepsOpen(w.db, garden, call, s, version);
      case _ => OtherHandoffs(w.db, garden, call);
    }
  }

  /** No call of the run grants a claim on the scope. */
  predicate NoneGrants(w: World, garden: string, calls: seq<Call>, s: Scope) {
    forall i {:trigger calls[i]} :: 0 <= i < |calls| ==> !Grants(Run(w, garden, calls[..i]).db, garden, calls[i], s)
  }

  lemma {:induction false} RunKeepsOpen(w: World, garden: string, calls: seq<Call>, s: Scope, version: int)
    requires OpenSince(w.db.handoffs, s, version) && NoneGrants(w, garden, calls, s)
    ensures OpenSince(Run(w, garden, calls).db.handoffs, s, version)
  {
    hide OpenSince, Step, Grants;
    if calls != [] {
      var last := |calls| - 1;
      forall i | 0 <= i < last ensures !Grants(Run(w, garden, calls[..last][..i]).db, garden, calls[..last][i], s) {
        assert calls[..last][..i] == calls[..i];
      }
      RunKeepsOpen(w, garden, calls[..last], s, version);
      StepKeepsOpen(Run(w, garden, calls[..last]), garden, calls[last], s, version);
    }
  }

  lemma GrantFindsNothing(db: Db, garden: string, call: Call, s: Scope, version: int)
    requires OpenSince(db.handoffs, s, version) && Grants(db, garden, call, s)
    ensures !CancellationWaits(db.cancellations, s) && !OldProjectionWaits(db.outbox, s.name, version)
  {
    hide CancellationWaits, OldProjectionWaits, OldEffectWaits, ScopeHasUnresolvedEffect;
    var k :| k in db.handoffs && k.scope == s && !db.handoffs[k].ready && db.handoffs[k].version == version;
    assert !HandoffBlocked(db, s, db.handoffs[k]);
  }

  /** The first claim granted after a reassignment, however late and after whatever else, finds every
      cancellation acknowledged and no projection waiting from before the reassignment. */
  lemma FirstGrantAfterReassignment(garden: string, past: seq<Call>, reassign: Call, between: seq<Call>, grant: Call)
    requires reassign.DoSetAuthority? && reassign.s in Run(BIRTH, garden, past).db.authority
    requires reassign.operation !in Run(BIRTH, garden, past).db.operations
    requires SetAuthority(Run(BIRTH, garden, past).db, reassign.p, garden, reassign.s, reassign.owner,
                          reassign.generation,
                          reassign.expectedVersion, reassign.operation).Done?
    requires NoneGrants(Step(Run(BIRTH, garden, past), garden, reassign), garden, between, reassign.s)
    requires Grants(Run(Step(Run(BIRTH, garden, past), garden, reassign), garden, between).db, garden, grant,
                    reassign.s)
    ensures var version := Run(BIRTH, garden, past).db.authority[reassign.s].version + 1;
            var found := Run(Step(Run(BIRTH, garden, past), garden, reassign), garden, between).db;
            && !CancellationWaits(found.cancellations, reassign.s)
            && !OldProjectionWaits(found.outbox, reassign.s.name, version)
  {
    hide Run, LogFits, ClaimsCurrent, EffectsCurrent, HandoffsPast, CancellationsGuarded, ClaimIdsUnique,
      EffectIdsUnique, OutboxIdsUnique, WithinLimits, OpenSince, Granted, CancellationWaits, OldProjectionWaits,
      NoneGrants, Grants, SetAuthority;
    RunsAreSafe(garden, past);
    var before := Run(BIRTH, garden, past);
    var middle := Step(before, garden, reassign);
    var version := before.db.authority[reassign.s].version + 1;
    ReassignmentOpens(before.db, reassign.p, garden, reassign.s, reassign.owner, reassign.generation,
                      reassign.expectedVersion, reassign.operation);
    RunKeepsOpen(middle, garden, between, reassign.s, version);
    GrantFindsNothing(Run(middle, garden, between).db, garden, grant, reassign.s, version);
  }

  // ---- replays ------------------------------------------------------------------------------

  lemma StepKeepsOperations(w: World, garden: string, call: Call, operation: string)
    requires operation in w.db.operations
    ensures var after := Step(w, garden, call).db.operations;
            operation in after && after[operation] == w.db.operations[operation]
  {
    hide Validates, Reserve, Release, SetPool, Find, HasPrefix, InstallRows, InstallError, Quiescent,
      SomeHandoffBlocked, ScopeHasUnresolvedEffect, HandoffsReady, Granted;
    if WellFormed(w.db, call) && Recording(call) {
      RecordingKeepsOperations(w.db, garden, call, operation);
    }
  }

  lemma RecordingKeepsOperations(db: Db, garden: string, call: Call, operation: string)
    requires Recording(call) && WellFormed(db, call) && operation in db.operations
    ensures var after := Next(db, garden, call).operations;
            operation in after && after[operation] == db.operations[operation]
  {
    hide Validates, InstallRows, InstallError, Quiescent, SomeHandoffBlocked, ScopeHasUnresolvedEffect, HandoffsReady;
  }

  lemma {:induction false} OperationsAreForever(w: World, garden: string, calls: seq<Call>, operation: string)
    requires operation in w.db.operations
    ensures var after := Run(w, garden, calls).db.operations;
            operation in after && after[operation] == w.db.operations[operation]
  {
    hide Step;
    if calls != [] {
      OperationsAreForever(w, garden, calls[..|calls|-1], operation);
      StepKeepsOperations(Run(w, garden, calls[..|calls|-1]), garden, calls[|calls|-1], operation);
    }
  }

  /** The reply of a call that carries an operation id. */
  function ReplyOf(db: Db, garden: string, call: Call): Option<CoordinatorModel.Outcome<Reply>>
    requires WellFormed(db, call)
  {
    match call
    case DoSetAuthority(p, s, owner, generation, expectedVersion, operation) =>
      Some(SetAuthority(db, p, garden, s, owner, generation, expectedVersion, operation))
    case DoInitialize(p, rows, operation) => Some(InitializeAuthority(db, p, garden, rows, operation))
    case DoClaim(p, s, expectedVersion, owner, generation, operation, lease, now) =>
      Some(AcquireClaim(db, p, garden, s, expectedVersion, owner, generation, operation, lease, now))
    case DoTransition(p, c, request, operation, now) => Some(Transition(db, p, garden, c, request, operation, now))
    case DoBeginEffect(p, c, request, operation, expected, now) =>
      Some(BeginEffect(db, p, garden, c, request, operation, expected, now))
    case _ => None
  }

  /** The same call, with the clock read again. */
  ghost predicate SameRequest(call: Call, again: Call) {
    match call
    case DoClaim(p, s, expectedVersion, owner, generation, operation, lease, _) =>
      exists now :: again == DoClaim(p, s, expectedVersion, owner, generation, operation, lease, now)
    case DoTransition(p, c, request, operation, _) => exists now :: again == DoTransition(p, c, request, operation, now)
    case DoBeginEffect(p, c, request, operation, expected, _) =>
      exists now :: again == DoBeginEffect(p, c, request, operation, expected, now)
    case _ => again == call
  }

  predicate Recording(call: Call) {
    call.DoSetAuthority? || call.DoInitialize? || call.DoClaim? || call.DoTransition? || call.DoBeginEffect?
  }

  /** The call is on record, and wherever that record stands the repeated request gets the same answer. */
  ghost predicate Recorded(db: Db, garden: string, call: Call, again: Call, later: Db)
    requires WellFormed(db, call) && Recording(call) && ReplyOf(db, garden, call).Some?
             && ReplyOf(db, garden, call).value.Done?
  {
    && call.operation in Next(db, garden, call).operations
    && (call.operation in later.operations
        && later.operations[call.operation] == Next(db, garden, call).operations[call.operation] ==>
          WellFormed(later, again)
          && ReplyOf(later, garden, again) == Some(Done(later, ReplyOf(db, garden, call).value.value)))
  }

  lemma AuthorityIsRecorded(db: Db, garden: string, call: Call, later: Db)
    requires call.DoSetAuthority? || call.DoInitialize?
    requires WellFormed(db, call) && ReplyOf(db, garden, call).value.Done?
    ensures Recorded(db, garden, call, call, later)
  {
    hide Validates, InstallRows, InstallError, Quiescent, ScopeHasUnresolvedEffect, Reassigned;
  }

  lemma ClaimIsRecorded(db: Db, garden: string, call: Call, again: Call, later: Db)
    requires call.DoClaim? && SameRequest(call, again) && ReplyOf(db, garden, call).value.Done?
    ensures Recorded(db, garden, call, again, later)
  {
    hide SomeHandoffBlocked, ScopeHasUnresolvedEffect, HandoffsReady;
  }

  lemma TransitionIsRecorded(db: Db, garden: string, call: Call, again: Call, later: Db)
    requires call.DoTransition? && WellFormed(db, call) && SameRequest(call, again)
    requires ReplyOf(db, garden, call).value.Done?
    ensures Recorded(db, garden, call, again, later)
  {
    hide Validates;
  }

  lemma EffectIsRecorded(db: Db, garden: string, call: Call, again: Call, later: Db)
    requires call.DoBeginEffect? && WellFormed(db, call) && SameRequest(call, again)
    requires ReplyOf(db, garden, call).value.Done?
    ensures Recorded(db, garden, call, again, later)
  {
    hide Validates;
  }

  lemma DoneIsRecorded(db: Db, garden: string, call: Call, again: Call, later: Db)
    requires WellFormed(db, call) && ReplyOf(db, garden, call).Some? && ReplyOf(db, garden, call).value.Done?
    requires SameRequest(call, again)
    ensures Recording(call) && Recorded(db, garden, call, again, later)
  {
    hide Recorded, SetAuthority, InitializeAuthority, AcquireClaim, Transition, BeginEffect;
    if call.DoClaim? {
      ClaimIsRecorded(db, garden, call, again, later);
    } else if call.DoTransition? {
      TransitionIsRecorded(db, garden, call, again, later);
    } else if call.DoBeginEffect? {
      EffectIsRecorded(db, garden, call, again, later);
    } else {
      AuthorityIsRecorded(db, garden, call, later);
    }
  }

  /** Repeating an accepted request, at any later time and any clock reading, answers what the first
      request answered and changes nothing, however far the tables have moved on. */
  lemma ReplayAnswersTheSame(w: World, garden: string, call: Call, calls: seq<Call>, again: Call)
    requires WellFormed(w.db, call) && ReplyOf(w.db, garden, call).Some? && ReplyOf(w.db, garden, call).value.Done?
    requires SameRequest(call, again)
    ensures var later := Run(Step(w, garden, call), garden, calls).db;
            && WellFormed(later, again)
            && ReplyOf(later, garden, again) == Some(Done(later, ReplyOf(w.db, garden, call).value.value))
  {
    hide Run, Next, ReplyOf, SameRequest, WellFormed, Granted;
    var later := Run(Step(w, garden, call), garden, calls).db;
    DoneIsRecorded(w.db, garden, call, again, later);
    OperationsAreForever(Step(w, garden, call), garden, calls, call.operation);
  }
}
