/** Who may work on what: exactly what every call makes of the authority and claim tables, and whom they name after
    a run. */
module CoordinatorAuthority {
  import opened Options
  import opened Reservations
  import opened CoordinatorModel
  import opened CoordinatorSafety
  import opened CoordinatorRuns

  /** The call is accepted, and not as the repetition of an earlier one. */
  predicate Takes(db: Db, garden: string, call: Call) {
    && WellFormed(db, call) && Recording(call) && call.operation !in db.operations
    && ReplyOf(db, garden, call).Some? && ReplyOf(db, garden, call).value.Done?
  }

  predicate Same<K(==), V(==)>(before: map<K, V>, after: map<K, V>, k: K) {
    (k in after <==> k in before) && (k in before ==> after[k] == before[k])
  }

  // ---- authority ----------------------------------------------------------------------------

  /** The owner that a list of initial rows names for the scope. */
  function InitialOwner(rows: seq<(Scope, string)>, s: Scope): Option<string>
    decreases |rows|
  {
    if rows == [] then None else if rows[0].0 == s then Some(rows[0].1) else InitialOwner(rows[1..], s)
  }

  /** The owner and generation that the call gives the scope, if it is taken. */
  function Names(db: Db, garden: string, call: Call, s: Scope): Option<(string, int)> {
    if !Takes(db, garden, call) then None
    else if call.DoSetAuthority? && call.s == s then Some((call.owner, call.generation))
    else if call.DoInitialize? && InitialOwner(call.rows, s).Some? then Some((InitialOwner(call.rows, s).value, 1))
    else None
  }

  predicate Claims(db: Db, garden: string, call: Call, s: Scope) {
    Takes(db, garden, call) && call.DoClaim? && call.s == s
  }

  predicate Transits(db: Db, garden: string, call: Call, s: Scope) {
    Takes(db, garden, call) && call.DoTransition? && call.c.scope == s
  }

  function StoredVersion(db: Db, s: Scope): int { if s in db.authority then db.authority[s].version else 0 }

  function StoredFence(db: Db, s: Scope): int { if s in db.authority then db.authority[s].nextFence else 0 }

  /** A named scope has the named owner and generation, the next version and the fence counter it had; a granted
      claim takes the next fence and a transition the next version; nothing else touches the row. */
  predicate AuthorityStep(db: Db, garden: string, call: Call, after: Db, s: Scope) {
    var named := Names(db, garden, call, s);
    if named.Some? then
      && s in after.authority
      && after.authority[s] == Authority(StoredVersion(db, s) + 1, named.value.0, named.value.1, StoredFence(db, s))
    else if Claims(db, garden, call, s) then
      && s in db.authority && s in after.authority
      && after.authority[s] == db.authority[s].(nextFence := db.authority[s].nextFence + 1)
    else if Transits(db, garden, call, s) then
      && s in db.authority && s in after.authority
      && after.authority[s] == db.authority[s].(version := db.authority[s].version + 1)
    else Same(db.authority, after.authority, s)
  }

  lemma {:induction false} InstallsInitial(authority: map<Scope, Authority>, rows: seq<(Scope, string)>, s: Scope)
    requires InstallRows(authority, rows).Some?
    ensures var after, owner := InstallRows(authority, rows).value, InitialOwner(rows, s);
            if owner.Some? then s !in authority && s in after && after[s] == Authority(1, owner.value, 1, 0)
            else Same(authority, after, s)
    decreases |rows|
  {
    if rows != [] {
      var more := authority[rows[0].0 := Authority(1, rows[0].1, 1, 0)];
      InstallsInitial(more, rows[1..], s);
    }
  }

  /** A call that is not taken changes nothing, and one that is taken is fresh. */
  lemma ReassignmentTaken(db: Db, garden: string, call: Call)
    requires call.DoSetAuthority?
    ensures var after := Next(db, garden, call);
            if Takes(db, garden, call) then
              && StoredVersion(db, call.s) == call.expectedVersion
              && (call.s in db.authority ==> db.authority[call.s].generation < call.generation)
              && !ScopeHasUnresolvedEffect(db.effects, call.s)
              && after.(operations := db.operations) ==
                   Reassigned(db, call.s, call.owner, call.generation, call.expectedVersion + 1)
            else after == db
  {
    hide ScopeHasUnresolvedEffect, Reassigned;
    ReassignedKeepsOperations(db, call.s, call.owner, call.generation, call.expectedVersion + 1);
  }

  lemma ReassignedKeepsOperations(db: Db, s: Scope, owner: string, generation: int, version: int)
    ensures var after := Reassigned(db, s, owner, generation, version);
            && after.operations == db.operations && after.outbox == db.outbox && after.effects == db.effects
            && after.evidence == db.evidence
  {
  }

  lemma ReassignedRow(db: Db, s: Scope, owner: string, generation: int, version: int)
    ensures var after := Reassigned(db, s, owner, generation, version);
            && after.authority == db.authority[s := Authority(version, owner, generation, StoredFence(db, s))]
            && after.claims == db.claims - {s}
  {
  }

  lemma ReassignmentStores(db: Db, garden: string, call: Call, s: Scope)
    requires call.DoSetAuthority?
    ensures AuthorityStep(db, garden, call, Next(db, garden, call), s)
  {
    ReassignmentTaken(db, garden, call);
    ReassignedRow(db, call.s, call.owner, call.generation, call.expectedVersion + 1);
    hide ScopeHasUnresolvedEffect, SetAuthority, Takes, Next, Reassigned;
  }

  lemma InitializationStores(db: Db, garden: string, call: Call, s: Scope)
    requires call.DoInitialize?
    ensures AuthorityStep(db, garden, call, Next(db, garden, call), s)
  {
    hide InstallRows, Quiescent;
    if Takes(db, garden, call) {
      InstallsInitial(db.authority, call.rows, s);
    }
  }

  lemma ClaimCounts(db: Db, garden: string, call: Call, s: Scope)
    requires call.DoClaim?
    ensures AuthorityStep(db, garden, call, Next(db, garden, call), s)
  {
    hide SomeHandoffBlocked, ScopeHasUnresolvedEffect, HandoffsReady;
  }

  lemma TransitionTaken(db: Db, garden: string, call: Call)
    requires call.DoTransition? && WellFormed(db, call)
    ensures var after := Next(db, garden, call);
            if Takes(db, garden, call) then
              && call.c.scope in db.authority && Moved(db, call.p, call.c, call.request, call.operation).Done?
              && after == Moved(db, call.p, call.c, call.request, call.operation).db
            else after == db
  {
    hide Moved;
  }

  lemma TransitionCounts(db: Db, garden: string, call: Call, s: Scope)
    requires call.DoTransition? && WellFormed(db, call)
    ensures AuthorityStep(db, garden, call, Next(db, garden, call), s)
  {
    TransitionTaken(db, garden, call);
    hide Transition, Takes, Next;
  }

  lemma OthersKeepAuthority(db: Db, garden: string, call: Call)
    requires WellFormed(db, call) && !call.DoSetAuthority? && !call.DoInitialize? && !call.DoClaim?
             && !call.DoTransition?
    ensures Next(db, garden, call).authority == db.authority && Next(db, garden, call).claims == db.claims
  {
    hide Validates, Reserve, Release, SetPool, Find, HasPrefix;
  }

  /** Every call, by anyone with any arguments. */
  lemma AuthorityStepsExactly(db: Db, garden: string, call: Call, s: Scope)
    requires WellFormed(db, call)
    ensures AuthorityStep(db, garden, call, Next(db, garden, call), s)
  {
    hide AuthorityStep, SetAuthority, InitializeAuthority, AcquireClaim, Transition;
    match call {
      case DoSetAuthority(_, _, _, _, _, _) => ReassignmentStores(db, garden, call, s);
      case DoInitialize(_, _, _) => InitializationStores(db, garden, call, s);
      case DoClaim(_, _, _, _, _, _, _, _) => ClaimCounts(db, garden, call, s);
      case DoTransition(_, _, _, _, _) => TransitionCounts(db, garden, call, s);
      case _ =>
        OthersKeepAuthority(db, garden, call);
        assert AuthorityStep(db, garden, call, Next(db, garden, call), s) by { Untouched(db, garden, call, s); }
    }
  }

  lemma Untouched(db: Db, garden: string, call: Call, s: Scope)
    requires WellFormed(db, call) && !call.DoSetAuthority? && !call.DoInitialize? && !call.DoClaim?
             && !call.DoTransition?
    requires Next(db, garden, call).authority == db.authority
    ensures AuthorityStep(db, garden, call, Next(db, garden, call), s)
  {
    hide Next;
  }

  /** The owner and generation that the last taken call of the run names for the scope. */
  function LastNamed(garden: string, calls: seq<Call>, s: Scope): Option<(string, int)> {
    if calls == [] then None
    else
      var before := Run(BIRTH, garden, calls[..|calls|-1]).db;
      var named := Names(before, garden, calls[|calls|-1], s);
      if named.Some? then named else LastNamed(garden, calls[..|calls|-1], s)
  }

  /** After any run the stored owner and generation of a scope are the last ones named, and a scope is stored
      exactly if one was. */
  lemma {:induction false} OwnerIsLastNamed(garden: string, calls: seq<Call>, s: Scope)
    ensures var db, named := Run(BIRTH, garden, calls).db, LastNamed(garden, calls, s);
            && (s in db.authority <==> named.Some?)
            && (named.Some? ==> db.authority[s].owner == named.value.0 && db.authority[s].generation == named.value.1)
  {
    hide Names, Claims, Transits, Next, Granted;
    if calls != [] {
      var last := |calls| - 1;
      OwnerIsLastNamed(garden, calls[..last], s);
      var before := Run(BIRTH, garden, calls[..last]).db;
      if WellFormed(before, calls[last]) {
        AuthorityStepsExactly(before, garden, calls[last], s);
      } else {
        IllFormedNamesNothing(before, garden, calls[last], s);
      }
    }
  }

  lemma IllFormedNamesNothing(db: Db, garden: string, call: Call, s: Scope)
    requires !WellFormed(db, call)
    ensures Names(db, garden, call, s).None?
  {
  }

  // ---- claims -------------------------------------------------------------------------------

  /** The claim that is granted: for the caller, who is the stored owner, in the stored generation, under the next
      fence, from now for as many seconds as asked. */
  predicate Lease(db: Db, call: Call, c: Claim)
    requires call.DoClaim?
  {
    && call.s in db.authority && c.scope == call.s
    && c.owner == call.p.member == db.authority[call.s].owner && c.installation == call.p.installation
    && c.generation == db.authority[call.s].generation && c.fence == db.authority[call.s].nextFence + 1
    && c.operation == call.operation && c.expires == call.now + call.lease
  }

  predicate ClaimStep(db: Db, garden: string, call: Call, after: Db, s: Scope) {
    if Claims(db, garden, call, s) then s in after.claims && Lease(db, call, after.claims[s])
    else if Takes(db, garden, call) && call.DoSetAuthority? && call.s == s then s !in after.claims
    else Same(db.claims, after.claims, s)
  }

  lemma ReassignmentReleases(db: Db, garden: string, call: Call, s: Scope)
    requires call.DoSetAuthority?
    ensures ClaimStep(db, garden, call, Next(db, garden, call), s)
  {
    ReassignmentTaken(db, garden, call);
    ReassignedRow(db, call.s, call.owner, call.generation, call.expectedVersion + 1);
    hide ScopeHasUnresolvedEffect, SetAuthority, Takes, Next, Reassigned;
  }

  lemma ClaimIsLeased(db: Db, garden: string, call: Call, s: Scope)
    requires call.DoClaim?
    ensures ClaimStep(db, garden, call, Next(db, garden, call), s)
  {
    hide SomeHandoffBlocked, ScopeHasUnresolvedEffect, HandoffsReady;
  }

  lemma WorkKeepsClaims(db: Db, garden: string, call: Call)
    requires WellFormed(db, call) && (call.DoInitialize? || call.DoTransition?)
    ensures Next(db, garden, call).claims == db.claims
  {
    hide InstallRows, InstallError, Quiescent, Validates;
  }

  /** Every call, by anyone with any arguments. */
  lemma ClaimsStepExactly(db: Db, garden: string, call: Call, s: Scope)
    requires WellFormed(db, call)
    ensures ClaimStep(db, garden, call, Next(db, garden, call), s)
  {
    hide SetAuthority, InitializeAuthority, AcquireClaim, Transition, Next;
    match call {
      case DoSetAuthority(_, _, _, _, _, _) => ReassignmentReleases(db, garden, call, s);
      case DoClaim(_, _, _, _, _, _, _, _) => ClaimIsLeased(db, garden, call, s);
      case DoInitialize(_, _, _) => WorkKeepsClaims(db, garden, call);
      case DoTransition(_, _, _, _, _) => WorkKeepsClaims(db, garden, call);
      case _ => OthersKeepAuthority(db, garden, call);
    }
  }

  /** After any run, whoever is granted a claim is the owner that was named last, in the generation named with it,
      for as many seconds from now as asked. */
  lemma GrantGoesToNamed(garden: string, calls: seq<Call>, grant: Call)
    requires grant.DoClaim? && Takes(Run(BIRTH, garden, calls).db, garden, grant)
    ensures var db, named := Run(BIRTH, garden, calls).db, LastNamed(garden, calls, grant.s);
            var after := Next(db, garden, grant);
            && named.Some? && grant.s in after.claims
            && after.claims[grant.s].owner == grant.p.member == named.value.0
            && after.claims[grant.s].generation == named.value.1
            && after.claims[grant.s].installation == grant.p.installation
            && after.claims[grant.s].expires == grant.now + grant.lease
  {
    hide Run, LastNamed, AcquireClaim, Next;
    var db := Run(BIRTH, garden, calls).db;
    OwnerIsLastNamed(garden, calls, grant.s);
    ClaimsStepExactly(db, garden, grant, grant.s);
  }
}
